/** What every sequence of transfer commands satisfies, whichever file operations fail. */
module TransferProperties {
  import opened Options
  import opened Paths
  import opened Transfer

  function Lookup(files: Files, path: string): Option<Bytes> {
    if path in files then Some(files[path]) else None
  }

  // ---------------------------------------------------------------- non-interference

  // Two guests that one action cannot tell apart.
  ghost predicate SamePart(g: Guest, h: Guest, a: Action) {
    && SlotOf(g, a) == SlotOf(h, a)
    && (a.Image? ==> g.loaded == h.loaded)
    && (forall p :: Owned(a, p) ==> (p in g.files <==> p in h.files) && (p in g.files ==> g.files[p] == h.files[p]))
  }

  lemma OthersInvisible(env: Env, g: Guest, ev: Event, a: Action)
    requires Good(g) && ev.cmd.action != a
    ensures SamePart(g, Handle(env, g, ev).guest, a)
  {
    HandleOnlyOwn(env, g, ev);
    forall p | Owned(a, p) ensures !Owned(ev.cmd.action, p) {
      OwnersDisjoint(a, ev.cmd.action, p);
    }
  }

  lemma BeginLocal(g: Guest, h: Guest, b: Command, io: Io)
    requires b.Begin? && SlotGood(g, b.action) && SamePart(g, h, b.action)
    ensures SamePart(HandleBegin(g, b, io).guest, HandleBegin(h, b, io).guest, b.action)
    ensures HandleBegin(g, b, io).reply == HandleBegin(h, b, io).reply
  {
  }

  lemma CancelLocal(g: Guest, h: Guest, a: Action, io: Io)
    requires SamePart(g, h, a)
    ensures SamePart(Cancel(g, a, io), Cancel(h, a, io), a)
  {
  }

  lemma WriteLocal(g: Guest, h: Guest, a: Action, path: string, bytes: Bytes)
    requires SamePart(g, h, a) && Owned(a, path)
    ensures SamePart(g.(files := g.files[path := Content(g.files, path) + bytes]),
                     h.(files := h.files[path := Content(h.files, path) + bytes]), a)
  {
  }

  lemma DataLocal(g: Guest, h: Guest, a: Action, payload: Option<Bytes>, io: Io)
    requires SlotGood(g, a) && SamePart(g, h, a)
    ensures SamePart(HandleData(g, a, payload, io).guest, HandleData(h, a, payload, io).guest, a)
    ensures HandleData(g, a, payload, io).reply == HandleData(h, a, payload, io).reply
  {
    if SlotOf(g, a).Some? {
      var tmp := SlotOf(g, a).value.tmp;
      if payload.None? {
        CancelLocal(g, h, a, io);
      } else if io.write.Some? {
        var part := payload.value[..if io.write.value <= |payload.value| then io.write.value else |payload.value|];
        WriteLocal(g, h, a, tmp, part);
        CancelLocal(g.(files := g.files[tmp := Content(g.files, tmp) + part]),
                    h.(files := h.files[tmp := Content(h.files, tmp) + part]), a, io);
      } else {
        WriteLocal(g, h, a, tmp, payload.value);
      }
    }
  }

  lemma SwapLocal(f: Files, g: Files, io: Io)
    requires Lookup(f, CURRENT) == Lookup(g, CURRENT) && Lookup(f, NEW) == Lookup(g, NEW) && Lookup(f, OLD) == Lookup(g, OLD)
    ensures
      var f', g' := SwapStates(f, io)[|SwapStates(f, io)| - 1], SwapStates(g, io)[|SwapStates(g, io)| - 1];
      Lookup(f', CURRENT) == Lookup(g', CURRENT) && Lookup(f', NEW) == Lookup(g', NEW) && Lookup(f', OLD) == Lookup(g', OLD)
  {
  }

  lemma CommitLocal(env: Env, g: Guest, h: Guest, a: Action, s: Slot, io: Io)
    requires SlotOf(g, a) == Some(s) && SlotGood(g, a) && SamePart(g, h, a)
    ensures SamePart(Commit(env, g, a, s, io).guest, Commit(env, h, a, s, io).guest, a)
    ensures Commit(env, g, a, s, io).reply == Commit(env, h, a, s, io).reply
  {
    if a.Update? {
      assert Owned(Update, CURRENT) && Owned(Update, OLD) && Owned(Update, NEW);
      SwapLocal(g.files, h.files, io);
    }
  }

  lemma FinishLocal(env: Env, g: Guest, h: Guest, a: Action, io: Io)
    requires SlotGood(g, a) && SamePart(g, h, a)
    ensures SamePart(HandleFinish(env, g, a, io).guest, HandleFinish(env, h, a, io).guest, a)
    ensures HandleFinish(env, g, a, io).reply == HandleFinish(env, h, a, io).reply
  {
    if SlotOf(g, a).Some? {
      assert Owned(a, SlotOf(g, a).value.tmp);
      CommitLocal(env, g, h, a, SlotOf(g, a).value, io);
    }
  }

  lemma HandleLocal(env: Env, g: Guest, h: Guest, ev: Event)
    requires Good(g) && Good(h) && SamePart(g, h, ev.cmd.action)
    ensures SamePart(Handle(env, g, ev).guest, Handle(env, h, ev).guest, ev.cmd.action)
    ensures Handle(env, g, ev).reply == Handle(env, h, ev).reply
  {
    match ev.cmd
    case Begin(_, _, _, _, _, _) => BeginLocal(g, h, ev.cmd, ev.io);
    case Data(a, payload) => DataLocal(g, h, a, payload, ev.io);
    case Finish(a) => FinishLocal(env, g, h, a, ev.io);
    case Unknown(_) =>
  }

  function Project(es: seq<Event>, a: Action): seq<Event> {
    if es == [] then [] else
    Project(es[..|es| - 1], a) + if es[|es| - 1].cmd.action == a then [es[|es| - 1]] else []
  }

  // The replies to the commands of one action, in order.
  function Replies(env: Env, g: Guest, es: seq<Event>, a: Action): seq<Reply> {
    if es == [] then [] else
    Replies(env, g, es[..|es| - 1], a) + if es[|es| - 1].cmd.action == a then [LastReply(env, g, es)] else []
  }

  /** Leaving out the commands of the other two actions changes nothing for an action: same slot,
      same files, same images, same replies. */
  lemma {:induction false} NonInterference(env: Env, g: Guest, es: seq<Event>, a: Action)
    requires Good(g)
    ensures SamePart(Run(env, g, es), Run(env, g, Project(es, a)), a)
    ensures Replies(env, g, es, a) == Replies(env, g, Project(es, a), a)
  {
    if es != [] {
      var init, ev := es[..|es| - 1], es[|es| - 1];
      NonInterference(env, g, init, a);
      RunKeepsGood(env, g, init);
      RunKeepsGood(env, g, Project(init, a));
      if ev.cmd.action == a {
        HandleLocal(env, Run(env, g, init), Run(env, g, Project(init, a)), ev);
        RunSnoc(env, g, Project(init, a), ev);
        assert Project(es, a)[..|Project(init, a)|] == Project(init, a);
      } else {
        OthersInvisible(env, Run(env, g, init), ev, a);
        assert Project(es, a) == Project(init, a);
      }
    }
  }

  lemma {:induction false} NoiseInvisible(env: Env, g: Guest, noise: seq<Event>, a: Action)
    requires Good(g) && forall i :: 0 <= i < |noise| ==> noise[i].cmd.action != a
    ensures Good(Run(env, g, noise)) && SamePart(g, Run(env, g, noise), a)
  {
    if noise != [] {
      NoiseInvisible(env, g, noise[..|noise| - 1], a);
      OthersInvisible(env, Run(env, g, noise[..|noise| - 1]), noise[|noise| - 1], a);
      HandleKeepsGood(env, Run(env, g, noise[..|noise| - 1]), noise[|noise| - 1]);
    }
  }

  // ---------------------------------------------------------------- what a finish installs

  // Read off the commands and replies alone: the last begin of the action that was accepted, and
  // the payloads accepted since, one after the other.
  function Accepted(env: Env, g: Guest, es: seq<Event>, a: Action): Option<(Command, Bytes)> {
    if es == [] then None else
    var before := Accepted(env, g, es[..|es| - 1], a);
    var cmd := es[|es| - 1].cmd;
    if cmd.action != a || LastReply(env, g, es).Error? then before
    else if cmd.Begin? then Some((cmd, []))
    else if cmd.Data? && cmd.payload.Some? && before.Some? then Some((before.value.0, before.value.1 + cmd.payload.value))
    else before
  }

  // The slot and the temp file are exactly what has been accepted.
  ghost predicate Faithful(g: Guest, a: Action, acc: Option<(Command, Bytes)>) {
    SlotOf(g, a).Some? ==>
      && acc.Some? && acc.value.0.Begin? && acc.value.0.action == a && Acceptable(acc.value.0)
      && var s, b := SlotOf(g, a).value, acc.value.0;
         && s.tmp == TmpPath(b) && s.dest == DestPath(b) && s.checksum == b.checksum && s.image == b.image
         && s.tmp in g.files && g.files[s.tmp] == acc.value.1
  }

  lemma FaithfulStep(env: Env, g: Guest, ev: Event, a: Action, acc: Option<(Command, Bytes)>)
    requires Good(g) && ev.cmd.action == a && Faithful(g, a, acc)
    ensures
      var o := Handle(env, g, ev);
      var acc' :=
        if o.reply.Error? then acc
        else if ev.cmd.Begin? then Some((ev.cmd, []))
        else if ev.cmd.Data? && ev.cmd.payload.Some? && acc.Some? then Some((acc.value.0, acc.value.1 + ev.cmd.payload.value))
        else acc;
      Faithful(o.guest, a, acc')
  {
  }

  lemma {:induction false} SlotIsFaithful(env: Env, g: Guest, es: seq<Event>, a: Action)
    requires Good(g) && SlotOf(g, a).None?
    ensures Faithful(Run(env, g, es), a, Accepted(env, g, es, a))
  {
    if es != [] {
      var init, ev := es[..|es| - 1], es[|es| - 1];
      SlotIsFaithful(env, g, init, a);
      RunKeepsGood(env, g, init);
      if ev.cmd.action == a {
        FaithfulStep(env, Run(env, g, init), ev, a, Accepted(env, g, init, a));
      } else {
        OthersInvisible(env, Run(env, g, init), ev, a);
        if SlotOf(Run(env, g, init), a).Some? {
          assert Owned(a, SlotOf(Run(env, g, init), a).value.tmp);
        }
      }
    }
  }

  /** Whatever commands come before, a finish that reports success has put, at the destination of
      the last accepted begin, exactly the payloads accepted since it, and their hash is the
      checksum of that begin; for an image, Docker has loaded exactly those bytes. */
  lemma FinishInstalls(env: Env, g: Guest, es: seq<Event>, a: Action, io: Io)
    requires Good(g) && SlotOf(g, a).None?
    requires HandleFinish(env, Run(env, g, es), a, io).reply.Ok?
    ensures Accepted(env, g, es, a).Some? && Accepted(env, g, es, a).value.0.Begin?
    ensures
      var (b, bytes) := Accepted(env, g, es, a).value;
      var h := HandleFinish(env, Run(env, g, es), a, io).guest;
      && env.hash(bytes) == b.checksum && SlotOf(h, a).None?
      && (if a.Image? then h.loaded == Run(env, g, es).loaded + [bytes]
          else DestPath(b) in h.files && h.files[DestPath(b)] == bytes && TmpPath(b) !in h.files)
  {
    SlotIsFaithful(env, g, es, a);
    RunKeepsGood(env, g, es);
    assert Accepted(env, g, es, a).value.0.action == a;
    if a.Binary? {
      TmpIsNotOwnDest(Accepted(env, g, es, a).value.0.app, Accepted(env, g, es, a).value.0.file);
    }
  }

  /** The byte count reported after a chunk is the number of bytes accepted since the begin. */
  lemma ReportedBytes(env: Env, g: Guest, es: seq<Event>, a: Action, payload: Bytes, io: Io)
    requires Good(g) && SlotOf(g, a).None?
    requires HandleData(Run(env, g, es), a, Some(payload), io).reply.Ok?
    ensures Accepted(env, g, es, a).Some?
    ensures HandleData(Run(env, g, es), a, Some(payload), io).reply.received
         == |Accepted(env, g, es, a).value.1| + |payload|
  {
    SlotIsFaithful(env, g, es, a);
    RunKeepsGood(env, g, es);
  }

  // ---------------------------------------------------------------- until then the destination is left alone

  // The finish got past the checksum, so that update-init starts to swap.
  predicate ReachesCommit(env: Env, g: Guest, a: Action, io: Io) {
    && SlotOf(g, a).Some? && io.close && io.read
    && env.hash(Content(g.files, SlotOf(g, a).value.tmp)) == SlotOf(g, a).value.checksum
  }

  // The only failures of update-init that change the installed binary: it was moved away and
  // could not be moved back, or there was none and a stale backup was put in its place.
  predicate LeavesWrongBinary(env: Env, g: Guest, io: Io) {
    && ReachesCommit(env, g, Update, io) && io.backup && !io.install
    && if CURRENT in g.files then !io.restore else OLD in g.files && !io.removeOld && io.restore
  }

  /** A failing update-init finish leaves goship-init as it was if and only if it is not one of
      the two failures named by LeavesWrongBinary. */
  lemma FailedUpdateKeepsBinary(env: Env, g: Guest, io: Io)
    requires Good(g) && HandleFinish(env, g, Update, io).reply.Error?
    ensures Lookup(HandleFinish(env, g, Update, io).guest.files, CURRENT) == Lookup(g.files, CURRENT)
       <==> !LeavesWrongBinary(env, g, io)
  {
  }

  // The commands after an accepted begin: no further begin of the action is accepted, no finish
  // succeeds, and no finish is one of the failures above.
  predicate Unfinished(env: Env, g: Guest, es: seq<Event>, a: Action) {
    es == [] ||
    (&& Unfinished(env, g, es[..|es| - 1], a)
     && var (h, ev) := (Run(env, g, es[..|es| - 1]), es[|es| - 1]);
        ev.cmd.action == a ==>
          && !(ev.cmd.Begin? && LastReply(env, g, es).Ok?)
          && !(ev.cmd.Finish? && LastReply(env, g, es).Ok?)
          && !(ev.cmd.Finish? && a.Update? && LeavesWrongBinary(env, h, ev.io)))
  }

  ghost predicate NoOtherTarget(g: Guest, a: Action, tmp: string, dest: string) {
    SlotOf(g, a).Some? ==> SlotOf(g, a).value.tmp == tmp && SlotOf(g, a).value.dest == dest
  }

  lemma UnfinishedStep(env: Env, g: Guest, ev: Event, a: Action, tmp: string, dest: string)
    requires Good(g) && ev.cmd.action == a && !a.Image? && NoOtherTarget(g, a, tmp, dest) && tmp != dest
    requires a.Update? ==> dest == CURRENT
    requires !(ev.cmd.Begin? && Handle(env, g, ev).reply.Ok?) && !(ev.cmd.Finish? && Handle(env, g, ev).reply.Ok?)
    requires !(ev.cmd.Finish? && a.Update? && LeavesWrongBinary(env, g, ev.io))
    ensures NoOtherTarget(Handle(env, g, ev).guest, a, tmp, dest)
    ensures Lookup(Handle(env, g, ev).guest.files, dest) == Lookup(g.files, dest)
  {
    if a.Update? && ev.cmd.Finish? {
      FailedUpdateKeepsBinary(env, g, ev.io);
    }
  }

  /** From an accepted begin on, and until its finish succeeds, its destination does not change,
      whatever else arrives and fails. */
  lemma {:induction false} DestinationUntouched(env: Env, g: Guest, b: Command, io: Io, es: seq<Event>)
    requires Good(g) && b.Begin? && !b.action.Image? && HandleBegin(g, b, io).reply.Ok?
    requires Unfinished(env, HandleBegin(g, b, io).guest, es, b.action)
    ensures
      var h := Run(env, HandleBegin(g, b, io).guest, es);
      && NoOtherTarget(h, b.action, TmpPath(b), DestPath(b))
      && Lookup(h.files, DestPath(b)) == Lookup(HandleBegin(g, b, io).guest.files, DestPath(b))
  {
    var g0 := HandleBegin(g, b, io).guest;
    HandleKeepsGood(env, g, Event(b, io));
    TmpIsNotOwnDest(b.app, b.file);
    BinaryPathsOwned(b.app, b.file);
    if es != [] {
      var init, ev := es[..|es| - 1], es[|es| - 1];
      DestinationUntouched(env, g, b, io, init);
      RunKeepsGood(env, g0, init);
      if ev.cmd.action == b.action {
        UnfinishedStep(env, Run(env, g0, init), ev, b.action, TmpPath(b), DestPath(b));
      } else {
        OthersInvisible(env, Run(env, g0, init), ev, b.action);
        assert Owned(b.action, DestPath(b));
      }
    }
  }

  /** A begin that is refused leaves a running transfer alone if and only if validation refused it;
      one that fails later has already cancelled it. */
  lemma RefusedBegin(g: Guest, b: Command, io: Io)
    requires b.Begin? && SlotOf(g, b.action).Some? && HandleBegin(g, b, io).reply.Error?
    ensures HandleBegin(g, b, io).guest == g <==> !Acceptable(b)
    ensures Acceptable(b) ==> SlotOf(HandleBegin(g, b, io).guest, b.action).None?
  {
  }

  /** With no upload running, an accepted begin of an upload of x changes an installed file that is
      not empty if and only if the file is called x.new and belongs to the same app. */
  lemma TempFileCollision(g: Guest, b: Command, io: Io, app: string, installed: string)
    requires b.Begin? && b.action.Binary? && HandleBegin(g, b, io).reply.Ok? && ValidComponent(app)
    requires BinaryDest(app, installed) in g.files && g.files[BinaryDest(app, installed)] != []
    requires SlotOf(g, Binary).None?
    ensures Lookup(HandleBegin(g, b, io).guest.files, BinaryDest(app, installed)) != Lookup(g.files, BinaryDest(app, installed))
       <==> b.app == app && installed == b.file + ".new"
  {
    TmpMeetsDest(b.app, b.file, app, installed);
  }

  // ---------------------------------------------------------------- which installed files change

  // Command i is an accepted begin of an upload of this file, or of one whose temp file has its name.
  predicate Touches(env: Env, g: Guest, es: seq<Event>, i: nat, app: string, file: string) {
    && i < |es| && es[i].cmd.Begin? && es[i].cmd.action.Binary? && LastReply(env, g, es[..i + 1]).Ok?
    && es[i].cmd.app == app && (file == es[i].cmd.file || file == es[i].cmd.file + ".new")
  }

  lemma ChangeNeedsSlot(env: Env, g: Guest, ev: Event, p: string)
    requires Good(g) && ev.cmd.action.Binary?
    requires Lookup(Handle(env, g, ev).guest.files, p) != Lookup(g.files, p)
    ensures
      || (SlotOf(g, Binary).Some? && (p == SlotOf(g, Binary).value.tmp || p == SlotOf(g, Binary).value.dest))
      || (ev.cmd.Begin? && Handle(env, g, ev).reply.Ok? && p == TmpPath(ev.cmd))
  {
  }

  // What has been accepted was accepted from some command.
  lemma {:induction false} AcceptedFrom(env: Env, g: Guest, es: seq<Event>, a: Action) returns (i: nat)
    requires Accepted(env, g, es, a).Some?
    ensures i < |es| && es[i].cmd == Accepted(env, g, es, a).value.0 && es[i].cmd.Begin? && es[i].cmd.action == a
    ensures LastReply(env, g, es[..i + 1]).Ok?
  {
    var n := |es| - 1;
    if es[n].cmd.action == a && LastReply(env, g, es).Ok? && es[n].cmd.Begin? {
      i := n;
      assert es[..n + 1] == es;
    } else {
      i := AcceptedFrom(env, g, es[..n], a);
      assert es[..n][..i + 1] == es[..i + 1];
    }
  }

  // A begin whose temp file or destination is this installed file.
  lemma TouchesByPath(env: Env, g: Guest, es: seq<Event>, i: nat, app: string, file: string)
    requires i < |es| && es[i].cmd.Begin? && es[i].cmd.action.Binary? && LastReply(env, g, es[..i + 1]).Ok?
    requires ValidComponent(app)
    requires BinaryDest(app, file) == TmpPath(es[i].cmd) || BinaryDest(app, file) == DestPath(es[i].cmd)
    ensures Touches(env, g, es, i, app, file)
  {
    var b := es[i].cmd;
    assert es[..i + 1][i] == es[i];
    assert Acceptable(b);
    if BinaryDest(app, file) == DestPath(b) {
      DestInjective(app, file, b.app, b.file);
    } else {
      TmpMeetsDest(b.app, b.file, app, file);
    }
  }

  lemma TouchesEarlier(env: Env, g: Guest, es: seq<Event>, n: nat, i: nat, app: string, file: string)
    requires n <= |es| && Touches(env, g, es[..n], i, app, file)
    ensures Touches(env, g, es, i, app, file)
  {
    assert es[..n][..i + 1] == es[..i + 1];
  }

  // The last command changes the file: it, or the begin whose transfer is running, touches it.
  lemma LastTouches(env: Env, g: Guest, es: seq<Event>, app: string, file: string) returns (i: nat)
    requires Good(g) && SlotOf(g, Binary).None? && ValidComponent(app) && es != [] && es[|es| - 1].cmd.action.Binary?
    requires Lookup(Run(env, g, es).files, BinaryDest(app, file)) != Lookup(Run(env, g, es[..|es| - 1]).files, BinaryDest(app, file))
    ensures Touches(env, g, es, i, app, file)
  {
    var n := |es| - 1;
    var h := Run(env, g, es[..n]);
    RunKeepsGood(env, g, es[..n]);
    ChangeNeedsSlot(env, h, es[n], BinaryDest(app, file));
    if es[n].cmd.Begin? && Handle(env, h, es[n]).reply.Ok? && BinaryDest(app, file) == TmpPath(es[n].cmd) {
      i := n;
      assert es[..n + 1] == es;
      TouchesByPath(env, g, es, n, app, file);
    } else {
      SlotIsFaithful(env, g, es[..n], Binary);
      i := AcceptedFrom(env, g, es[..n], Binary);
      TouchesByPath(env, g, es[..n], i, app, file);
      TouchesEarlier(env, g, es, n, i, app, file);
    }
  }

  /** Whatever commands arrive and whatever fails, an installed file changes only if it is the
      destination of an accepted begin, or is called like one with ".new" appended in the same app. */
  lemma {:induction false} OnlyTargetsChange(env: Env, g: Guest, es: seq<Event>, app: string, file: string)
    requires Good(g) && SlotOf(g, Binary).None? && ValidComponent(app)
    requires Lookup(Run(env, g, es).files, BinaryDest(app, file)) != Lookup(g.files, BinaryDest(app, file))
    ensures exists i :: Touches(env, g, es, i, app, file)
  {
    var n := |es| - 1;
    var p := BinaryDest(app, file);
    if Lookup(Run(env, g, es[..n]).files, p) != Lookup(g.files, p) {
      OnlyTargetsChange(env, g, es[..n], app, file);
      var i :| Touches(env, g, es[..n], i, app, file);
      TouchesEarlier(env, g, es, n, i, app, file);
    } else {
      RunKeepsGood(env, g, es[..n]);
      BinaryPathsOwned(app, file);
      if es[n].cmd.action != Binary {
        HandleOnlyOwn(env, Run(env, g, es[..n]), es[n]);
        OwnersDisjoint(Binary, es[n].cmd.action, p);
      }
      var i := LastTouches(env, g, es, app, file);
    }
  }

  // ---------------------------------------------------------------- the swap is safe at every point

  lemma SwapStatesSafe(files: Files, io: Io, i: nat)
    requires CURRENT in files && NEW in files && i < |SwapStates(files, io)|
    ensures
      var f := SwapStates(files, io)[i];
      && (Lookup(f, CURRENT) == Some(files[CURRENT]) || Lookup(f, OLD) == Some(files[CURRENT]))
      && (Lookup(f, CURRENT) in {None, Some(files[CURRENT]), Some(files[NEW])})
  {
  }

  /** When a finish gets to the swap after any commands, with a goship-init in place, then after every
      file operation, whichever of them fail, the old binary is at goship-init or goship-init.old,
      and goship-init is absent, the old binary, or exactly the bytes accepted since the last accepted
      begin, whose hash is the checksum of that begin. */
  lemma SwapIsCrashSafe(env: Env, g: Guest, es: seq<Event>, io: Io, i: nat)
    requires Good(g) && SlotOf(g, Update).None?
    requires ReachesCommit(env, Run(env, g, es), Update, io) && CURRENT in Run(env, g, es).files
    requires i < |SwapStates(Run(env, g, es).files, io)|
    ensures Accepted(env, g, es, Update).Some? && Accepted(env, g, es, Update).value.0.Begin?
    ensures
      var (b, bytes) := Accepted(env, g, es, Update).value;
      var was, f := Run(env, g, es).files[CURRENT], SwapStates(Run(env, g, es).files, io)[i];
      && env.hash(bytes) == b.checksum
      && (Lookup(f, CURRENT) == Some(was) || Lookup(f, OLD) == Some(was))
      && (Lookup(f, CURRENT) in {None, Some(was), Some(bytes)})
  {
    SlotIsFaithful(env, g, es, Update);
    RunKeepsGood(env, g, es);
    SwapStatesSafe(Run(env, g, es).files, io, i);
  }

  /** Without a goship-init at the start, one failure pattern brings a stale backup back. */
  lemma StaleBackupReturns(files: Files, io: Io)
    requires CURRENT !in files && NEW in files
    ensures
      var f := SwapStates(files, io)[|SwapStates(files, io)| - 1];
      CURRENT in f && !(io.backup && io.install)
      <==> OLD in files && !io.removeOld && io.backup && !io.install && io.restore
  {
  }

  /** update-init answers Ok only with the new binary in place and the replaced one as backup. */
  lemma UpdateSwaps(env: Env, g: Guest, io: Io)
    requires Good(g) && HandleFinish(env, g, Update, io).reply.Ok?
    ensures
      var h := HandleFinish(env, g, Update, io).guest;
      && Lookup(h.files, CURRENT) == Lookup(g.files, NEW) && NEW !in h.files
      && (CURRENT in g.files ==> Lookup(h.files, OLD) == Lookup(g.files, CURRENT))
  {
  }

  // ---------------------------------------------------------------- runs in which a guarantee fails

  const SMOOTH := Io(true, true, None, true, true, true, true, true, true, true, true, true)

  // An agent with nothing but these files.
  function Idle(files: Files): Guest {
    Guest(files, None, None, None, [])
  }

  // An update with an empty binary; SHA-256 in hex is never the empty string.
  function BeginUpdate(env: Env): Event {
    Event(Begin(Update, "", "", "", 1, env.hash([])), SMOOTH)
  }

  // The finish of an update fails after the backup.
  function FailInstall(removeOld: bool, restore: bool): Event {
    Event(Finish(Update), SMOOTH.(removeOld := removeOld, install := false, restore := restore))
  }

  lemma UpdateBegins(env: Env, files: Files)
    requires env.hash([]) != ""
    ensures
      var o := Handle(env, Idle(files), BeginUpdate(env));
      && o.reply == Ok(0)
      && o.guest == Idle(files[NEW := []]).(update := Some(Slot(NEW, CURRENT, "", 1, env.hash([]), 0)))
  {
  }

  lemma InstallFails(env: Env, files: Files, removeOld: bool, restore: bool)
    requires env.hash([]) != ""
    ensures
      var g := Handle(env, Idle(files), BeginUpdate(env)).guest;
      var o := Handle(env, g, FailInstall(removeOld, restore));
      && o.reply == Error && SlotOf(o.guest, Update).None? && o.guest == Idle(o.guest.files)
      && (CURRENT in files ==> Lookup(o.guest.files, OLD) == if restore then None else Some(files[CURRENT]))
      && Lookup(o.guest.files, CURRENT) ==
           if CURRENT in files then (if restore then Some(files[CURRENT]) else None)
           else if restore && !removeOld then Lookup(files, OLD) else None
  {
    UpdateBegins(env, files);
  }

  lemma RunOfTwo(env: Env, g: Guest, e: Event, f: Event)
    ensures Run(env, g, [e, f]) == Handle(env, Handle(env, g, e).guest, f).guest
    ensures LastReply(env, g, [e, f]) == Handle(env, Handle(env, g, e).guest, f).reply
  {
    assert [e, f][..1] == [e] && [e][..0] == [];
    assert Run(env, g, [e]) == Handle(env, g, e).guest;
  }

  /** A run that ends without goship-init: the backup is made, then neither the new binary nor the
      backup can be put in place. */
  lemma UpdateLosesBinary(env: Env, binary: Bytes)
    requires env.hash([]) != ""
    ensures
      var (g, es) := (Idle(map[CURRENT := binary]), [BeginUpdate(env), FailInstall(true, false)]);
      LastReply(env, g, es) == Error && CURRENT !in Run(env, g, es).files
  {
    RunOfTwo(env, Idle(map[CURRENT := binary]), BeginUpdate(env), FailInstall(true, false));
    InstallFails(env, map[CURRENT := binary], true, false);
  }

  /** The same again, now with a backup that cannot be removed: the second failing finish finds no
      goship-init and puts the stale backup in its place. */
  lemma StaleBackupAppears(env: Env, binary: Bytes)
    requires env.hash([]) != ""
    ensures
      var (g, es) := (Idle(map[CURRENT := binary]), [BeginUpdate(env), FailInstall(true, false)]);
      var again := [BeginUpdate(env), FailInstall(false, true)];
      && CURRENT !in Run(env, g, es).files
      && LastReply(env, g, es + again) == Error
      && Lookup(Run(env, g, es + again).files, CURRENT) == Some(binary)
  {
    var g, es := Idle(map[CURRENT := binary]), [BeginUpdate(env), FailInstall(true, false)];
    var again := [BeginUpdate(env), FailInstall(false, true)];
    UpdateLosesBinary(env, binary);
    RunOfTwo(env, g, BeginUpdate(env), FailInstall(true, false));
    InstallFails(env, map[CURRENT := binary], true, false);
    var h := Run(env, g, es);
    RunAppend(env, g, es, again);
    assert (es + again)[..3] == es + [BeginUpdate(env)] && (es + again)[3] == again[1];
    RunSnoc(env, g, es, BeginUpdate(env));
    RunOfTwo(env, h, BeginUpdate(env), FailInstall(false, true));
    InstallFails(env, h.files, false, true);
  }

  // An upload of an empty file for app "a".
  function BeginUpload(env: Env, file: string, open: bool): Event {
    Event(Begin(Binary, "a", file, "", 1, env.hash([])), SMOOTH.(open := open))
  }

  /** A run in which the begin of an upload of x empties the installed file x.new of the same app. */
  lemma UploadEmptiesNamesake(env: Env, binary: Bytes)
    requires env.hash([]) != "" && binary != []
    ensures
      var g := Idle(map[BinaryDest("a", "x.new") := binary]);
      && LastReply(env, g, [BeginUpload(env, "x", true)]) == Ok(0)
      && Lookup(Run(env, g, [BeginUpload(env, "x", true)]).files, BinaryDest("a", "x.new")) == Some([])
  {
    var g := Idle(map[BinaryDest("a", "x.new") := binary]);
    assert [BeginUpload(env, "x", true)][..0] == [];
    assert "x" + ".new" == "x.new";
  }

  /** A run in which a begin that is refused for a failing open ends the transfer that was running. */
  lemma FailedBeginCancels(env: Env)
    requires env.hash([]) != ""
    ensures
      var es := [BeginUpload(env, "x", true), BeginUpload(env, "x", false)];
      && LastReply(env, Idle(map[]), es) == Error
      && SlotOf(Handle(env, Idle(map[]), es[0]).guest, Binary).Some?
      && SlotOf(Run(env, Idle(map[]), es), Binary).None?
  {
    RunOfTwo(env, Idle(map[]), BeginUpload(env, "x", true), BeginUpload(env, "x", false));
  }
}
