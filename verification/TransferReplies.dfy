/** Which transfer commands are answered Ok, and what ends a transfer, read off the commands, the
    replies and the file operations alone. */
module TransferReplies {
  import opened Options
  import opened Paths
  import opened Transfer
  import opened TransferProperties

  // ---------------------------------------------------------------- names and paths

  // What a begin must say.
  predicate WellFormed(b: Command)
    requires b.Begin?
  {
    && b.size > 0 && b.checksum != ""
    && (b.action == Binary ==> SingleComponent(b.app) && SingleComponent(b.file))
    && (b.action == Image ==> b.image != "")
  }

  /** Where the parts of a transfer are: an update next to the agent's own binary, an upload in the
      directory of its app, and an image in one place under /tmp. */
  lemma PathsOf(b: Command)
    requires b.Begin?
    ensures b.action == Update ==>
      TmpPath(b) == "/opt/goship/goship-init.new" && DestPath(b) == "/opt/goship/goship-init"
    ensures b.action == Binary ==>
      && DestPath(b) == "/opt/goship/binaries/" + b.app + "/" + b.file
      && TmpPath(b) == DestPath(b) + ".new"
    ensures b.action == Image ==> TmpPath(b) == "/tmp/goship-image-upload.tar.gz"
  {
  }

  // ---------------------------------------------------------------- transfers in progress

  predicate IsOf(es: seq<Event>, i: nat, a: Action) {
    i < |es| && es[i].cmd.action == a
  }

  // Command i is an accepted begin of the action.
  predicate Starts(env: Env, g: Guest, es: seq<Event>, i: nat, a: Action) {
    IsOf(es, i, a) && es[i].cmd.Begin? && LastReply(env, g, es[..i + 1]).Ok?
  }

  // Command i ends whatever transfer of the action was running: it is a finish, a data command that
  // failed, or a well-formed begin that failed.
  predicate Ends(env: Env, g: Guest, es: seq<Event>, i: nat, a: Action) {
    && IsOf(es, i, a)
    && match es[i].cmd
       case Finish(_) => true
       case Data(_, _) => LastReply(env, g, es[..i + 1]).Error?
       case Begin(_, _, _, _, _, _) => WellFormed(es[i].cmd) && LastReply(env, g, es[..i + 1]).Error?
       case Unknown(_) => false
  }

  // The begin at i was accepted and nothing has ended its transfer since.
  predicate RunsSince(env: Env, g: Guest, es: seq<Event>, i: nat, a: Action) {
    Starts(env, g, es, i, a) && forall j :: i < j < |es| ==> !Ends(env, g, es, j, a)
  }

  // The last accepted begin is later than the last command that ended a transfer.
  predicate InProgress(env: Env, g: Guest, es: seq<Event>, a: Action) {
    exists i :: 0 <= i < |es| && RunsSince(env, g, es, i, a)
  }

  lemma EarlierAlike(env: Env, g: Guest, es: seq<Event>, n: nat, i: nat, a: Action)
    requires i < n <= |es|
    ensures Starts(env, g, es[..n], i, a) == Starts(env, g, es, i, a)
    ensures Ends(env, g, es[..n], i, a) == Ends(env, g, es, i, a)
  {
    assert es[..n][..i + 1] == es[..i + 1];
  }

  // How one more command changes what is in progress.
  lemma ProgressStep(env: Env, g: Guest, es: seq<Event>, a: Action)
    requires es != []
    ensures
      var n := |es| - 1;
      InProgress(env, g, es, a) <==>
        Starts(env, g, es, n, a) || (InProgress(env, g, es[..n], a) && !Ends(env, g, es, n, a))
  {
    var n := |es| - 1;
    forall i | 0 <= i < n
      ensures RunsSince(env, g, es, i, a) <==> RunsSince(env, g, es[..n], i, a) && !Ends(env, g, es, n, a)
    {
      EarlierAlike(env, g, es, n, i, a);
      forall j | i < j < n ensures Ends(env, g, es[..n], j, a) == Ends(env, g, es, j, a) {
        EarlierAlike(env, g, es, n, j, a);
      }
    }
    assert Starts(env, g, es, n, a) ==> RunsSince(env, g, es, n, a);
  }

  // One command of the action and the slot.
  lemma SlotStep(env: Env, g: Guest, ev: Event)
    ensures
      var o, a := Handle(env, g, ev), ev.cmd.action;
      SlotOf(o.guest, a).Some? <==>
        match ev.cmd
        case Begin(_, _, _, _, _, _) => o.reply.Ok? || (SlotOf(g, a).Some? && !WellFormed(ev.cmd))
        case Data(_, _) => SlotOf(g, a).Some? && o.reply.Ok?
        case Finish(_) => false
        case Unknown(_) => SlotOf(g, a).Some?
  {
    if ev.cmd.Begin? {
      ComponentsAreValid(ev.cmd.app);
      ComponentsAreValid(ev.cmd.file);
    }
  }

  /** The guest holds a transfer of an action if and only if one is in progress: its last accepted
      begin is later than its last finish, failed data command and failed begin. */
  lemma {:induction false} SlotsAreInProgress(env: Env, g: Guest, es: seq<Event>, a: Action)
    requires Good(g) && SlotOf(g, a).None?
    ensures SlotOf(Run(env, g, es), a).Some? <==> InProgress(env, g, es, a)
  {
    if es != [] {
      var n := |es| - 1;
      SlotsAreInProgress(env, g, es[..n], a);
      RunKeepsGood(env, g, es[..n]);
      ProgressStep(env, g, es, a);
      assert es[..n + 1] == es;
      if es[n].cmd.action == a {
        SlotStep(env, Run(env, g, es[..n]), es[n]);
      } else {
        OthersInvisible(env, Run(env, g, es[..n]), es[n], a);
      }
    }
  }

  // ---------------------------------------------------------------- which commands are answered Ok

  /** A begin is accepted if and only if it is well-formed and its file can be opened. */
  lemma BeginAnswers(env: Env, g: Guest, es: seq<Event>, b: Command, io: Io)
    requires b.Begin?
    ensures
      var reply := LastReply(env, g, es + [Event(b, io)]);
      && (reply.Ok? <==> WellFormed(b) && io.open && (b.action == Image || io.mkdir))
      && (reply.Ok? ==> reply.received == 0)
  {
    RunSnoc(env, g, es, Event(b, io));
    ComponentsAreValid(b.app);
    ComponentsAreValid(b.file);
  }

  /** A chunk is accepted if and only if a transfer is in progress, the payload decodes and it is
      written. */
  lemma DataAnswers(env: Env, g: Guest, es: seq<Event>, a: Action, payload: Option<Bytes>, io: Io)
    requires Good(g) && SlotOf(g, a).None?
    ensures LastReply(env, g, es + [Event(Data(a, payload), io)]).Ok?
       <==> InProgress(env, g, es, a) && payload.Some? && io.write.None?
  {
    RunSnoc(env, g, es, Event(Data(a, payload), io));
    SlotsAreInProgress(env, g, es, a);
  }

  // The file of the running transfer can be closed and read and has the announced hash.
  predicate Verified(env: Env, acc: Option<(Command, Bytes)>, io: Io) {
    acc.Some? && acc.value.0.Begin? && io.close && io.read && env.hash(acc.value.1) == acc.value.0.checksum
  }

  // The file operations that put a verified file in its place.
  predicate Placed(env: Env, a: Action, io: Io) {
    match a
    case Update => io.backup && io.install
    case Binary => io.install
    case Image => env.docker && io.openImage && io.load
  }

  /** A finish is answered Ok if and only if a transfer is in progress, the bytes accepted since its
      begin have the hash it announced, and every file operation that matters succeeds. */
  lemma FinishAnswers(env: Env, g: Guest, es: seq<Event>, a: Action, io: Io)
    requires Good(g) && SlotOf(g, a).None?
    ensures LastReply(env, g, es + [Event(Finish(a), io)]).Ok?
       <==> InProgress(env, g, es, a) && Verified(env, Accepted(env, g, es, a), io) && Placed(env, a, io)
  {
    RunSnoc(env, g, es, Event(Finish(a), io));
    SlotsAreInProgress(env, g, es, a);
    SlotIsFaithful(env, g, es, a);
  }

  // ---------------------------------------------------------------- what a finish leaves behind

  // The temp file is still there after a finish: the final rename of an update failed, or the file
  // was to be removed and could not be.
  predicate TempStays(env: Env, acc: Option<(Command, Bytes)>, a: Action, io: Io, reply: Reply) {
    if a.Update? && Verified(env, acc, io) && io.backup then !io.install
    else !io.remove && (a.Image? || reply.Error?)
  }

  lemma FinishRemoves(env: Env, g: Guest, a: Action, s: Slot, io: Io)
    requires Good(g) && SlotOf(g, a) == Some(s)
    ensures
      var o := HandleFinish(env, g, a, io);
      s.tmp in o.guest.files <==>
        if a.Update? && io.close && io.read && env.hash(Content(g.files, s.tmp)) == s.checksum && io.backup then !io.install
        else !io.remove && (a.Image? || o.reply.Error?)
  {
  }

  /** After any finish no transfer is left, and the next chunk is refused. The temp file is gone if
      it could be removed, unless the final rename of an update failed. */
  lemma FinishEnds(env: Env, g: Guest, es: seq<Event>, a: Action, io: Io)
    requires Good(g) && SlotOf(g, a).None?
    ensures SlotOf(Run(env, g, es + [Event(Finish(a), io)]), a).None?
    ensures !InProgress(env, g, es + [Event(Finish(a), io)], a)
    ensures InProgress(env, g, es, a) ==>
      && Accepted(env, g, es, a).Some? && Accepted(env, g, es, a).value.0.Begin?
      && var fin := es + [Event(Finish(a), io)];
         (TmpPath(Accepted(env, g, es, a).value.0) in Run(env, g, fin).files <==>
            TempStays(env, Accepted(env, g, es, a), a, io, LastReply(env, g, fin)))
    ensures !InProgress(env, g, es, a) ==> Run(env, g, es + [Event(Finish(a), io)]) == Run(env, g, es)
  {
    RunSnoc(env, g, es, Event(Finish(a), io));
    SlotsAreInProgress(env, g, es, a);
    SlotsAreInProgress(env, g, es + [Event(Finish(a), io)], a);
    SlotIsFaithful(env, g, es, a);
    RunKeepsGood(env, g, es);
    if InProgress(env, g, es, a) {
      FinishRemoves(env, Run(env, g, es), a, SlotOf(Run(env, g, es), a).value, io);
    }
  }

  /** A chunk that fails ends the transfer. Its temp file is gone if it could be removed; if not, it
      holds what was accepted and as much of the chunk as was written. */
  lemma FailedChunkEnds(env: Env, g: Guest, es: seq<Event>, a: Action, payload: Option<Bytes>, io: Io)
    requires Good(g) && SlotOf(g, a).None? && InProgress(env, g, es, a)
    requires LastReply(env, g, es + [Event(Data(a, payload), io)]).Error?
    ensures Accepted(env, g, es, a).Some? && Accepted(env, g, es, a).value.0.Begin?
    ensures
      var h := Run(env, g, es + [Event(Data(a, payload), io)]);
      var (b, bytes) := Accepted(env, g, es, a).value;
      && SlotOf(h, a).None? && (TmpPath(b) in h.files <==> !io.remove)
      && (!io.remove ==> h.files[TmpPath(b)] == bytes + Written(payload, io.write))
  {
    RunSnoc(env, g, es, Event(Data(a, payload), io));
    SlotsAreInProgress(env, g, es, a);
    SlotIsFaithful(env, g, es, a);
  }

  // The bytes of a chunk that a write stopping after n bytes gets out.
  function Written(payload: Option<Bytes>, write: Option<nat>): Bytes {
    if payload.None? || write.None? then []
    else if write.value < |payload.value| then payload.value[..write.value]
    else payload.value
  }

  /** A well-formed begin removes the temp file of the transfer it replaces, if it can and unless the
      new transfer has the same one, and starts with an empty file if it is accepted. */
  lemma BeginReplaces(env: Env, g: Guest, es: seq<Event>, b: Command, io: Io)
    requires Good(g) && b.Begin? && SlotOf(g, b.action).None? && WellFormed(b)
    ensures
      var h := Run(env, g, es + [Event(b, io)]);
      && (LastReply(env, g, es + [Event(b, io)]).Ok? ==> TmpPath(b) in h.files && h.files[TmpPath(b)] == [])
      && (InProgress(env, g, es, b.action) ==>
            && Accepted(env, g, es, b.action).Some? && Accepted(env, g, es, b.action).value.0.Begin?
            && var former := TmpPath(Accepted(env, g, es, b.action).value.0);
               former in h.files <==> !io.remove || (LastReply(env, g, es + [Event(b, io)]).Ok? && former == TmpPath(b)))
  {
    RunSnoc(env, g, es, Event(b, io));
    ComponentsAreValid(b.app);
    ComponentsAreValid(b.file);
    SlotsAreInProgress(env, g, es, b.action);
    SlotIsFaithful(env, g, es, b.action);
  }

  /** A begin that is not well-formed, and a command with another phase, change nothing. */
  lemma RefusedChangesNothing(env: Env, g: Guest, ev: Event)
    requires ev.cmd.Unknown? || (ev.cmd.Begin? && !WellFormed(ev.cmd))
    ensures Handle(env, g, ev) == Outcome(g, Error)
  {
    if ev.cmd.Begin? {
      ComponentsAreValid(ev.cmd.app);
      ComponentsAreValid(ev.cmd.file);
    }
  }
}
