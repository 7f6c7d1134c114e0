/** The guest side of the chunked transfers as a function of the guest state, the command and
    what each file operation does. The three slots live over one file system. */
module Transfer {
  import opened Options
  import opened Paths

  type Byte = b: int | 0 <= b < 256
  type Bytes = seq<Byte>
  type Files = map<string, Bytes>

  // The phase strings "begin", "data", "finish" and anything else; a payload that is not valid
  // base64 is None.
  datatype Command =
    | Begin(action: Action, app: string, file: string, image: string, size: int, checksum: string)
    | Data(action: Action, payload: Option<Bytes>)
    | Finish(action: Action)
    | Unknown(action: Action)

  // Which file operations succeed while one command is handled. A failing write has written the
  // given number of bytes. `backup` and `install` are the two renames of a finish.
  datatype Io = Io(mkdir: bool, open: bool, write: Option<nat>, close: bool, read: bool, remove: bool,
                   removeOld: bool, backup: bool, install: bool, restore: bool, openImage: bool, load: bool)

  datatype Event = Event(cmd: Command, io: Io)

  // updateState, uploadState and imageUploadState in one: the size is kept and never read again.
  datatype Slot = Slot(tmp: string, dest: string, image: string, size: int, checksum: string, received: nat)

  datatype Guest = Guest(files: Files, update: Option<Slot>, upload: Option<Slot>, imageUpload: Option<Slot>,
                         loaded: seq<Bytes>)

  datatype Reply = Ok(received: nat) | Error

  datatype Outcome = Outcome(guest: Guest, reply: Reply)

  // The hash is SHA-256 in hex; whether Docker answered at start-up is fixed.
  datatype Env = Env(hash: Bytes -> string, docker: bool)

  function SlotOf(g: Guest, a: Action): Option<Slot> {
    match a
    case Update => g.update
    case Binary => g.upload
    case Image => g.imageUpload
  }

  function PutSlot(g: Guest, a: Action, s: Option<Slot>): Guest {
    match a
    case Update => g.(update := s)
    case Binary => g.(upload := s)
    case Image => g.(imageUpload := s)
  }

  function TmpPath(b: Command): string
    requires b.Begin?
  {
    match b.action
    case Update => NEW
    case Binary => BinaryTmp(b.app, b.file)
    case Image => IMAGE_TMP
  }

  // Where a finish puts the file; an image goes to Docker instead.
  function DestPath(b: Command): string
    requires b.Begin?
  {
    match b.action
    case Update => CURRENT
    case Binary => BinaryDest(b.app, b.file)
    case Image => ""
  }

  function Content(files: Files, path: string): Bytes {
    if path in files then files[path] else []
  }

  function Remove(files: Files, path: string, ok: bool): Files {
    if ok then files - {path} else files
  }

  function Rename(files: Files, from: string, to: string): Files {
    (files - {from})[to := Content(files, from)]
  }

  predicate Acceptable(b: Command)
    requires b.Begin?
  {
    && (b.action.Binary? ==> ValidComponent(b.app) && ValidComponent(b.file))
    && (b.action.Image? ==> b.image != "")
    && b.size > 0
    && b.checksum != ""
  }

  // Close and remove the temp file of a running transfer and forget it.
  function Cancel(g: Guest, a: Action, io: Io): Guest {
    match SlotOf(g, a)
    case None => g
    case Some(s) => PutSlot(g.(files := Remove(g.files, s.tmp, io.remove)), a, None)
  }

  function HandleBegin(g: Guest, b: Command, io: Io): Outcome
    requires b.Begin?
  {
    if !Acceptable(b) then Outcome(g, Error) else
    var g1 := Cancel(g, b.action, io);
    if (!b.action.Image? && !io.mkdir) || !io.open then Outcome(g1, Error) else
    Outcome(PutSlot(g1.(files := g1.files[TmpPath(b) := []]), b.action,
                    Some(Slot(TmpPath(b), DestPath(b), b.image, b.size, b.checksum, 0))),
            Ok(0))
  }

  function HandleData(g: Guest, a: Action, payload: Option<Bytes>, io: Io): Outcome {
    match SlotOf(g, a)
    case None => Outcome(g, Error)
    case Some(s) =>
      match payload
      case None => Outcome(Cancel(g, a, io), Error)
      case Some(bytes) =>
        match io.write
        case Some(n) =>
          var part := bytes[..if n <= |bytes| then n else |bytes|];
          Outcome(Cancel(g.(files := g.files[s.tmp := Content(g.files, s.tmp) + part]), a, io), Error)
        case None =>
          Outcome(PutSlot(g.(files := g.files[s.tmp := Content(g.files, s.tmp) + bytes]), a,
                          Some(s.(received := s.received + |bytes|))),
                  Ok(s.received + |bytes|))
  }

  // The file system after each operation of the update-init swap, first and last included.
  function SwapStates(files: Files, io: Io): (states: seq<Files>)
    ensures |states| > 0
  {
    var f1 := Remove(files, OLD, io.removeOld);
    if !io.backup then [files, f1, Remove(f1, NEW, io.remove)] else
    var f2 := if CURRENT in f1 then Rename(f1, CURRENT, OLD) else f1;
    if io.install then [files, f1, f2, Rename(f2, NEW, CURRENT)] else
    [files, f1, f2, if OLD in f2 && io.restore then Rename(f2, OLD, CURRENT) else f2]
  }

  // What follows a matching checksum.
  function Commit(env: Env, g: Guest, a: Action, s: Slot, io: Io): Outcome {
    var idle := PutSlot(g, a, None);
    match a
    case Update =>
      var states := SwapStates(g.files, io);
      Outcome(idle.(files := states[|states| - 1]), if io.backup && io.install then Ok(0) else Error)
    case Binary =>
      if io.install then Outcome(idle.(files := Rename(g.files, s.tmp, s.dest)), Ok(0))
      else Outcome(idle.(files := Remove(g.files, s.tmp, io.remove)), Error)
    case Image =>
      var gone := idle.(files := Remove(g.files, s.tmp, io.remove));
      if env.docker && io.openImage && io.load then
        Outcome(gone.(loaded := g.loaded + [Content(g.files, s.tmp)]), Ok(0))
      else Outcome(gone, Error)
  }

  function HandleFinish(env: Env, g: Guest, a: Action, io: Io): Outcome {
    match SlotOf(g, a)
    case None => Outcome(g, Error)
    case Some(s) =>
      if io.close && io.read && env.hash(Content(g.files, s.tmp)) == s.checksum then Commit(env, g, a, s, io)
      else Outcome(PutSlot(g.(files := Remove(g.files, s.tmp, io.remove)), a, None), Error)
  }

  function Handle(env: Env, g: Guest, ev: Event): Outcome {
    match ev.cmd
    case Begin(_, _, _, _, _, _) => HandleBegin(g, ev.cmd, ev.io)
    case Data(a, payload) => HandleData(g, a, payload, ev.io)
    case Finish(a) => HandleFinish(env, g, a, ev.io)
    case Unknown(_) => Outcome(g, Error)
  }

  // ---------------------------------------------------------------- runs

  function Run(env: Env, g: Guest, es: seq<Event>): Guest {
    if es == [] then g else Handle(env, Run(env, g, es[..|es| - 1]), es[|es| - 1]).guest
  }

  function LastReply(env: Env, g: Guest, es: seq<Event>): Reply
    requires es != []
  {
    Handle(env, Run(env, g, es[..|es| - 1]), es[|es| - 1]).reply
  }

  lemma RunSnoc(env: Env, g: Guest, es: seq<Event>, ev: Event)
    ensures Run(env, g, es + [ev]) == Handle(env, Run(env, g, es), ev).guest
    ensures LastReply(env, g, es + [ev]) == Handle(env, Run(env, g, es), ev).reply
  {
    assert (es + [ev])[..|es|] == es;
  }

  lemma {:induction false} RunAppend(env: Env, g: Guest, es: seq<Event>, fs: seq<Event>)
    ensures Run(env, g, es + fs) == Run(env, Run(env, g, es), fs)
  {
    if fs == [] {
      assert es + fs == es;
    } else {
      assert (es + fs)[..|es + fs| - 1] == es + fs[..|fs| - 1];
      RunAppend(env, g, es, fs[..|fs| - 1]);
    }
  }

  // ---------------------------------------------------------------- the invariant

  // A running transfer has its temp file, of the length it reports, in its own part of the tree.
  ghost predicate SlotGood(g: Guest, a: Action) {
    match SlotOf(g, a)
    case None => true
    case Some(s) =>
      && s.tmp in g.files && |g.files[s.tmp]| == s.received
      && s.tmp != s.dest && Owned(a, s.tmp)
      && match a
         case Update => s.tmp == NEW && s.dest == CURRENT
         case Binary => Owned(a, s.dest)
         case Image => true
  }

  ghost predicate Good(g: Guest) {
    SlotGood(g, Update) && SlotGood(g, Binary) && SlotGood(g, Image)
  }

  // Nothing outside the action's own paths, slot and Docker images changes.
  ghost predicate OnlyOwn(g: Guest, h: Guest, a: Action) {
    && (forall b :: b != a ==> SlotOf(h, b) == SlotOf(g, b))
    && (!a.Image? ==> h.loaded == g.loaded)
    && (forall p :: !Owned(a, p) ==> (p in h.files <==> p in g.files) && (p in g.files ==> h.files[p] == g.files[p]))
  }

  lemma OnlyOwnTwice(g: Guest, h: Guest, k: Guest, a: Action)
    requires OnlyOwn(g, h, a) && OnlyOwn(h, k, a)
    ensures OnlyOwn(g, k, a)
  {
  }

  lemma CancelOnlyOwn(g: Guest, a: Action, io: Io)
    requires SlotGood(g, a)
    ensures OnlyOwn(g, Cancel(g, a, io), a)
  {
  }

  // A write to a path of the action's own, with a new slot.
  lemma WriteOnlyOwn(g: Guest, a: Action, path: string, bytes: Bytes, slot: Option<Slot>)
    requires Owned(a, path)
    ensures OnlyOwn(g, PutSlot(g.(files := g.files[path := bytes]), a, slot), a)
  {
  }

  lemma BeginOnlyOwn(g: Guest, b: Command, io: Io)
    requires Good(g) && b.Begin?
    ensures OnlyOwn(g, HandleBegin(g, b, io).guest, b.action)
  {
    BinaryPathsOwned(b.app, b.file);
    CancelOnlyOwn(g, b.action, io);
    var g1 := Cancel(g, b.action, io);
    var slot := Some(Slot(TmpPath(b), DestPath(b), b.image, b.size, b.checksum, 0));
    WriteOnlyOwn(g1, b.action, TmpPath(b), [], slot);
    OnlyOwnTwice(g, g1, PutSlot(g1.(files := g1.files[TmpPath(b) := []]), b.action, slot), b.action);
  }

  // A chunk that cannot be written whole is written in part, and the transfer is over.
  lemma PartOnlyOwn(g: Guest, a: Action, s: Slot, bytes: Bytes, io: Io)
    requires SlotGood(g, a) && SlotOf(g, a) == Some(s)
    ensures OnlyOwn(g, Cancel(g.(files := g.files[s.tmp := bytes]), a, io), a)
  {
  }

  lemma DataOnlyOwn(g: Guest, a: Action, payload: Option<Bytes>, io: Io)
    requires Good(g)
    ensures OnlyOwn(g, HandleData(g, a, payload, io).guest, a)
  {
    if SlotOf(g, a).Some? {
      var s := SlotOf(g, a).value;
      if payload.None? {
        CancelOnlyOwn(g, a, io);
      } else if io.write.Some? {
        var n := if io.write.value <= |payload.value| then io.write.value else |payload.value|;
        PartOnlyOwn(g, a, s, Content(g.files, s.tmp) + payload.value[..n], io);
      } else {
        WriteOnlyOwn(g, a, s.tmp, Content(g.files, s.tmp) + payload.value,
                     Some(s.(received := s.received + |payload.value|)));
      }
    }
  }

  lemma FinishOnlyOwn(env: Env, g: Guest, a: Action, io: Io)
    requires Good(g)
    ensures OnlyOwn(g, HandleFinish(env, g, a, io).guest, a)
  {
  }

  lemma HandleOnlyOwn(env: Env, g: Guest, ev: Event)
    requires Good(g)
    ensures OnlyOwn(g, Handle(env, g, ev).guest, ev.cmd.action)
  {
    match ev.cmd
    case Begin(_, _, _, _, _, _) => BeginOnlyOwn(g, ev.cmd, ev.io);
    case Data(a, payload) => DataOnlyOwn(g, a, payload, ev.io);
    case Finish(a) => FinishOnlyOwn(env, g, a, ev.io);
    case Unknown(_) =>
  }

  lemma HandleKeepsOwnSlot(env: Env, g: Guest, ev: Event)
    requires Good(g)
    ensures SlotGood(Handle(env, g, ev).guest, ev.cmd.action)
  {
    if ev.cmd.Begin? {
      BinaryPathsOwned(ev.cmd.app, ev.cmd.file);
      TmpIsNotOwnDest(ev.cmd.app, ev.cmd.file);
    }
  }

  lemma HandleKeepsGood(env: Env, g: Guest, ev: Event)
    requires Good(g)
    ensures Good(Handle(env, g, ev).guest)
  {
    HandleOnlyOwn(env, g, ev);
    HandleKeepsOwnSlot(env, g, ev);
    forall a: Action | a != ev.cmd.action ensures SlotGood(Handle(env, g, ev).guest, a) {
      if SlotOf(g, a).Some? {
        OwnersDisjoint(a, ev.cmd.action, SlotOf(g, a).value.tmp);
      }
    }
  }

  lemma {:induction false} RunKeepsGood(env: Env, g: Guest, es: seq<Event>)
    requires Good(g)
    ensures Good(Run(env, g, es))
  {
    if es != [] {
      RunKeepsGood(env, g, es[..|es| - 1]);
      HandleKeepsGood(env, Run(env, g, es[..|es| - 1]), es[|es| - 1]);
    }
  }
}
