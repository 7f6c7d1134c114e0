/** The host side of a transfer: begin, one data command per read, finish. */
module Host {
  import opened Options
  import opened Paths
  import opened Transfer
  import opened TransferProperties

  // What one call of reader.Read returned.
  datatype ReadEnd = More | Eof | Broken
  datatype Read = Read(data: Bytes, end: ReadEnd)

  // What happens around one SendCommand: commands of other actions that the guest handles first,
  // how the file operations of the command itself go, and whether the exchange completes.
  datatype Fate = Delivered | RequestLost | ReplyLost
  datatype Exchange = Exchange(noise: seq<Event>, io: Io, fate: Fate)

  // The exchanges from one number up to another were answered.
  ghost predicate Answered(wire: nat -> Exchange, first: nat, end: nat) {
    forall j: nat :: first <= j < end ==> wire(j).fate.Delivered?
  }

  lemma AllAnswered(wire: nat -> Exchange, next: nat)
    requires wire(0).fate.Delivered? && Answered(wire, 1, next) && wire(next).fate.Delivered?
    ensures Answered(wire, 0, next + 1)
  {
  }

  // The bytes a reader delivers up to its first error or end of file.
  function Stream(results: seq<Read>): Bytes {
    if results == [] then [] else
    results[0].data + if results[0].end.More? then Stream(results[1..]) else []
  }

  // How many of those reads bring anything; each is one data command.
  function Chunks(results: seq<Read>): nat {
    if results == [] then 0 else
    (if results[0].data != [] then 1 else 0) + if results[0].end.More? then Chunks(results[1..]) else 0
  }

  predicate ReachesEof(results: seq<Read>) {
    results != [] && (results[0].end.Eof? || (results[0].end.More? && ReachesEof(results[1..])))
  }

  ghost predicate Quiet(x: Exchange, a: Action) {
    forall i :: 0 <= i < |x.noise| ==> x.noise[i].cmd.action != a
  }

  predicate AllWell(io: Io) {
    && io.mkdir && io.open && io.write.None? && io.close && io.read && io.remove
    && io.removeOld && io.backup && io.install && io.restore && io.openImage && io.load
  }

  predicate Smooth(x: Exchange) {
    x.fate.Delivered? && AllWell(x.io)
  }

  // What the guest handles during one exchange.
  function Handled(cmd: Command, x: Exchange): seq<Event> {
    x.noise + if x.fate.RequestLost? then [] else [Event(cmd, x.io)]
  }

  // SendCommand returned a response with status ok.
  predicate Acknowledged(env: Env, g: Guest, cmd: Command, x: Exchange) {
    x.fate.Delivered? && Handle(env, Run(env, g, x.noise), Event(cmd, x.io)).reply.Ok?
  }

  function After(env: Env, g: Guest, cmd: Command, x: Exchange): Guest {
    Run(env, g, Handled(cmd, x))
  }

  // The guest is in the middle of transfer b and has stored `bytes` so far.
  ghost predicate Storing(g: Guest, b: Command, bytes: Bytes)
    requires b.Begin?
  {
    && Good(g)
    && SlotOf(g, b.action).Some?
    && var s := SlotOf(g, b.action).value;
       && s.tmp == TmpPath(b) && s.dest == DestPath(b) && s.checksum == b.checksum
       && s.tmp in g.files && g.files[s.tmp] == bytes
  }

  ghost predicate Installed(g: Guest, b: Command, bytes: Bytes)
    requires b.Begin?
  {
    if b.action.Image? then g.loaded != [] && g.loaded[|g.loaded| - 1] == bytes
    else Lookup(g.files, DestPath(b)) == Some(bytes)
  }

  lemma AfterIsHandle(env: Env, g: Guest, cmd: Command, x: Exchange)
    requires !x.fate.RequestLost?
    ensures After(env, g, cmd, x) == Handle(env, Run(env, g, x.noise), Event(cmd, x.io)).guest
  {
    RunSnoc(env, g, x.noise, Event(cmd, x.io));
  }

  lemma NoiseKeepsStoring(env: Env, g: Guest, b: Command, bytes: Bytes, noise: seq<Event>)
    requires b.Begin? && Storing(g, b, bytes)
    requires forall i :: 0 <= i < |noise| ==> noise[i].cmd.action != b.action
    ensures Storing(Run(env, g, noise), b, bytes)
  {
    NoiseInvisible(env, g, noise, b.action);
    assert Owned(b.action, TmpPath(b));
  }

  lemma BeginStores(env: Env, g: Guest, b: Command, x: Exchange)
    requires Good(g) && b.Begin? && Quiet(x, b.action)
    ensures Acknowledged(env, g, b, x) ==> Acceptable(b) && Storing(After(env, g, b, x), b, [])
    ensures Acceptable(b) && Smooth(x) ==> Acknowledged(env, g, b, x)
  {
    NoiseInvisible(env, g, x.noise, b.action);
    if x.fate.Delivered? {
      AfterIsHandle(env, g, b, x);
      HandleKeepsGood(env, Run(env, g, x.noise), Event(b, x.io));
    }
  }

  lemma DataStores(env: Env, g: Guest, b: Command, bytes: Bytes, chunk: Bytes, x: Exchange)
    requires b.Begin? && Storing(g, b, bytes) && Quiet(x, b.action)
    ensures
      var cmd := Data(b.action, Some(chunk));
      && (Acknowledged(env, g, cmd, x) ==> Storing(After(env, g, cmd, x), b, bytes + chunk))
      && (Smooth(x) ==> Acknowledged(env, g, cmd, x))
  {
    NoiseKeepsStoring(env, g, b, bytes, x.noise);
    var cmd := Data(b.action, Some(chunk));
    if x.fate.Delivered? {
      AfterIsHandle(env, g, cmd, x);
      HandleKeepsGood(env, Run(env, g, x.noise), Event(cmd, x.io));
    }
  }

  lemma FinishStores(env: Env, g: Guest, b: Command, bytes: Bytes, x: Exchange)
    requires b.Begin? && Storing(g, b, bytes) && Quiet(x, b.action)
    ensures
      var cmd := Finish(b.action);
      && (Acknowledged(env, g, cmd, x) ==>
            Installed(After(env, g, cmd, x), b, bytes) && env.hash(bytes) == b.checksum)
      && (Smooth(x) && env.hash(bytes) == b.checksum && (b.action.Image? ==> env.docker) ==> Acknowledged(env, g, cmd, x))
  {
    NoiseKeepsStoring(env, g, b, bytes, x.noise);
    if x.fate.Delivered? {
      AfterIsHandle(env, g, Finish(b.action), x);
    }
  }

  lemma {:induction false} StreamSnoc(results: seq<Read>, i: nat)
    requires i < |results| && forall j :: 0 <= j < i ==> results[j].end.More?
    ensures Stream(results[..i + 1]) == Stream(results[..i]) + results[i].data
    ensures Chunks(results[..i + 1]) == Chunks(results[..i]) + if results[i].data != [] then 1 else 0
    ensures !results[i].end.More? ==> Chunks(results) == Chunks(results[..i + 1])
    ensures !results[i].end.More? ==> Stream(results) == Stream(results[..i + 1]) && (ReachesEof(results) <==> results[i].end.Eof?)
  {
    if i == 0 {
      assert results[..1][1..] == [] && results[..0] == [];
    } else {
      StreamSnoc(results[1..], i - 1);
      assert results[1..][..i] == results[..i + 1][1..];
      assert results[1..][..i - 1] == results[..i][1..];
    }
  }

  lemma {:induction false} NeverEnds(results: seq<Read>)
    requires forall j :: 0 <= j < |results| ==> results[j].end.More?
    ensures !ReachesEof(results)
  {
    if results != [] {
      NeverEnds(results[1..]);
    }
  }

  // One data command; `bytes` is what the guest has stored before it.
  method SendChunk(env: Env, ghost g0: Guest, ghost begin: Command, ghost bytes: Bytes, g: Guest, events: seq<Event>,
                   a: Action, chunk: Bytes, x: Exchange)
    returns (acknowledged: bool, h: Guest, handled: seq<Event>)
    requires begin.Begin? && begin.action == a && g == Run(env, g0, events) && Storing(g, begin, bytes) && Quiet(x, a)
    ensures h == Run(env, g0, handled)
    ensures acknowledged ==> Storing(h, begin, bytes + chunk) && x.fate.Delivered?
    ensures Smooth(x) ==> acknowledged
  {
    var cmd := Data(a, Some(chunk));
    DataStores(env, g, begin, bytes, chunk, x);
    RunAppend(env, g0, events, Handled(cmd, x));
    acknowledged := Acknowledged(env, g, cmd, x);
    handled, h := events + Handled(cmd, x), After(env, g, cmd, x);
  }

  method SendBegin(env: Env, g0: Guest, begin: Command, x: Exchange) returns (acknowledged: bool, g: Guest, handled: seq<Event>)
    requires begin.Begin? && Good(g0) && Quiet(x, begin.action)
    ensures g == Run(env, g0, handled)
    ensures acknowledged ==> Acceptable(begin) && Storing(g, begin, []) && x.fate.Delivered?
    ensures Acceptable(begin) && Smooth(x) ==> acknowledged
  {
    BeginStores(env, g0, begin, x);
    acknowledged := Acknowledged(env, g0, begin, x);
    handled, g := Handled(begin, x), After(env, g0, begin, x);
  }

  method SendFinish(env: Env, ghost g0: Guest, begin: Command, ghost bytes: Bytes, g: Guest, events: seq<Event>, x: Exchange)
    returns (acknowledged: bool, h: Guest, handled: seq<Event>)
    requires begin.Begin? && g == Run(env, g0, events) && Storing(g, begin, bytes) && Quiet(x, begin.action)
    ensures h == Run(env, g0, handled)
    ensures acknowledged ==> Installed(h, begin, bytes) && env.hash(bytes) == begin.checksum && x.fate.Delivered?
    ensures Smooth(x) && env.hash(bytes) == begin.checksum && (begin.action.Image? ==> env.docker) ==> acknowledged
  {
    var cmd := Finish(begin.action);
    FinishStores(env, g, begin, bytes, x);
    RunAppend(env, g0, events, Handled(cmd, x));
    acknowledged := Acknowledged(env, g, cmd, x);
    handled, h := events + Handled(cmd, x), After(env, g, cmd, x);
  }

  // The loop has made i reads, the last of which ended with `end`; its next exchange is number `next`.
  ghost predicate ReadSoFar(results: seq<Read>, i: nat, end: ReadEnd, next: nat) {
    && i <= |results| && next == 1 + Chunks(results[..i])
    && if end.More? then forall k :: 0 <= k < i ==> results[k].end.More?
       else Stream(results[..i]) == Stream(results) && Chunks(results[..i]) == Chunks(results)
            && (ReachesEof(results) <==> end.Eof?)
  }

  lemma ReadOneMore(results: seq<Read>, i: nat, next: nat)
    requires i < |results| && ReadSoFar(results, i, More, next)
    ensures ReadSoFar(results, i + 1, results[i].end, if results[i].data != [] then next + 1 else next)
    ensures Stream(results[..i + 1]) == Stream(results[..i]) + results[i].data
  {
    StreamSnoc(results, i);
  }

  // The data phase: read until end of file, one command per non-empty read. `next` counts exchanges.
  method SendData(env: Env, g0: Guest, ghost begin: Command, a: Action, results: seq<Read>, wire: nat -> Exchange)
    returns (sent: bool, g: Guest, events: seq<Event>, next: nat)
    requires begin.Begin? && begin.action == a && Storing(g0, begin, [])
    requires forall j: nat :: Quiet(wire(j), a)
    ensures g == Run(env, g0, events)
    ensures sent ==> ReachesEof(results) && Storing(g, begin, Stream(results))
    ensures sent ==> next == 1 + Chunks(results) && Answered(wire, 1, next)
    ensures ReachesEof(results) && (forall j: nat :: Smooth(wire(j))) ==> sent
  {
    sent, g, events, next := false, g0, [], 1;
    var i, end := 0, More;
    assert results[..0] == [];
    while end.More? && i < |results|
      invariant 0 <= i <= |results| && ReadSoFar(results, i, end, next)
      invariant g == Run(env, g0, events) && Storing(g, begin, Stream(results[..i]))
      invariant Answered(wire, 1, next)
    {
      var chunk := results[i].data;
      ReadOneMore(results, i, next);
      if |chunk| > 0 {
        var acknowledged;
        acknowledged, g, events := SendChunk(env, g0, begin, Stream(results[..i]), g, events, a, chunk, wire(next));
        if !acknowledged {
          return;
        }
        next := next + 1;
      }
      end := results[i].end;
      i := i + 1;
    }
    if end.More? {
      NeverEnds(results);
    }
    sent := end.Eof?;
  }

  /** The transfer loop of the host. If it reports success then the guest holds the stream of the
      reader, byte for byte, however Read split it and whatever other actions ran in between, and
      the begin, one data command for each read that brought anything, and the finish were all
      answered. It does report success when nothing fails and the checksum is that of the stream. */
  method SendFile(env: Env, g0: Guest, begin: Command, results: seq<Read>, wire: nat -> Exchange)
    returns (ok: bool, g: Guest, events: seq<Event>)
    requires begin.Begin? && Good(g0)
    requires forall j: nat :: Quiet(wire(j), begin.action)
    ensures g == Run(env, g0, events)
    ensures ok ==> Acceptable(begin) && ReachesEof(results)
    ensures ok ==> Answered(wire, 0, 2 + Chunks(results))
    ensures ok ==> Installed(g, begin, Stream(results)) && env.hash(Stream(results)) == begin.checksum
    ensures Acceptable(begin) && ReachesEof(results) && env.hash(Stream(results)) == begin.checksum
      && (begin.action.Image? ==> env.docker) && (forall j: nat :: Smooth(wire(j)))
      ==> ok
  {
    ok, g, events := false, g0, [];
    if begin.action.Binary? && !ValidComponent(begin.app) {
      return;
    }
    ok, g, events := SendBegin(env, g0, begin, wire(0));
    if !ok {
      return;
    }
    var sendEvents, next;
    ok, g, sendEvents, next := SendData(env, g, begin, begin.action, results, wire);
    RunAppend(env, g0, events, sendEvents);
    events := events + sendEvents;
    if !ok {
      return;
    }
    ok, g, events := SendFinish(env, g0, begin, Stream(results), g, events, wire(next));
    if ok {
      AllAnswered(wire, next);
    }
  }

  /** An empty checksum, as the HTTP upload handlers pass, is refused by every guest. */
  lemma EmptyChecksumRefused(env: Env, g: Guest, b: Command, x: Exchange)
    requires Good(g) && b.Begin? && b.checksum == "" && Quiet(x, b.action)
    ensures !Acknowledged(env, g, b, x)
  {
    BeginStores(env, g, b, x);
  }
}
