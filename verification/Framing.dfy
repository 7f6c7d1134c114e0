/** The request/reply line protocol between host and guest over a serial channel: SendCommand
    (internal/agent/runtime/libvirt/comm.go) holds a mutex while it writes one command line and
    reads one reply line; Listen (internal/init/comm.go) answers every line it can read. Reads and
    writes may fail on both sides and leave fragments of lines behind. */
module Framing {
  import opened Options

  predicate OneLine(s: string) {
    forall i :: 0 <= i < |s| ==> s[i] != '\n'
  }

  predicate Suffix(a: string, b: string) {
    |a| <= |b| && b[|b| - |a|..] == a
  }

  // --------------------------------------------------------------- the guest

  /** What the guest registered: how it parses a line and which actions it knows. */
  datatype Guest = Guest(
    parse: string -> Option<string>,
    handlers: map<string, (nat, string) -> string>,
    invalidJson: string,
    unknownAction: string -> string)

  /** The reply to the guest's i-th line; handlers have state, hence the index. */
  function Respond(g: Guest, i: nat, line: string): string {
    match g.parse(line)
    case None => g.invalidJson
    case Some(action) =>
      if action in g.handlers then g.handlers[action](i, line) else g.unknownAction(action)
  }

  /** Replies are JSON documents, which hold no raw newline. */
  ghost predicate Framed(g: Guest) {
    forall i, line :: OneLine(Respond(g, i, line))
  }

  datatype Fault = Eof | Eio | Other
  datatype Read = Byte(c: char) | Error(fault: Fault)
  datatype Exit = Running | Closed | Broken

  /** Only end-of-file and I/O errors of a character device are worth a retry. */
  predicate Transient(fault: Fault, charDevice: bool) {
    !fault.Other? && charDevice
  }

  /** The lines read so far, the start of the next one, and whether Listen still runs. */
  datatype Ear = Ear(lines: seq<string>, partial: string, exit: Exit)

  function Attend(e: Ear, r: Read, charDevice: bool): Ear {
    if !e.exit.Running? then e
    else match r
      case Byte(c) =>
        if c == '\n' then e.(lines := e.lines + [e.partial], partial := "")
        else e.(partial := e.partial + [c])
      case Error(fault) =>
        e.(partial := "",
           exit := if Transient(fault, charDevice) then Running
                   else if fault.Eof? then Closed else Broken)
  }

  function Hear(input: seq<Read>, charDevice: bool): Ear {
    if input == [] then Ear([], "", Running)
    else Attend(Hear(input[..|input| - 1], charDevice), input[|input| - 1], charDevice)
  }

  function Replies(g: Guest, lines: seq<string>): (r: seq<string>)
    ensures |r| == |lines|
    ensures forall i :: 0 <= i < |r| ==> r[i] == Respond(g, i, lines[i])
  {
    seq(|lines|, i requires 0 <= i < |lines| => Respond(g, i, lines[i]))
  }

  /** Nothing that arrives after Listen has returned matters. */
  lemma {:induction false} HearStopped(input: seq<Read>, i: nat, charDevice: bool)
    requires i <= |input| && !Hear(input[..i], charDevice).exit.Running?
    ensures Hear(input, charDevice) == Hear(input[..i], charDevice)
  {
    if i < |input| {
      assert input[..|input| - 1][..i] == input[..i];
      HearStopped(input[..|input| - 1], i, charDevice);
    } else {
      assert input[..i] == input;
    }
  }

  /**
   * Listen answers the lines it heard in order, each once: a line for a
   * registered action by that action's handler, a line for another action by
   * saying so, and a line that is no command by saying that.
   */
  method Listen(g: Guest, input: seq<Read>, charDevice: bool) returns (replies: seq<string>, exit: Exit)
    ensures exit == Hear(input, charDevice).exit
    ensures replies == Replies(g, Hear(input, charDevice).lines)
    ensures var lines := Hear(input, charDevice).lines;
            && |replies| == |lines|
            && forall i :: 0 <= i < |replies| ==>
                 && (g.parse(lines[i]).None? ==> replies[i] == g.invalidJson)
                 && (forall a :: g.parse(lines[i]) == Some(a) ==>
                       && (a in g.handlers ==> replies[i] == g.handlers[a](i, lines[i]))
                       && (a !in g.handlers ==> replies[i] == g.unknownAction(a)))
  {
    replies, exit := [], Running;
    var line := "";
    var i := 0;
    ghost var lines: seq<string> := [];
    while i < |input|
      invariant i <= |input|
      invariant exit == Running
      invariant Hear(input[..i], charDevice) == Ear(lines, line, Running)
      invariant replies == Replies(g, lines)
    {
      assert input[..i + 1][..i] == input[..i];
      var r := input[i];
      i := i + 1;
      if r.Error? {
        line := "";
        if !Transient(r.fault, charDevice) {
          exit := if r.fault.Eof? then Closed else Broken;
          HearStopped(input, i, charDevice);
          return;
        }
      } else if r.c == '\n' {
        replies := replies + [Respond(g, |replies|, line)];
        lines := lines + [line];
        line := "";
      } else {
        line := line + [r.c];
      }
    }
    assert input[..i] == input;
  }

  /** While Listen runs, every newline read is answered, once. */
  lemma {:induction false} OneLinePerNewline(input: seq<Read>, charDevice: bool)
    requires Hear(input, charDevice).exit.Running?
    ensures |Hear(input, charDevice).lines| == multiset(input)[Byte('\n')]
  {
    if input != [] {
      var before := input[..|input| - 1];
      OneLinePerNewline(before, charDevice);
      assert input == before + [input[|input| - 1]];
    }
  }

  function Text(input: seq<Read>): string
    requires forall i :: 0 <= i < |input| ==> input[i].Byte?
  {
    seq(|input|, i requires 0 <= i < |input| => input[i].c)
  }

  lemma TextSnoc(input: seq<Read>, c: char)
    requires forall i :: 0 <= i < |input| ==> input[i].Byte?
    ensures Text(input + [Byte(c)]) == Text(input) + [c]
  {
  }

  /** A line is what was read since the last newline or the last error, whichever is later. */
  lemma {:induction false} LineSinceBoundary(input: seq<Read>, k: nat, charDevice: bool)
    requires k <= |input| && Hear(input[..k], charDevice).exit.Running?
    requires k == 0 || input[k - 1].Error? || input[k - 1] == Byte('\n')
    requires forall i :: k <= i < |input| ==> input[i].Byte? && input[i].c != '\n'
    ensures Hear(input + [Byte('\n')], charDevice).lines
         == Hear(input[..k], charDevice).lines + [Text(input[k..])]
    decreases |input|
  {
    BytesAreKept(input, k, charDevice);
    assert (input + [Byte('\n')])[..|input|] == input;
  }

  lemma {:induction false} BytesAreKept(input: seq<Read>, k: nat, charDevice: bool)
    requires k <= |input| && Hear(input[..k], charDevice).exit.Running?
    requires k == 0 || input[k - 1].Error? || input[k - 1] == Byte('\n')
    requires forall i :: k <= i < |input| ==> input[i].Byte? && input[i].c != '\n'
    ensures Hear(input, charDevice)
         == Hear(input[..k], charDevice).(partial := Text(input[k..]))
  {
    if k == |input| {
      assert input[..k] == input;
    } else {
      var before := input[..|input| - 1];
      assert before[..k] == input[..k];
      BytesAreKept(before, k, charDevice);
      assert input[k..] == before[k..] + [input[|input| - 1]];
      TextSnoc(before[k..], input[|input| - 1].c);
    }
  }

  // --------------------------------------------------------------- the pipes

  /**
   * One direction of the channel. `wire` holds the bytes written and not yet
   * read, `kept` what the reader has of its current line. The rest is history:
   * the complete lines written, the bytes after the last of them, how many
   * lines were read to their end, and all bytes read of the current line.
   */
  datatype Pipe = Pipe(frames: seq<string>, tail: string, taken: nat, cut: string, kept: string, wire: string)

  function Flat(frames: seq<string>): string {
    if frames == [] then "" else frames[0] + "\n" + Flat(frames[1..])
  }

  ghost predicate SoundPipe(p: Pipe) {
    && p.taken <= |p.frames|
    && (forall i :: 0 <= i < |p.frames| ==> OneLine(p.frames[i]))
    && OneLine(p.tail) && OneLine(p.cut)
    && Suffix(p.kept, p.cut)
    && p.cut + p.wire == Flat(p.frames[p.taken..]) + p.tail
  }

  /** A write of `data` and a newline that stops after n bytes. */
  function Put(p: Pipe, data: string, n: nat): Pipe
    requires n <= |data| + 1
  {
    if n <= |data| then p.(wire := p.wire + data[..n], tail := p.tail + data[..n])
    else p.(wire := p.wire + data + "\n", frames := p.frames + [p.tail + data], tail := "")
  }

  function Take(p: Pipe): Pipe
    requires p.wire != ""
  {
    var c := p.wire[0];
    if c == '\n' then p.(wire := p.wire[1..], taken := p.taken + 1, cut := "", kept := "")
    else p.(wire := p.wire[1..], cut := p.cut + [c], kept := p.kept + [c])
  }

  /** A failed read loses what the reader had of the line. */
  function Drop(p: Pipe): Pipe {
    p.(kept := "")
  }

  lemma {:induction false} FlatSnoc(frames: seq<string>, line: string)
    ensures Flat(frames + [line]) == Flat(frames) + line + "\n"
  {
    if frames == [] {
      assert frames + [line] == [line] && [line][1..] == [];
    } else {
      FlatSnoc(frames[1..], line);
      assert (frames + [line])[1..] == frames[1..] + [line];
    }
  }

  lemma PutKeepsSound(p: Pipe, data: string, n: nat)
    requires SoundPipe(p) && OneLine(data) && n <= |data| + 1
    ensures SoundPipe(Put(p, data, n))
  {
    var q := Put(p, data, n);
    if n <= |data| {
      assert q.cut + q.wire == (p.cut + p.wire) + data[..n];
    } else {
      assert q.frames[q.taken..] == p.frames[p.taken..] + [p.tail + data];
      FlatSnoc(p.frames[p.taken..], p.tail + data);
      assert q.cut + q.wire == (p.cut + p.wire) + data + "\n";
    }
  }

  /** The first newline of a text is in one place. */
  lemma FirstNewline(a: string, x: string, b: string, y: string)
    requires OneLine(a) && OneLine(b)
    requires a + "\n" + x == b + "\n" + y
    ensures a == b && x == y
  {
    var s := a + "\n" + x;
    assert s[|a|] == '\n' && s[|b|] == '\n';
    assert forall i :: 0 <= i < |a| ==> s[i] == a[i];
    assert forall i :: 0 <= i < |b| ==> s[i] == b[i];
    assert |a| == |b|;
    assert a == s[..|a|] && x == s[|a| + 1..] && y == s[|b| + 1..];
  }

  lemma CutIsInFirstFrame(p: Pipe)
    requires SoundPipe(p) && p.wire != "" && p.wire[0] == '\n'
    ensures p.taken < |p.frames| && p.cut == p.frames[p.taken]
    ensures p.wire[1..] == Flat(p.frames[p.taken + 1..]) + p.tail
  {
    var stream := p.cut + p.wire;
    assert stream[|p.cut|] == '\n';
    assert p.taken == |p.frames| ==> stream == p.tail;
    var rest := p.frames[p.taken..];
    assert rest[1..] == p.frames[p.taken + 1..];
    assert stream == p.cut + "\n" + p.wire[1..];
    assert stream == rest[0] + "\n" + (Flat(rest[1..]) + p.tail);
    FirstNewline(p.cut, p.wire[1..], rest[0], Flat(rest[1..]) + p.tail);
  }

  lemma TakeKeepsSound(p: Pipe)
    requires SoundPipe(p) && p.wire != ""
    ensures SoundPipe(Take(p))
    ensures p.wire[0] == '\n' ==> p.taken < |p.frames| && p.cut == p.frames[p.taken]
  {
    var q := Take(p);
    if p.wire[0] == '\n' {
      CutIsInFirstFrame(p);
      assert q.cut + q.wire == q.wire;
    } else {
      assert q.cut + q.wire == p.cut + p.wire;
    }
  }

  /** An unread complete line leaves something to read. */
  lemma UnreadLineIsOnTheWire(p: Pipe)
    requires SoundPipe(p) && p.taken < |p.frames|
    ensures p.wire != ""
  {
    var rest := p.frames[p.taken..];
    var stream := p.cut + p.wire;
    assert stream == rest[0] + "\n" + Flat(rest[1..]) + p.tail;
    assert stream[|rest[0]|] == '\n';
    assert p.wire == "" ==> stream == p.cut;
  }

  // ------------------------------------------------------------- the session

  /**
   * What a successful call returned: its own line was the own-th the host ever
   * completed, `timeouts` calls had given up before, and those that gave up
   * inside the line read had taken its first `dropped` bytes.
   */
  datatype Received = Received(own: int, text: string, timeouts: nat, dropped: int)

  /**
   * One communicator and one guest. `waiting` is the mutex: a caller has
   * written its line and reads the reply. `commands` are the lines written
   * completely, `shorts` counts writes that were not; `written[i]` says
   * whether the reply to the guest's i-th line was written completely, and
   * `hurts[i]` whether a read error lost part of that line; `hurt` is the same
   * for the line being read. `strays[k]` is how many bytes of lost replies
   * stand before the reply in the k-th complete reply line. `timeouts` counts
   * calls that gave up reading.
   */
  datatype Session = Session(
    waiting: bool, commands: seq<string>, shorts: nat, timeouts: nat, results: seq<Received>,
    up: Pipe, down: Pipe,
    ear: Ear, written: seq<bool>, strays: seq<nat>, hurts: seq<bool>, hurt: bool)

  datatype Step =
    | Send(command: string, n: nat)   // lock, then write n bytes of the line
    | Expire                          // the deadline passes while reading
    | HostByte
    | GuestByte(k: nat)               // a newline is answered by k bytes of the reply
    | GuestError(fault: Fault)

  const FRESH_PIPE := Pipe([], "", 0, "", "", "")
  const OPENED := Session(false, [], 0, 0, [], FRESH_PIPE, FRESH_PIPE, Ear([], "", Running), [], [], [], false)

  predicate Enabled(s: Session, step: Step) {
    match step
    case Send(command, n) => !s.waiting && OneLine(command) && n <= |command| + 1
    case Expire => s.waiting
    case HostByte => s.waiting && s.down.wire != ""
    case GuestByte(_) => s.ear.exit.Running? && s.up.wire != ""
    case GuestError(_) => s.ear.exit.Running?
  }

  function Min(a: nat, b: nat): nat {
    if a < b then a else b
  }

  function AfterSend(s: Session, command: string, n: nat): Session
    requires n <= |command| + 1
  {
    var t := s.(up := Put(s.up, command, n));
    if n <= |command| then t.(shorts := s.shorts + 1)
    else t.(commands := s.commands + [command], waiting := true)
  }

  function AfterExpire(s: Session): Session {
    s.(waiting := false, timeouts := s.timeouts + 1, down := Drop(s.down))
  }

  /** What the waiting call returns if the next byte is the newline. */
  function Ending(s: Session): Received {
    Received(|s.commands| - 1, s.down.kept, s.timeouts, |s.down.cut| - |s.down.kept|)
  }

  function AfterHostByte(s: Session): Session
    requires s.down.wire != ""
  {
    var t := s.(down := Take(s.down));
    if s.down.wire[0] == '\n'
    then t.(waiting := false,
            results := s.results + [Ending(s)])
    else t
  }

  function AfterGuestByte(g: Guest, s: Session, k: nat, charDevice: bool): Session
    requires s.up.wire != ""
  {
    var c := s.up.wire[0];
    var t := s.(up := Take(s.up), ear := Attend(s.ear, Byte(c), charDevice));
    if c == '\n' then
      var reply := Respond(g, |s.ear.lines|, s.ear.partial);
      t.(down := Put(s.down, reply, Min(k, |reply| + 1)),
         written := s.written + [k > |reply|],
         strays := s.strays + if k > |reply| then [|s.down.tail|] else [],
         hurts := s.hurts + [s.hurt], hurt := false)
    else t
  }

  function AfterGuestError(s: Session, fault: Fault, charDevice: bool): Session {
    s.(up := Drop(s.up), ear := Attend(s.ear, Error(fault), charDevice),
       hurt := s.hurt || s.ear.partial != "")
  }

  function Apply(g: Guest, s: Session, step: Step, charDevice: bool): Session
    requires Enabled(s, step)
  {
    match step
    case Send(command, n) => AfterSend(s, command, n)
    case Expire => AfterExpire(s)
    case HostByte => AfterHostByte(s)
    case GuestByte(k) => AfterGuestByte(g, s, k, charDevice)
    case GuestError(fault) => AfterGuestError(s, fault, charDevice)
  }

  // ----------------------------------------------------------- the invariant

  /** How many of the first replies were written completely. */
  function Delivered(written: seq<bool>): (n: nat)
    ensures n <= |written|
  {
    if written == [] then 0
    else Delivered(written[..|written| - 1]) + if written[|written| - 1] then 1 else 0
  }

  /** Every line the guest gets ends in a command, and is one if no write was cut short. */
  ghost predicate CommandsOk(frames: seq<string>, tail: string, commands: seq<string>, shorts: nat) {
    && |commands| == |frames|
    && (forall j :: 0 <= j < |commands| ==> Suffix(commands[j], frames[j]))
    && (shorts == 0 ==> tail == "" && frames == commands)
  }

  /** The guest has the end of each line, all of it unless a read failed inside the line. */
  ghost predicate LinesOk(lines: seq<string>, frames: seq<string>, hurts: seq<bool>) {
    && |lines| == |hurts| <= |frames|
    && (forall i :: 0 <= i < |hurts| ==> LineOk(lines[i], frames[i], hurts[i]))
  }

  predicate LineOk(line: string, frame: string, hurt: bool) {
    Suffix(line, frame) && (hurt <==> line != frame)
  }

  ghost predicate UpOk(up: Pipe, ear: Ear, commands: seq<string>, shorts: nat, hurts: seq<bool>, hurt: bool) {
    && SoundPipe(up)
    && CommandsOk(up.frames, up.tail, commands, shorts)
    && LinesOk(ear.lines, up.frames, hurts)
    && up.kept == ear.partial
    && up.taken == |hurts|
    && (hurt <==> up.kept != up.cut)
  }

  /** All of the k-th line from its n-th byte on. */
  predicate EndsIn(frames: seq<string>, k: nat, n: int, text: string) {
    k < |frames| && 0 <= n <= |frames[k]| && text == frames[k][n..]
  }

  /** Two ends of one line are equal if and only if they begin at the same byte. */
  lemma SameEnd(frames: seq<string>, k: nat, n: int, text: string, m: int, reply: string)
    requires EndsIn(frames, k, n, text) && EndsIn(frames, k, m, reply)
    ensures text == reply <==> n == m
  {
    assert |text| == |frames[k]| - n && |reply| == |frames[k]| - m;
  }

  predicate Answered(g: Guest, frames: seq<string>, strays: seq<nat>, lines: seq<string>, written: seq<bool>, i: nat)
    requires i < |written| == |lines|
  {
    var k := Delivered(written[..i]);
    written[i] ==> k < |strays| && EndsIn(frames, k, strays[k], Respond(g, i, lines[i]))
  }

  /** Complete reply lines end in the replies to guest lines, in order; they are those if none is cut short. */
  ghost predicate RepliesOk(g: Guest, frames: seq<string>, tail: string, strays: seq<nat>,
                            lines: seq<string>, written: seq<bool>) {
    && |written| == |lines|
    && |frames| == |strays| == Delivered(written)
    && (forall i :: 0 <= i < |written| ==> Answered(g, frames, strays, lines, written, i))
    && (Delivered(written) == |written| ==> tail == "" && frames == Replies(g, lines))
  }

  ghost predicate DownOk(g: Guest, down: Pipe, strays: seq<nat>, lines: seq<string>, written: seq<bool>) {
    SoundPipe(down) && RepliesOk(g, down.frames, down.tail, strays, lines, written)
  }

  ghost predicate ResultOk(r: Received, k: nat, calls: nat, timeouts: nat, frames: seq<string>) {
    && r.own == k + r.timeouts < calls
    && r.timeouts <= timeouts
    && EndsIn(frames, k, r.dropped, r.text)
    && (timeouts == 0 ==> r.dropped == 0)
  }

  ghost predicate ResultsOk(results: seq<Received>, calls: nat, timeouts: nat, frames: seq<string>) {
    && (forall k :: 0 <= k < |results| ==> ResultOk(results[k], k, calls, timeouts, frames))
    && (forall k, l :: 0 <= k < l < |results| ==> results[k].timeouts <= results[l].timeouts)
  }

  /** Calls and replies: what was asked but not read was given up, or is being waited for. */
  ghost predicate HostOk(s: Session) {
    && |s.commands| == |s.results| + s.timeouts + (if s.waiting then 1 else 0)
    && |s.results| == s.down.taken <= |s.down.frames|
    && ResultsOk(s.results, |s.commands|, s.timeouts, s.down.frames)
    && (s.timeouts == 0 ==> s.down.kept == s.down.cut)
    && (!s.waiting ==> s.down.kept == "")
  }

  ghost predicate Inv(g: Guest, s: Session) {
    && UpOk(s.up, s.ear, s.commands, s.shorts, s.hurts, s.hurt)
    && DownOk(g, s.down, s.strays, s.ear.lines, s.written)
    && HostOk(s)
  }

  lemma ResultsStayOk(results: seq<Received>, calls: nat, timeouts: nat, frames: seq<string>,
                      calls': nat, timeouts': nat, frames': seq<string>)
    requires ResultsOk(results, calls, timeouts, frames)
    requires calls <= calls' && timeouts <= timeouts' && frames <= frames'
    ensures ResultsOk(results, calls', timeouts', frames')
  {
    forall k | 0 <= k < |results|
      ensures ResultOk(results[k], k, calls', timeouts', frames')
    {
      assert ResultOk(results[k], k, calls, timeouts, frames);
      assert frames[k] == frames'[k];
    }
  }

  lemma ResultAdded(results: seq<Received>, r: Received, calls: nat, timeouts: nat, frames: seq<string>)
    requires ResultsOk(results, calls, timeouts, frames)
    requires ResultOk(r, |results|, calls, timeouts, frames) && r.timeouts == timeouts
    ensures ResultsOk(results + [r], calls, timeouts, frames)
  {
    var all := results + [r];
    forall k | 0 <= k < |all|
      ensures ResultOk(all[k], k, calls, timeouts, frames) && all[k].timeouts <= timeouts
    {
      assert k < |results| ==> ResultOk(results[k], k, calls, timeouts, frames);
    }
  }

  lemma CommandAdded(frames: seq<string>, tail: string, commands: seq<string>, shorts: nat, command: string)
    requires CommandsOk(frames, tail, commands, shorts)
    ensures CommandsOk(frames + [tail + command], "", commands + [command], shorts)
  {
    assert Suffix(command, tail + command);
    assert tail == "" ==> tail + command == command;
  }

  lemma LinesStayOk(lines: seq<string>, frames: seq<string>, hurts: seq<bool>, more: string)
    requires LinesOk(lines, frames, hurts)
    ensures LinesOk(lines, frames + [more], hurts)
  {
  }

  lemma LineAdded(lines: seq<string>, frames: seq<string>, hurts: seq<bool>, line: string, hurt: bool)
    requires LinesOk(lines, frames, hurts) && |lines| < |frames|
    requires LineOk(line, frames[|lines|], hurt)
    ensures LinesOk(lines + [line], frames, hurts + [hurt])
  {
    forall i | 0 <= i < |hurts| + 1
      ensures LineOk((lines + [line])[i], frames[i], (hurts + [hurt])[i])
    {
    }
  }

  lemma SendKeepsUp(s: Session, command: string, n: nat)
    requires UpOk(s.up, s.ear, s.commands, s.shorts, s.hurts, s.hurt)
    requires OneLine(command) && n <= |command| + 1
    ensures var t := AfterSend(s, command, n); UpOk(t.up, t.ear, t.commands, t.shorts, t.hurts, t.hurt)
  {
    PutKeepsSound(s.up, command, n);
    CommandAdded(s.up.frames, s.up.tail, s.commands, s.shorts, command);
    LinesStayOk(s.ear.lines, s.up.frames, s.hurts, s.up.tail + command);
  }

  lemma SendKeepsHost(s: Session, command: string, n: nat)
    requires HostOk(s) && !s.waiting && n <= |command| + 1
    ensures HostOk(AfterSend(s, command, n))
  {
    var t := AfterSend(s, command, n);
    ResultsStayOk(s.results, |s.commands|, s.timeouts, s.down.frames, |t.commands|, s.timeouts, s.down.frames);
  }

  lemma SendKeepsInv(g: Guest, s: Session, command: string, n: nat)
    requires Inv(g, s) && Enabled(s, Send(command, n))
    ensures Inv(g, AfterSend(s, command, n))
  {
    SendKeepsUp(s, command, n);
    SendKeepsHost(s, command, n);
    var t := AfterSend(s, command, n);
    assert (t.down, t.strays, t.ear, t.written) == (s.down, s.strays, s.ear, s.written);
  }

  lemma ExpireKeepsHost(s: Session)
    requires HostOk(s) && s.waiting
    ensures HostOk(AfterExpire(s))
  {
    ResultsStayOk(s.results, |s.commands|, s.timeouts, s.down.frames,
                  |s.commands|, s.timeouts + 1, s.down.frames);
  }

  lemma ExpireKeepsInv(g: Guest, s: Session)
    requires Inv(g, s) && Enabled(s, Expire)
    ensures Inv(g, AfterExpire(s))
  {
    DropKeepsSound(s.down);
    ExpireKeepsHost(s);
  }

  lemma HostLetterKeepsHost(s: Session)
    requires HostOk(s) && s.waiting && s.down.wire != "" && s.down.wire[0] != '\n'
    ensures HostOk(AfterHostByte(s))
  {
    var t := AfterHostByte(s);
    assert (t.results, t.commands, t.timeouts, t.down.frames) == (s.results, s.commands, s.timeouts, s.down.frames);
  }

  lemma HostLineIsOk(s: Session)
    requires HostOk(s) && s.waiting && SoundPipe(s.down) && s.down.wire != "" && s.down.wire[0] == '\n'
    ensures s.down.taken < |s.down.frames|
    ensures ResultOk(Ending(s), |s.results|, |s.commands|, s.timeouts, s.down.frames)
  {
    CutIsInFirstFrame(s.down);
  }

  lemma HostLineKeepsHost(s: Session)
    requires HostOk(s) && s.waiting && SoundPipe(s.down) && s.down.wire != "" && s.down.wire[0] == '\n'
    ensures HostOk(AfterHostByte(s))
  {
    HostLineIsOk(s);
    ResultAdded(s.results, Ending(s), |s.commands|, s.timeouts, s.down.frames);
  }

  lemma HostByteKeepsDown(g: Guest, s: Session)
    requires DownOk(g, s.down, s.strays, s.ear.lines, s.written) && s.down.wire != ""
    ensures DownOk(g, AfterHostByte(s).down, s.strays, s.ear.lines, s.written)
  {
    TakeKeepsSound(s.down);
  }

  lemma HostByteKeepsInv(g: Guest, s: Session)
    requires Inv(g, s) && Enabled(s, HostByte)
    ensures Inv(g, AfterHostByte(s))
  {
    if s.down.wire[0] == '\n' {
      HostLineKeepsHost(s);
    } else {
      HostLetterKeepsHost(s);
    }
    HostByteKeepsDown(g, s);
    var t := AfterHostByte(s);
    assert (t.up, t.strays, t.ear, t.written) == (s.up, s.strays, s.ear, s.written);
  }

  lemma DropKeepsSound(p: Pipe)
    requires SoundPipe(p)
    ensures SoundPipe(Drop(p))
  {
  }

  lemma GuestErrorKeepsUp(s: Session, fault: Fault, charDevice: bool)
    requires UpOk(s.up, s.ear, s.commands, s.shorts, s.hurts, s.hurt) && s.ear.exit.Running?
    ensures var t := AfterGuestError(s, fault, charDevice);
            UpOk(t.up, t.ear, t.commands, t.shorts, t.hurts, t.hurt)
  {
    DropKeepsSound(s.up);
  }

  lemma GuestErrorKeepsInv(g: Guest, s: Session, fault: Fault, charDevice: bool)
    requires Inv(g, s) && Enabled(s, GuestError(fault))
    ensures Inv(g, AfterGuestError(s, fault, charDevice))
  {
    GuestErrorKeepsUp(s, fault, charDevice);
  }

  lemma GuestByteKeepsUp(g: Guest, s: Session, k: nat, charDevice: bool)
    requires UpOk(s.up, s.ear, s.commands, s.shorts, s.hurts, s.hurt) && Enabled(s, GuestByte(k))
    ensures var t := AfterGuestByte(g, s, k, charDevice);
            UpOk(t.up, t.ear, t.commands, t.shorts, t.hurts, t.hurt)
  {
    TakeKeepsSound(s.up);
    if s.up.wire[0] == '\n' {
      LineAdded(s.ear.lines, s.up.frames, s.hurts, s.ear.partial, s.hurt);
    }
  }

  /** The guest answers one more line completely. */
  lemma ReplyAdded(g: Guest, frames: seq<string>, tail: string, strays: seq<nat>,
                   lines: seq<string>, written: seq<bool>, line: string)
    requires RepliesOk(g, frames, tail, strays, lines, written)
    ensures RepliesOk(g, frames + [tail + Respond(g, |lines|, line)], "", strays + [|tail|],
                      lines + [line], written + [true])
  {
    var reply := Respond(g, |lines|, line);
    var now, all, wrote := frames + [tail + reply], lines + [line], written + [true];
    assert wrote[..|written|] == written;
    assert (tail + reply)[|tail|..] == reply;
    EarlierAnswersStay(g, frames, strays, lines, written, now, strays + [|tail|], line, true);
    assert Answered(g, now, strays + [|tail|], all, wrote, |written|);
    if Delivered(wrote) == |wrote| {
      assert tail + reply == reply;
      assert now == Replies(g, all);
    }
  }

  /** The write of a reply fails before its newline is out. */
  lemma ReplyCutShort(g: Guest, frames: seq<string>, tail: string, strays: seq<nat>,
                      lines: seq<string>, written: seq<bool>, line: string, more: string)
    requires RepliesOk(g, frames, tail, strays, lines, written)
    ensures RepliesOk(g, frames, tail + more, strays, lines + [line], written + [false])
  {
    assert (written + [false])[..|written|] == written;
    EarlierAnswersStay(g, frames, strays, lines, written, frames, strays, line, false);
  }

  lemma EarlierAnswersStay(g: Guest, frames: seq<string>, strays: seq<nat>, lines: seq<string>, written: seq<bool>,
                           now: seq<string>, stray: seq<nat>, line: string, wrote: bool)
    requires frames <= now && strays <= stray && |written| == |lines|
    requires forall i :: 0 <= i < |written| ==> Answered(g, frames, strays, lines, written, i)
    ensures forall i :: 0 <= i < |written| ==> Answered(g, now, stray, lines + [line], written + [wrote], i)
  {
    forall i | 0 <= i < |written|
      ensures Answered(g, now, stray, lines + [line], written + [wrote], i)
    {
      assert Answered(g, frames, strays, lines, written, i);
      assert (written + [wrote])[..i] == written[..i];
    }
  }

  lemma AnswerKeepsDown(g: Guest, down: Pipe, strays: seq<nat>, lines: seq<string>, written: seq<bool>,
                        line: string, k: nat)
    requires Framed(g) && DownOk(g, down, strays, lines, written)
    ensures var reply := Respond(g, |lines|, line);
            DownOk(g, Put(down, reply, Min(k, |reply| + 1)), strays + (if k > |reply| then [|down.tail|] else []),
                   lines + [line], written + [k > |reply|])
  {
    var reply := Respond(g, |lines|, line);
    PutKeepsSound(down, reply, Min(k, |reply| + 1));
    if k > |reply| {
      ReplyAdded(g, down.frames, down.tail, strays, lines, written, line);
    } else {
      ReplyCutShort(g, down.frames, down.tail, strays, lines, written, line, reply[..k]);
      assert strays + [] == strays;
    }
  }

  lemma GuestByteKeepsHost(g: Guest, s: Session, k: nat, charDevice: bool)
    requires HostOk(s) && s.up.wire != ""
    ensures HostOk(AfterGuestByte(g, s, k, charDevice))
  {
    var t := AfterGuestByte(g, s, k, charDevice);
    ResultsStayOk(s.results, |s.commands|, s.timeouts, s.down.frames, |t.commands|, t.timeouts, t.down.frames);
  }

  lemma GuestByteKeepsDown(g: Guest, s: Session, k: nat, charDevice: bool)
    requires Framed(g) && DownOk(g, s.down, s.strays, s.ear.lines, s.written) && Enabled(s, GuestByte(k))
    ensures var t := AfterGuestByte(g, s, k, charDevice);
            DownOk(g, t.down, t.strays, t.ear.lines, t.written)
  {
    if s.up.wire[0] == '\n' {
      AnswerKeepsDown(g, s.down, s.strays, s.ear.lines, s.written, s.ear.partial, k);
    }
  }

  lemma GuestByteKeepsInv(g: Guest, s: Session, k: nat, charDevice: bool)
    requires Framed(g) && Inv(g, s) && Enabled(s, GuestByte(k))
    ensures Inv(g, AfterGuestByte(g, s, k, charDevice))
  {
    GuestByteKeepsUp(g, s, k, charDevice);
    GuestByteKeepsDown(g, s, k, charDevice);
    GuestByteKeepsHost(g, s, k, charDevice);
  }

  /** Every step of either side, and every fault, keeps the invariant. */
  lemma StepKeepsInv(g: Guest, s: Session, step: Step, charDevice: bool)
    requires Framed(g) && Inv(g, s) && Enabled(s, step)
    ensures Inv(g, Apply(g, s, step, charDevice))
  {
    match step
    case Send(command, n) => SendKeepsInv(g, s, command, n);
    case Expire => ExpireKeepsInv(g, s);
    case HostByte => HostByteKeepsInv(g, s);
    case GuestByte(k) => GuestByteKeepsInv(g, s, k, charDevice);
    case GuestError(fault) => GuestErrorKeepsInv(g, s, fault, charDevice);
  }

  // -------------------------------------------------------------------- runs

  ghost predicate Valid(g: Guest, s: Session, steps: seq<Step>, charDevice: bool)
    decreases |steps|
  {
    steps == [] || (Enabled(s, steps[0]) && Valid(g, Apply(g, s, steps[0], charDevice), steps[1..], charDevice))
  }

  ghost function Exec(g: Guest, s: Session, steps: seq<Step>, charDevice: bool): Session
    requires Valid(g, s, steps, charDevice)
    decreases |steps|
  {
    if steps == [] then s else Exec(g, Apply(g, s, steps[0], charDevice), steps[1..], charDevice)
  }

  lemma {:induction false} RunKeepsInv(g: Guest, s: Session, steps: seq<Step>, charDevice: bool)
    requires Framed(g) && Inv(g, s) && Valid(g, s, steps, charDevice)
    ensures Inv(g, Exec(g, s, steps, charDevice))
    decreases |steps|
  {
    if steps != [] {
      StepKeepsInv(g, s, steps[0], charDevice);
      RunKeepsInv(g, Apply(g, s, steps[0], charDevice), steps[1..], charDevice);
    }
  }

  lemma OpenedIsSound(g: Guest)
    ensures Inv(g, OPENED)
  {
  }

  /** No host write was cut short, no call gave up, and every reply went out whole. */
  predicate Faultless(s: Session) {
    s.shorts == 0 && s.timeouts == 0 && Delivered(s.written) == |s.written|
  }

  /**
   * In a run without timeouts and failed writes every call that returns has
   * the reply to its own line, the one in the same place. The guest saw the
   * end of that line, and all of it unless one of its reads failed halfway.
   */
  lemma OwnReply(g: Guest, steps: seq<Step>, charDevice: bool, k: nat)
    requires Framed(g) && Valid(g, OPENED, steps, charDevice)
    requires Faultless(Exec(g, OPENED, steps, charDevice))
    requires k < |Exec(g, OPENED, steps, charDevice).results|
    ensures var s := Exec(g, OPENED, steps, charDevice);
            && k < |s.ear.lines| == |s.hurts| <= |s.commands|
            && s.results[k].own == k
            && s.results[k].text == Respond(g, k, s.ear.lines[k])
            && Suffix(s.ear.lines[k], s.commands[k])
            && (s.ear.lines[k] == s.commands[k] <==> !s.hurts[k])
  {
    OpenedIsSound(g);
    RunKeepsInv(g, OPENED, steps, charDevice);
    var s := Exec(g, OPENED, steps, charDevice);
    assert ResultOk(s.results[k], k, |s.commands|, s.timeouts, s.down.frames);
  }

  /** The guest line whose reply is the k-th to go out whole. */
  function Owner(written: seq<bool>, k: nat): (a: nat)
    requires k < Delivered(written)
    ensures a < |written| && written[a] && Delivered(written[..a]) == k
  {
    var last := |written| - 1;
    if Delivered(written[..last]) == k then last
    else
      var a := Owner(written[..last], k);
      assert written[..last][..a] == written[..a];
      a
  }

  /**
   * Under all faults: the k-th call to return reads the k-th complete reply
   * line, which ends in the reply to the guest's a-th line. That is the call's
   * own line if and only if the calls that gave up before it are as many as the
   * earlier replies that were lost. The text returned is that reply if and only
   * if the deadlines that passed inside the line took as many bytes as the lost
   * replies had left in front.
   */
  lemma OwnReplyExactly(g: Guest, steps: seq<Step>, charDevice: bool, k: nat)
    requires Framed(g) && Valid(g, OPENED, steps, charDevice)
    requires k < |Exec(g, OPENED, steps, charDevice).results|
    ensures var s := Exec(g, OPENED, steps, charDevice);
            && k < |s.strays| == |s.down.frames| == Delivered(s.written) && |s.written| == |s.ear.lines|
            && var a, r := Owner(s.written, k), s.results[k];
            && EndsIn(s.down.frames, k, r.dropped, r.text)
            && EndsIn(s.down.frames, k, s.strays[k], Respond(g, a, s.ear.lines[a]))
            && (r.own == a <==> r.timeouts == |s.written[..a]| - Delivered(s.written[..a]))
            && (r.text == Respond(g, a, s.ear.lines[a]) <==> r.dropped == s.strays[k])
  {
    OpenedIsSound(g);
    RunKeepsInv(g, OPENED, steps, charDevice);
    var s := Exec(g, OPENED, steps, charDevice);
    var a, r := Owner(s.written, k), s.results[k];
    assert ResultOk(r, k, |s.commands|, s.timeouts, s.down.frames);
    assert Answered(g, s.down.frames, s.strays, s.ear.lines, s.written, a);
    SameEnd(s.down.frames, k, r.dropped, r.text, s.strays[k], Respond(g, a, s.ear.lines[a]));
  }

  /** How far behind the replies of a session are when the guest lost none. */
  ghost predicate Shifted(g: Guest, s: Session, k: nat)
    requires k < |s.results|
  {
    var r := s.results[k];
    var line := r.own - r.timeouts;
    && line == k < |s.ear.lines|
    && 0 <= r.dropped <= |Respond(g, line, s.ear.lines[line])|
    && r.text == Respond(g, line, s.ear.lines[line])[r.dropped..]
    && forall l :: k <= l < |s.results| ==> r.timeouts <= s.results[l].timeouts
  }

  lemma SessionIsShifted(g: Guest, s: Session, k: nat)
    requires HostOk(s) && RepliesOk(g, s.down.frames, s.down.tail, s.strays, s.ear.lines, s.written)
    requires k < |s.results| && Delivered(s.written) == |s.written|
    ensures Shifted(g, s, k)
    ensures s.results[k].text == Respond(g, k, s.ear.lines[k]) <==> s.results[k].dropped == 0
  {
    assert ResultOk(s.results[k], k, |s.commands|, s.timeouts, s.down.frames);
    assert s.down.frames[k] == Respond(g, k, s.ear.lines[k]);
    SameEnd(s.down.frames, k, s.results[k].dropped, s.results[k].text, 0, s.down.frames[k]);
  }

  /**
   * When the guest loses no reply, a call that returns after t timeouts reads
   * the reply to the line t places before its own, without the bytes that went
   * to calls whose deadline passed inside it: all of it if and only if there
   * are none. No later call on the connection is ever less far behind.
   */
  lemma TimeoutShiftsReplies(g: Guest, steps: seq<Step>, charDevice: bool, k: nat)
    requires Framed(g) && Valid(g, OPENED, steps, charDevice)
    requires var s := Exec(g, OPENED, steps, charDevice);
             k < |s.results| && Delivered(s.written) == |s.written|
    ensures var s := Exec(g, OPENED, steps, charDevice);
            && Shifted(g, s, k)
            && (s.results[k].text == Respond(g, k, s.ear.lines[k]) <==> s.results[k].dropped == 0)
  {
    OpenedIsSound(g);
    RunKeepsInv(g, OPENED, steps, charDevice);
    SessionIsShifted(g, Exec(g, OPENED, steps, charDevice), k);
  }

  // ---------------------------------------------------------------- the host

  lemma {:induction false} ExecSnoc(g: Guest, s: Session, steps: seq<Step>, x: Step, charDevice: bool)
    requires Valid(g, s, steps, charDevice) && Enabled(Exec(g, s, steps, charDevice), x)
    ensures Valid(g, s, steps + [x], charDevice)
    ensures Exec(g, s, steps + [x], charDevice) == Apply(g, Exec(g, s, steps, charDevice), x, charDevice)
    decreases |steps|
  {
    if steps == [] {
      assert [x][1..] == [] && steps + [x] == [x];
    } else {
      ExecSnoc(g, Apply(g, s, steps[0], charDevice), steps[1..], x, charDevice);
      assert (steps + [x])[1..] == steps[1..] + [x];
    }
  }

  /** What a call that began in `was` and is now in s has changed; the line it reads had lost what was read before. */
  predicate Called(was: Session, command: string, s: Session, reply: Option<string>) {
    && s.commands == was.commands + [command] && s.timeouts == was.timeouts
    && s.waiting == reply.None?
    && (reply.None? ==> |s.down.cut| == |was.down.cut| + |s.down.kept|)
    && s.results == was.results +
         match reply
         case None => []
         case Some(text) => [Received(|was.commands|, text, was.timeouts, |was.down.cut|)]
  }

  lemma HostByteCalls(was: Session, command: string, s: Session)
    requires Called(was, command, s, None) && s.down.wire != ""
    ensures s.down.wire[0] != '\n' ==> Called(was, command, AfterHostByte(s), None)
    ensures s.down.wire[0] == '\n' ==> Called(was, command, AfterHostByte(s), Some(s.down.kept))
  {
  }

  predicate GuestTurn(step: Step) {
    step.GuestByte? || step.GuestError?
  }

  lemma GuestTurnCalls(g: Guest, was: Session, command: string, s: Session, turn: Step, charDevice: bool)
    requires Called(was, command, s, None) && GuestTurn(turn) && Enabled(s, turn)
    ensures Called(was, command, Apply(g, s, turn, charDevice), None)
    ensures Apply(g, s, turn, charDevice).down.kept == s.down.kept
  {
  }

  lemma ExpireCalls(was: Session, command: string, s: Session)
    requires Called(was, command, s, None)
    ensures !AfterExpire(s).waiting && AfterExpire(s).results == was.results
    ensures AfterExpire(s).commands == was.commands + [command] && AfterExpire(s).timeouts == was.timeouts + 1
  {
  }

  /** The steps lead from `was` to s. */
  ghost predicate Ran(g: Guest, was: Session, steps: seq<Step>, s: Session, charDevice: bool) {
    Valid(g, was, steps, charDevice) && s == Exec(g, was, steps, charDevice)
  }

  lemma RanFurther(g: Guest, was: Session, steps: seq<Step>, s: Session, x: Step, charDevice: bool)
    requires Ran(g, was, steps, s, charDevice) && Enabled(s, x)
    ensures Ran(g, was, steps + [x], Apply(g, s, x, charDevice), charDevice)
  {
    ExecSnoc(g, was, steps, x, charDevice);
  }

  // The turns a waiting call lets happen: those that can, until it has its line.
  ghost function Taken(g: Guest, s: Session, turns: seq<Step>, charDevice: bool): seq<Step>
    decreases |turns|
  {
    if turns == [] || !s.waiting then []
    else if (turns[0].HostByte? || GuestTurn(turns[0])) && Enabled(s, turns[0])
    then [turns[0]] + Taken(g, Apply(g, s, turns[0], charDevice), turns[1..], charDevice)
    else Taken(g, s, turns[1..], charDevice)
  }

  /** A schedule that can happen as it stands, and of which the call needs every turn, is the one that happens. */
  lemma {:induction false} AllTaken(g: Guest, s: Session, turns: seq<Step>, charDevice: bool)
    requires Valid(g, s, turns, charDevice)
    requires forall i :: 0 <= i < |turns| ==> turns[i].HostByte? || GuestTurn(turns[i])
    requires forall i :: 0 <= i < |turns| && Valid(g, s, turns[..i], charDevice) ==> Exec(g, s, turns[..i], charDevice).waiting
    ensures Taken(g, s, turns, charDevice) == turns
    decreases |turns|
  {
    if turns != [] {
      assert turns[..0] == [];
      var t := Apply(g, s, turns[0], charDevice);
      forall i | 0 <= i < |turns[1..]| && Valid(g, t, turns[1..][..i], charDevice)
        ensures Exec(g, t, turns[1..][..i], charDevice).waiting
      {
        ExecCons(g, s, turns[0], turns[1..][..i], charDevice);
        assert [turns[0]] + turns[1..][..i] == turns[..i + 1];
      }
      AllTaken(g, t, turns[1..], charDevice);
    }
  }

  // The turns taken so far and those that are to be taken from here make up all that are taken.
  ghost predicate OnTrack(g: Guest, s: Session, taken: seq<Step>, rest: seq<Step>, all: seq<Step>, charDevice: bool) {
    taken + Taken(g, s, rest, charDevice) == all
  }

  lemma TurnTaken(g: Guest, s: Session, taken: seq<Step>, rest: seq<Step>, all: seq<Step>, charDevice: bool)
    requires rest != [] && s.waiting && OnTrack(g, s, taken, rest, all, charDevice)
    ensures
      if (rest[0].HostByte? || GuestTurn(rest[0])) && Enabled(s, rest[0])
      then OnTrack(g, Apply(g, s, rest[0], charDevice), taken + [rest[0]], rest[1..], all, charDevice)
      else OnTrack(g, s, taken, rest[1..], all, charDevice)
  {
    if (rest[0].HostByte? || GuestTurn(rest[0])) && Enabled(s, rest[0]) {
      var more := Taken(g, Apply(g, s, rest[0], charDevice), rest[1..], charDevice);
      assert taken + ([rest[0]] + more) == (taken + [rest[0]]) + more;
    }
  }

  lemma RanIsSound(g: Guest, was: Session, steps: seq<Step>, s: Session, charDevice: bool)
    requires Framed(g) && Inv(g, was) && Ran(g, was, steps, s, charDevice)
    ensures Inv(g, s)
  {
    RunKeepsInv(g, was, steps, charDevice);
  }

  class VMCommunicator {
    var session: Session

    constructor ()
      ensures session == OPENED
    {
      session := OPENED;
    }

    /** The call with the mutex held: write the line, then read up to a newline or the deadline. */
    method WriteAndRead(g: Guest, command: string, n: nat, turns: seq<Step>, charDevice: bool)
      returns (reply: Option<string>, ghost steps: seq<Step>)
      requires !session.waiting && session.down.kept == "" && OneLine(command) && n <= |command| + 1
      modifies this
      ensures Ran(g, old(session), steps, session, charDevice) && !session.waiting
      ensures steps == [Send(command, n)] + if n <= |command| then [] else
        Taken(g, AfterSend(old(session), command, n), turns, charDevice) + if reply.None? then [Expire] else []
      ensures session.commands == old(session.commands) + if n > |command| then [command] else []
      ensures session.results == old(session.results) +
        match reply
        case None => []
        case Some(text) => [Received(|old(session.commands)|, text, old(session.timeouts), |old(session.down.cut)|)]
      ensures session.timeouts == old(session.timeouts) + if n > |command| && reply.None? then 1 else 0
    {
      ghost var was := session;
      RanFurther(g, was, [], session, Send(command, n), charDevice);
      reply, steps := None, [] + [Send(command, n)];
      session := AfterSend(session, command, n);
      if n <= |command| {
        return;
      }
      var line := "";
      var i := 0;
      ghost var taken: seq<Step> := [];
      ghost var all := Taken(g, session, turns, charDevice);
      assert turns[0..] == turns && [] + all == all;
      while i < |turns| && reply.None?
        invariant 0 <= i <= |turns| && Ran(g, was, steps, session, charDevice)
        invariant steps == [Send(command, n)] + taken && OnTrack(g, session, taken, turns[i..], all, charDevice)
        invariant Called(was, command, session, reply)
        invariant reply.None? ==> line == session.down.kept
      {
        TurnTaken(g, session, taken, turns[i..], all, charDevice);
        assert turns[i..][1..] == turns[i + 1..] && turns[i..][0] == turns[i];
        if turns[i].HostByte? && session.down.wire != "" {
          RanFurther(g, was, steps, session, HostByte, charDevice);
          HostByteCalls(was, command, session);
          steps, taken := steps + [HostByte], taken + [HostByte];
          if session.down.wire[0] == '\n' {
            reply := Some(line);
          } else {
            line := line + [session.down.wire[0]];
          }
          session := AfterHostByte(session);
        } else if GuestTurn(turns[i]) && Enabled(session, turns[i]) {
          RanFurther(g, was, steps, session, turns[i], charDevice);
          GuestTurnCalls(g, was, command, session, turns[i], charDevice);
          steps, taken := steps + [turns[i]], taken + [turns[i]];
          session := Apply(g, session, turns[i], charDevice);
        }
        i := i + 1;
      }
      assert taken == all by {
        assert taken + [] == taken;
      }
      if reply.None? {
        RanFurther(g, was, steps, session, Expire, charDevice);
        ExpireCalls(was, command, session);
        steps := steps + [Expire];
        session := AfterExpire(session);
      }
    }

    /**
     * One call. `n` is how many bytes of the line the write gets out. While the
     * call reads, `turns` says who moves: the host takes a byte if there is
     * one, or the guest takes a step if it can; after the last turn the
     * deadline passes. `steps` is the run of the session the call amounts to.
     */
    method SendCommand(g: Guest, command: string, n: nat, turns: seq<Step>, charDevice: bool)
      returns (reply: Option<string>, ghost steps: seq<Step>)
      requires Framed(g) && Inv(g, session) && !session.waiting && OneLine(command) && n <= |command| + 1
      modifies this
      ensures Inv(g, session) && !session.waiting && Ran(g, old(session), steps, session, charDevice)
      ensures steps == [Send(command, n)] + if n <= |command| then [] else
        Taken(g, AfterSend(old(session), command, n), turns, charDevice) + if reply.None? then [Expire] else []
      ensures session.commands == old(session.commands) + if n > |command| then [command] else []
      ensures session.results == old(session.results) +
        match reply
        case None => []
        case Some(text) => [Received(|old(session.commands)|, text, old(session.timeouts), |old(session.down.cut)|)]
      ensures session.timeouts == old(session.timeouts) + if n > |command| && reply.None? then 1 else 0
    {
      ghost var was := session;
      reply, steps := WriteAndRead(g, command, n, turns, charDevice);
      RanIsSound(g, was, steps, session, charDevice);
    }
  }

  // ---------------------------------------------------------------- progress

  /** How many replies did not go out whole. */
  function Lost(s: Session): nat {
    |s.written| - Delivered(s.written)
  }

  /**
   * A waiting call has a byte to read on the wire, or the guest has, unless
   * more replies were lost than calls gave up and none is left unread.
   */
  lemma NeverStuck(g: Guest, s: Session)
    requires Inv(g, s) && s.waiting && (s.down.taken < |s.down.frames| || Lost(s) <= s.timeouts)
    ensures if s.down.taken < |s.down.frames| then s.down.wire != "" else s.up.wire != ""
  {
    if s.down.taken < |s.down.frames| {
      UnreadLineIsOnTheWire(s.down);
    } else {
      UnreadLineIsOnTheWire(s.up);
    }
  }

  predicate Unharmed(s: Session, t: Session) {
    t.commands == s.commands && t.timeouts == s.timeouts && Lost(t) == Lost(s)
  }

  /** The call waiting in s has returned in t, with nothing lost and no deadline passed. */
  predicate Returned(s: Session, t: Session) {
    && Unharmed(s, t) && !t.waiting
    && |t.results| == |s.results| + 1 && s.results <= t.results
    && t.results[|s.results|].timeouts == s.timeouts
  }

  lemma ReturnedLater(s: Session, t: Session, u: Session)
    requires Unharmed(s, t) && t.results == s.results && Returned(t, u)
    ensures Returned(s, u)
  {
  }

  /** The reply line a waiting call will read is written, or the guest runs and can still write it. */
  predicate CanReturn(s: Session) {
    s.down.taken < |s.down.frames| || (s.ear.exit.Running? && Lost(s) <= s.timeouts)
  }

  /** The fault-free next step of a waiting call: read what is there, else let the guest go on. */
  ghost function NextStep(g: Guest, s: Session): Step {
    if s.down.taken < |s.down.frames| then HostByte
    else GuestByte(|Respond(g, |s.ear.lines|, s.ear.partial)| + 1)
  }

  // Between two states of a waiting call: it goes on, or it has returned, and fewer bytes are left.
  predicate Progress(s: Session, t: Session) {
    && (if t.waiting then CanReturn(t) && Unharmed(s, t) && t.results == s.results else Returned(s, t))
    && (|t.up.wire| < |s.up.wire| || (t.up.wire == s.up.wire && |t.down.wire| < |s.down.wire|))
  }

  lemma OneMoreDelivered(written: seq<bool>)
    ensures Delivered(written + [true]) == Delivered(written) + 1
  {
    assert (written + [true])[..|written|] == written;
  }

  lemma LetterProgresses(g: Guest, s: Session, k: nat, charDevice: bool)
    requires s.waiting && CanReturn(s) && s.ear.exit.Running? && s.up.wire != "" && s.up.wire[0] != '\n'
    ensures Progress(s, AfterGuestByte(g, s, k, charDevice))
  {
    var t := AfterGuestByte(g, s, k, charDevice);
    assert t.written == s.written && t.results == s.results;
  }

  lemma ReplyProgresses(g: Guest, s: Session, charDevice: bool)
    requires s.waiting && s.ear.exit.Running? && Lost(s) <= s.timeouts && s.up.wire != "" && s.up.wire[0] == '\n'
    ensures Progress(s, AfterGuestByte(g, s, |Respond(g, |s.ear.lines|, s.ear.partial)| + 1, charDevice))
  {
    var t := AfterGuestByte(g, s, |Respond(g, |s.ear.lines|, s.ear.partial)| + 1, charDevice);
    assert t.written == s.written + [true] && t.results == s.results;
    OneMoreDelivered(s.written);
  }

  lemma HostByteProgresses(s: Session)
    requires s.waiting && s.down.wire != "" && s.down.taken < |s.down.frames|
    ensures Progress(s, AfterHostByte(s))
  {
  }

  lemma NextStepProgresses(g: Guest, s: Session, charDevice: bool)
    requires Inv(g, s) && s.waiting && CanReturn(s)
    ensures Enabled(s, NextStep(g, s)) && Progress(s, Apply(g, s, NextStep(g, s), charDevice))
  {
    NeverStuck(g, s);
    if s.down.taken < |s.down.frames| {
      HostByteProgresses(s);
    } else {
      if s.up.wire[0] == '\n' {
        ReplyProgresses(g, s, charDevice);
      } else {
        LetterProgresses(g, s, |Respond(g, |s.ear.lines|, s.ear.partial)| + 1, charDevice);
      }
    }
  }

  lemma ExecCons(g: Guest, s: Session, x: Step, xs: seq<Step>, charDevice: bool)
    requires Enabled(s, x) && Valid(g, Apply(g, s, x, charDevice), xs, charDevice)
    ensures Valid(g, s, [x] + xs, charDevice)
    ensures Exec(g, s, [x] + xs, charDevice) == Exec(g, Apply(g, s, x, charDevice), xs, charDevice)
  {
    assert ([x] + xs)[1..] == xs;
  }

  predicate FaultFree(steps: seq<Step>) {
    forall i :: 0 <= i < |steps| ==> steps[i].HostByte? || steps[i].GuestByte?
  }

  // A fault-free step of the session.
  ghost predicate Moves(g: Guest, s: Session, step: Step, t: Session, charDevice: bool) {
    (step.HostByte? || step.GuestByte?) && Enabled(s, step) && Apply(g, s, step, charDevice) == t
  }

  // The steps are a continuation without faults in which the waiting call returns.
  ghost predicate ReturnsBy(g: Guest, s: Session, steps: seq<Step>, charDevice: bool) {
    FaultFree(steps) && Valid(g, s, steps, charDevice) && Returned(s, Exec(g, s, steps, charDevice))
  }

  lemma ReturnsAfter(g: Guest, s: Session, step: Step, t: Session, rest: seq<Step>, charDevice: bool)
    requires Moves(g, s, step, t, charDevice) && Progress(s, t) && t.waiting && ReturnsBy(g, t, rest, charDevice)
    ensures ReturnsBy(g, s, [step] + rest, charDevice)
  {
    ExecCons(g, s, step, rest, charDevice);
    ReturnedLater(s, t, Exec(g, t, rest, charDevice));
  }

  lemma ReturnsNow(g: Guest, s: Session, step: Step, t: Session, charDevice: bool)
    requires Moves(g, s, step, t, charDevice) && Progress(s, t) && !t.waiting
    ensures ReturnsBy(g, s, [step], charDevice)
  {
    ExecCons(g, s, step, [], charDevice);
    assert [step] + [] == [step];
  }

  // One step towards the return of a call.
  lemma Advance(g: Guest, s: Session, charDevice: bool) returns (step: Step, t: Session)
    requires Framed(g) && Inv(g, s) && s.waiting && CanReturn(s)
    ensures Moves(g, s, step, t, charDevice) && Progress(s, t) && Inv(g, t)
  {
    step := NextStep(g, s);
    NextStepProgresses(g, s, charDevice);
    StepKeepsInv(g, s, step, charDevice);
    t := Apply(g, s, step, charDevice);
  }

  lemma {:induction false} CallReturns(g: Guest, s: Session, charDevice: bool) returns (steps: seq<Step>)
    requires Framed(g) && Inv(g, s) && s.waiting && CanReturn(s)
    ensures ReturnsBy(g, s, steps, charDevice)
    decreases |s.up.wire|, |s.down.wire|
  {
    var step, t := Advance(g, s, charDevice);
    if t.waiting {
      var rest := CallReturns(g, t, charDevice);
      ReturnsAfter(g, s, step, t, rest, charDevice);
      steps := [step] + rest;
    } else {
      ReturnsNow(g, s, step, t, charDevice);
      steps := [step];
    }
  }

  lemma {:induction false} DeadGuestWritesNothing(g: Guest, s: Session, steps: seq<Step>, charDevice: bool)
    requires Valid(g, s, steps, charDevice) && !s.ear.exit.Running?
    ensures Exec(g, s, steps, charDevice).down.frames == s.down.frames
    decreases |steps|
  {
    if steps != [] {
      DeadGuestWritesNothing(g, Apply(g, s, steps[0], charDevice), steps[1..], charDevice);
    }
  }

  lemma ReturnNeedsReply(g: Guest, s: Session, steps: seq<Step>, charDevice: bool)
    requires Framed(g) && Inv(g, s) && s.waiting && ReturnsBy(g, s, steps, charDevice)
    ensures CanReturn(s)
  {
    var t := Exec(g, s, steps, charDevice);
    RunKeepsInv(g, s, steps, charDevice);
    if !s.ear.exit.Running? {
      DeadGuestWritesNothing(g, s, steps, charDevice);
    }
  }

  /**
   * A waiting call can return without another fault if and only if its reply
   * line is written already, or the guest runs and lost no more replies than
   * calls gave up.
   */
  lemma CallReturnsExactly(g: Guest, s: Session, charDevice: bool)
    requires Framed(g) && Inv(g, s) && s.waiting
    ensures (exists steps :: ReturnsBy(g, s, steps, charDevice)) <==> CanReturn(s)
  {
    if CanReturn(s) {
      var steps := CallReturns(g, s, charDevice);
    }
    forall steps | ReturnsBy(g, s, steps, charDevice) ensures CanReturn(s) {
      ReturnNeedsReply(g, s, steps, charDevice);
    }
  }

  // ------------------------------------------------------------- stale replies

  /** Two callers, of whom the first gives up before the guest has answered. */
  ghost function SecondCaller(first: string, second: string): Session {
    AfterSend(AfterExpire(AfterSend(OPENED, first, |first| + 1)), second, |second| + 1)
  }

  lemma SecondCallerIsReached(g: Guest, first: string, second: string, rest: seq<Step>, charDevice: bool)
    returns (steps: seq<Step>)
    requires OneLine(first) && OneLine(second)
    requires Valid(g, SecondCaller(first, second), rest, charDevice)
    ensures Valid(g, OPENED, steps, charDevice)
    ensures Exec(g, OPENED, steps, charDevice) == Exec(g, SecondCaller(first, second), rest, charDevice)
  {
    var a := AfterSend(OPENED, first, |first| + 1);
    var b := AfterExpire(a);
    ExecCons(g, b, Send(second, |second| + 1), rest, charDevice);
    steps := [Send(second, |second| + 1)] + rest;
    ExecCons(g, a, Expire, steps, charDevice);
    steps := [Expire] + steps;
    ExecCons(g, OPENED, Send(first, |first| + 1), steps, charDevice);
    steps := [Send(first, |first| + 1)] + steps;
  }

  lemma SecondCallerIsSound(g: Guest, first: string, second: string)
    requires OneLine(first) && OneLine(second)
    ensures Inv(g, SecondCaller(first, second))
    ensures SecondCaller(first, second).commands == [first, second]
  {
    var a := AfterSend(OPENED, first, |first| + 1);
    OpenedIsSound(g);
    SendKeepsInv(g, OPENED, first, |first| + 1);
    ExpireKeepsInv(g, a);
    SendKeepsInv(g, AfterExpire(a), second, |second| + 1);
  }

  /** No write was cut short, no read of the guest failed, and no deadline passed inside a line. */
  predicate Clean(s: Session) {
    && s.shorts == 0 && !s.hurt && true !in s.hurts && s.down.kept == s.down.cut
    && forall k :: 0 <= k < |s.results| ==> s.results[k].dropped == 0
  }

  lemma StepKeepsClean(g: Guest, s: Session, step: Step, charDevice: bool)
    requires Clean(s) && Enabled(s, step) && (step.HostByte? || step.GuestByte?)
    ensures Clean(Apply(g, s, step, charDevice))
  {
  }

  lemma {:induction false} RunKeepsClean(g: Guest, s: Session, steps: seq<Step>, charDevice: bool)
    requires Clean(s) && FaultFree(steps) && Valid(g, s, steps, charDevice)
    ensures Clean(Exec(g, s, steps, charDevice))
    decreases |steps|
  {
    if steps != [] {
      StepKeepsClean(g, s, steps[0], charDevice);
      RunKeepsClean(g, Apply(g, s, steps[0], charDevice), steps[1..], charDevice);
    }
  }

  lemma CleanLinesAreCommands(s: Session, i: nat)
    requires UpOk(s.up, s.ear, s.commands, s.shorts, s.hurts, s.hurt) && Clean(s) && i < |s.ear.lines|
    ensures i < |s.commands| && s.ear.lines[i] == s.commands[i]
  {
    assert LineOk(s.ear.lines[i], s.up.frames[i], s.hurts[i]);
    assert s.hurts[i] in s.hurts;
  }

  lemma FirstResultIsStale(g: Guest, s: Session)
    requires Inv(g, s) && Clean(s) && |s.results| == 1 && s.results[0].timeouts == 1 && Lost(s) == 0
    ensures s.results[0].own == 1
    ensures |s.ear.lines| >= 1 && s.ear.lines[0] == s.commands[0]
    ensures s.results[0].text == Respond(g, 0, s.commands[0])
  {
    SessionIsShifted(g, s, 0);
    CleanLinesAreCommands(s, 0);
  }

  /** Whatever the guest and the commands, a timeout makes the next caller return the reply to the command before. */
  lemma StaleReply(g: Guest, first: string, second: string, charDevice: bool) returns (steps: seq<Step>)
    requires Framed(g) && OneLine(first) && OneLine(second)
    ensures Valid(g, OPENED, steps, charDevice)
    ensures var s := Exec(g, OPENED, steps, charDevice);
            && s.commands == [first, second] && |s.ear.lines| >= 1 && s.ear.lines[0] == first
            && |s.results| == 1 && s.results[0].own == 1 && s.results[0].text == Respond(g, 0, first)
  {
    var s := SecondCaller(first, second);
    SecondCallerIsSound(g, first, second);
    var rest := CallReturns(g, s, charDevice);
    RunKeepsInv(g, s, rest, charDevice);
    RunKeepsClean(g, s, rest, charDevice);
    FirstResultIsStale(g, Exec(g, s, rest, charDevice));
    steps := SecondCallerIsReached(g, first, second, rest, charDevice);
  }

  /** A guest that answers "y" to every line. */
  function Terse(): Guest {
    Guest((line: string) => None, map[], "y", (action: string) => "")
  }

  lemma RanStep(g: Guest, steps: seq<Step>, s: Session, x: Step, t: Session)
    requires Ran(g, OPENED, steps, s, false) && Enabled(s, x) && t == Apply(g, s, x, false)
    ensures Ran(g, OPENED, steps + [x], t, false)
  {
    RanFurther(g, OPENED, steps, s, x, false);
  }

  // A command of one byte goes out whole.
  lemma SentWhole(s: Session, c: char, wire: string)
    requires s.up.tail == "" && s.up.wire == "" && wire == [c, '\n']
    ensures AfterSend(s, [c], 2)
         == s.(up := s.up.(wire := wire, frames := s.up.frames + [[c]]), commands := s.commands + [[c]], waiting := true)
  {
    assert "" + [c] == [c] && [c] + "\n" == wire;
  }

  // The guest reads a newline and writes k bytes of its answer.
  lemma Answer(s: Session, k: nat, down: Pipe, strays: seq<nat>)
    requires s.ear.exit.Running? && s.up.wire == "\n" && k <= 2
    requires down == Put(s.down, "y", k) && strays == s.strays + if k == 2 then [|s.down.tail|] else []
    ensures AfterGuestByte(Terse(), s, k, false)
         == s.(up := s.up.(wire := "", taken := s.up.taken + 1, cut := "", kept := ""),
               ear := Ear(s.ear.lines + [s.ear.partial], "", Running), down := down,
               written := s.written + [k == 2], strays := strays, hurts := s.hurts + [s.hurt], hurt := false)
  {
    assert "\n"[1..] == "";
  }

  // The first caller waits; the guest has read "a" and its newline and has written k bytes of its answer.
  function Asked(k: nat): Session
    requires k <= 2
  {
    var down := if k == 2 then Pipe(["y"], "", 0, "", "", "y\n") else Pipe([], "y"[..k], 0, "", "", "y"[..k]);
    Session(true, ["a"], 0, 0, [], Pipe(["a"], "", 1, "", "", ""), down, Ear(["a"], "", Running),
            [k == 2], if k == 2 then [0] else [], [false], false)
  }

  // Its newline is still to be read.
  function Heard(): Session {
    OPENED.(waiting := true, commands := ["a"], up := Pipe(["a"], "", 0, "a", "a", "\n"), ear := Ear([], "a", Running))
  }

  lemma HeardIsReached() returns (steps: seq<Step>)
    ensures Ran(Terse(), OPENED, steps, Heard(), false)
  {
    var sent := OPENED.(waiting := true, commands := ["a"], up := Pipe(["a"], "", 0, "", "", "a\n"));
    SentWhole(OPENED, 'a', "a\n");
    RanStep(Terse(), [], OPENED, Send("a", 2), sent);
    RanStep(Terse(), [Send("a", 2)], sent, GuestByte(0), Heard());
    steps := [Send("a", 2)] + [GuestByte(0)];
  }

  lemma HeardIsAnswered(k: nat)
    requires k <= 2
    ensures AfterGuestByte(Terse(), Heard(), k, false) == Asked(k)
  {
    var down := Put(FRESH_PIPE, "y", k);
    assert FRESH_PIPE.tail + "y" == "y";
    assert down.frames == Asked(k).down.frames && down.tail == Asked(k).down.tail;
    assert down.wire == Asked(k).down.wire;
    Answer(Heard(), k, Asked(k).down, Asked(k).strays);
  }

  lemma AskedIsReached(k: nat) returns (steps: seq<Step>)
    requires k <= 2
    ensures Ran(Terse(), OPENED, steps, Asked(k), false)
  {
    steps := HeardIsReached();
    HeardIsAnswered(k);
    RanStep(Terse(), steps, Heard(), GuestByte(k), Asked(k));
    steps := steps + [GuestByte(k)];
  }

  // The second caller waits; the guest has answered "b" after lost bytes, and nothing is read.
  function Garbled(): Session {
    Session(true, ["a", "b"], 0, 1, [], Pipe(["a", "b"], "", 2, "", "", ""), Pipe(["yy"], "", 0, "", "", "yy\n"),
            Ear(["a", "b"], "", Running), [false, true], [1], [false, false], false)
  }

  lemma GarbledIsReached() returns (steps: seq<Step>)
    ensures Ran(Terse(), OPENED, steps, Garbled(), false)
  {
    var g := Terse();
    steps := AskedIsReached(1);
    var late := Asked(1).(waiting := false, timeouts := 1);
    RanStep(g, steps, Asked(1), Expire, late);
    steps := steps + [Expire];
    var sent := late.(waiting := true, commands := ["a", "b"], up := Pipe(["a", "b"], "", 1, "", "", "b\n"));
    SentWhole(late, 'b', "b\n");
    assert ["a"] + ["b"] == ["a", "b"];
    RanStep(g, steps, late, Send("b", 2), sent);
    steps := steps + [Send("b", 2)];
    var heard := sent.(up := Pipe(["a", "b"], "", 1, "b", "b", "\n"), ear := Ear(["a"], "b", Running));
    RanStep(g, steps, sent, GuestByte(0), heard);
    steps := steps + [GuestByte(0)];
    assert "y"[..1] == "y" && "y" + "y" == "yy" && "yy" + "\n" == "yy\n";
    Answer(heard, 2, Garbled().down, Garbled().strays);
    RanStep(g, steps, heard, GuestByte(2), Garbled());
    steps := steps + [GuestByte(2)];
  }

  /**
   * A timeout, one lost reply, and still the wrong text: the guest got one byte of its first answer
   * out, and the second caller, for whom the second answer is meant, gets both in one line.
   */
  lemma LostReplyGarblesNext() returns (steps: seq<Step>, s: Session)
    ensures Ran(Terse(), OPENED, steps, s, false)
    ensures s.results == [Received(1, "yy", 1, 0)] && s.strays == [1]
    ensures s.written == [false, true] && Owner(s.written, 0) == 1
    ensures s.ear.lines == ["a", "b"] && s.results[0].text != Respond(Terse(), 1, "b")
  {
    var g := Terse();
    steps := GarbledIsReached();
    var first := Garbled().(down := Pipe(["yy"], "", 0, "y", "y", "y\n"));
    var both := Garbled().(down := Pipe(["yy"], "", 0, "yy", "yy", "\n"));
    RanStep(g, steps, Garbled(), HostByte, first);
    steps := steps + [HostByte];
    RanStep(g, steps, first, HostByte, both);
    steps := steps + [HostByte];
    s := Garbled().(waiting := false, results := [Received(1, "yy", 1, 0)], down := Pipe(["yy"], "", 1, "", "", ""));
    RanStep(g, steps, both, HostByte, s);
    steps := steps + [HostByte];
  }

  /** A deadline inside a line: the first caller takes the answer's byte with it, the second gets an empty line. */
  lemma DeadlineCutsReply() returns (steps: seq<Step>, s: Session)
    ensures Ran(Terse(), OPENED, steps, s, false)
    ensures s.results == [Received(1, "", 1, 1)] && s.strays == [0]
    ensures s.written == [true] && s.ear.lines == ["a"] && s.results[0].text != Respond(Terse(), 0, "a")
  {
    var g := Terse();
    steps := AskedIsReached(2);
    var half := Asked(2).(down := Pipe(["y"], "", 0, "y", "y", "\n"));
    RanStep(g, steps, Asked(2), HostByte, half);
    steps := steps + [HostByte];
    var late := half.(waiting := false, timeouts := 1, down := Pipe(["y"], "", 0, "y", "", "\n"));
    RanStep(g, steps, half, Expire, late);
    steps := steps + [Expire];
    var sent := late.(waiting := true, commands := ["a", "b"], up := Pipe(["a", "b"], "", 1, "", "", "b\n"));
    SentWhole(late, 'b', "b\n");
    assert ["a"] + ["b"] == ["a", "b"];
    RanStep(g, steps, late, Send("b", 2), sent);
    steps := steps + [Send("b", 2)];
    s := sent.(waiting := false, results := [Received(1, "", 1, 1)], down := Pipe(["y"], "", 1, "", "", ""));
    RanStep(g, steps, sent, HostByte, s);
    steps := steps + [HostByte];
  }

  /** A lost reply and no deadline: nothing that goes right from here on ends the call. */
  lemma LostReplyHangs() returns (steps: seq<Step>, s: Session)
    ensures Ran(Terse(), OPENED, steps, s, false) && s.waiting && s.ear.exit.Running?
    ensures forall more :: !ReturnsBy(Terse(), s, more, false)
  {
    steps := AskedIsReached(0);
    s := Asked(0);
    OpenedIsSound(Terse());
    RanIsSound(Terse(), OPENED, steps, s, false);
    assert s.written[..0] == [];
    CallReturnsExactly(Terse(), s, false);
  }

  // ------------------------------------------------------- a call that goes well

  lemma FirstCallIsSound(g: Guest, command: string)
    requires OneLine(command)
    ensures Inv(g, AfterSend(OPENED, command, |command| + 1)) && Clean(AfterSend(OPENED, command, |command| + 1))
  {
    OpenedIsSound(g);
    SendKeepsInv(g, OPENED, command, |command| + 1);
  }

  lemma FirstResultIsOwn(g: Guest, s: Session)
    requires Inv(g, s) && Clean(s) && |s.results| == 1 && |s.commands| == 1 && s.timeouts == 0 && Lost(s) == 0
    ensures |s.ear.lines| == 1 && s.ear.lines[0] == s.commands[0]
    ensures s.results[0].own == 0 && s.results[0].text == Respond(g, 0, s.commands[0])
  {
    assert ResultOk(s.results[0], 0, |s.commands|, s.timeouts, s.down.frames);
    SessionIsShifted(g, s, 0);
    CleanLinesAreCommands(s, 0);
  }

  /** A caller of a registered action gets what the handler of that action returns for its command. */
  lemma HandlerAnswers(g: Guest, command: string, action: string, charDevice: bool) returns (steps: seq<Step>)
    requires Framed(g) && OneLine(command) && g.parse(command) == Some(action) && action in g.handlers
    ensures Valid(g, OPENED, steps, charDevice)
    ensures var s := Exec(g, OPENED, steps, charDevice);
            && s.commands == [command] && s.timeouts == 0
            && s.results == [Received(0, g.handlers[action](0, command), 0, 0)]
  {
    var s := AfterSend(OPENED, command, |command| + 1);
    FirstCallIsSound(g, command);
    var rest := CallReturns(g, s, charDevice);
    RunKeepsInv(g, s, rest, charDevice);
    RunKeepsClean(g, s, rest, charDevice);
    var t := Exec(g, s, rest, charDevice);
    assert t.commands == [command];
    FirstResultIsOwn(g, t);
    steps := [Send(command, |command| + 1)] + rest;
    ExecCons(g, OPENED, Send(command, |command| + 1), rest, charDevice);
  }

  /** What a failed write got out stands in front of the next command: the guest hears both in one line. */
  lemma ShortSendPrecedes(command: string, n: nat, next: string)
    requires n <= |command| && OneLine(command) && OneLine(next)
    ensures Enabled(OPENED, Send(command, n)) && Enabled(AfterSend(OPENED, command, n), Send(next, |next| + 1))
    ensures var s := AfterSend(AfterSend(OPENED, command, n), next, |next| + 1);
            s.up.frames == [command[..n] + next] && s.up.wire == command[..n] + next + "\n" && s.commands == [next]
  {
    var t := AfterSend(OPENED, command, n);
    assert t.up.tail == command[..n] && t.up.wire == command[..n];
  }

  /** A failed read of the guest loses what it had of the line, and marks the line. */
  lemma ReadErrorCuts(g: Guest, s: Session, fault: Fault, charDevice: bool)
    requires s.ear.exit.Running?
    ensures Enabled(s, GuestError(fault))
    ensures var t := Apply(g, s, GuestError(fault), charDevice);
            && t.ear.partial == "" && t.ear.lines == s.ear.lines && t.up.kept == "" && t.up.cut == s.up.cut
            && (t.hurt <==> s.hurt || s.ear.partial != "")
            && (t.ear.exit == Running <==> charDevice && fault != Other)
            && t.results == s.results && t.down == s.down && t.waiting == s.waiting
  {
  }

  /**
   * What a failed read does: the start of the line is lost, and the loop goes
   * on after an end of file or an I/O error of a character device. After any
   * other error it is over, without a complaint only at an end of file.
   */
  lemma ErrorDecides(input: seq<Read>, fault: Fault, charDevice: bool)
    requires Hear(input, charDevice).exit.Running?
    ensures var e := Hear(input + [Error(fault)], charDevice);
            && e.partial == "" && e.lines == Hear(input, charDevice).lines
            && (e.exit == Running <==> charDevice && fault != Other)
            && (e.exit == Closed <==> !charDevice && fault == Eof)
  {
    assert (input + [Error(fault)])[..|input|] == input;
  }
}
