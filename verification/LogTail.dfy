/** Reading the end of a log: the guest's readLastNLines (internal/init/init.go) and the host loop
    that prints what is new in each reading while a machine boots (waitReady in
    internal/agent/runtime/libvirt/runtime.go). */
module LogTail {
  /** The longest line, in bytes and without its newline, is one less: bufio's limit. */
  const MAX_TOKEN := 65536
  const DEFAULT_LOG_LINES := 100

  /** A reading of the log; Failed is any error answer, and for the guest a line too long to scan. */
  datatype Result = Ok(text: string) | Failed

  /** The number of lines a logs command asks for: a positive number is taken as it is. */
  function Requested(lines: int): (n: nat)
    ensures lines > 0 ==> n == lines
    ensures lines <= 0 ==> n == 100
  {
    if lines <= 0 then DEFAULT_LOG_LINES else lines
  }

  // --------------------------------------------------------- bufio.ScanLines

  /** The length of the first raw line of s. */
  function LineEnd(s: string): (k: nat)
    ensures k <= |s| && (k < |s| ==> s[k] == '\n')
    ensures forall i :: 0 <= i < k ==> s[i] != '\n'
  {
    if s == "" || s[0] == '\n' then 0 else 1 + LineEnd(s[1..])
  }

  function DropReturn(s: string): string {
    if s != "" && s[|s| - 1] == '\r' then s[..|s| - 1] else s
  }

  function AfterLine(s: string): (r: string)
    requires s != ""
    ensures |r| < |s|
  {
    if LineEnd(s) < |s| then s[LineEnd(s) + 1..] else ""
  }

  /** The lines of a file: the text after the last newline is one if not empty. */
  function Lines(s: string): seq<string>
    decreases |s|
  {
    if s == "" then [] else [DropReturn(s[..LineEnd(s)])] + Lines(AfterLine(s))
  }

  /** A raw line fills the scanner's buffer before its end is seen. */
  predicate Overlong(s: string)
    decreases |s|
  {
    s != "" && (LineEnd(s) >= MAX_TOKEN || Overlong(AfterLine(s)))
  }

  lemma LinesUnfold(s: string)
    requires s != ""
    ensures Lines(s) == [DropReturn(s[..LineEnd(s)])] + Lines(AfterLine(s))
    ensures Overlong(s) <==> LineEnd(s) >= MAX_TOKEN || Overlong(AfterLine(s))
  {
  }

  predicate NoNewline(s: string) {
    forall i :: 0 <= i < |s| ==> s[i] != '\n'
  }

  lemma LineEndAt(s: string, k: nat)
    requires k <= |s| && (forall i :: 0 <= i < k ==> s[i] != '\n') && (k < |s| ==> s[k] == '\n')
    ensures LineEnd(s) == k
  {
  }

  lemma FirstLineIs(line: string, rest: string)
    requires NoNewline(line)
    ensures var s := line + "\n" + rest;
            && Lines(s) == [DropReturn(line)] + Lines(rest)
            && (Overlong(s) <==> |line| >= MAX_TOKEN || Overlong(rest))
  {
    var s := line + "\n" + rest;
    assert forall i :: 0 <= i < |line| ==> s[i] == line[i];
    LineEndAt(s, |line|);
    assert s[..|line|] == line && s[|line| + 1..] == rest;
    LinesUnfold(s);
  }

  function Join(lines: seq<string>): string {
    if |lines| == 0 then ""
    else if |lines| == 1 then lines[0]
    else lines[0] + "\n" + Join(lines[1..])
  }

  function LastN<T>(s: seq<T>, n: nat): seq<T> {
    if |s| <= n then s else s[|s| - n..]
  }

  function Whole(content: string): string {
    Join(Lines(content))
  }

  function Tail(content: string, n: nat): Result {
    if Overlong(content) then Failed else Ok(Join(LastN(Lines(content), n)))
  }

  // --------------------------------------------------------------- the guest

  lemma {:induction false} JoinSnoc(lines: seq<string>, line: string)
    requires lines != []
    ensures Join(lines + [line]) == Join(lines) + "\n" + line
  {
    if |lines| == 1 {
      assert (lines + [line])[1..] == [line];
    } else {
      JoinSnoc(lines[1..], line);
      assert (lines + [line])[1..] == lines[1..] + [line];
    }
  }

  method JoinRing(ring: array<string>, count: nat) returns (text: string)
    requires count <= ring.Length
    ensures text == Join(ring[..count])
  {
    text := "";
    var i := 0;
    while i < count
      invariant i <= count
      invariant text == Join(ring[..i])
    {
      assert ring[..i + 1] == ring[..i] + [ring[i]];
      if i > 0 {
        JoinSnoc(ring[..i], ring[i]);
        text := text + "\n";
      }
      text := text + ring[i];
      i := i + 1;
    }
  }

  /** One line enters the ring; when it is full the oldest line leaves. */
  method Shift(ring: array<string>, count: nat, line: string) returns (now: nat)
    requires 0 < ring.Length && count <= ring.Length
    modifies ring
    ensures now == if count < ring.Length then count + 1 else count
    ensures now <= ring.Length
    ensures ring[..now] == LastN(old(ring[..count]) + [line], ring.Length)
    ensures now > 0 && ring[now - 1] == line
    ensures count < ring.Length ==> forall i :: 0 <= i < count ==> ring[i] == old(ring[i])
    ensures count == ring.Length ==> forall i :: 0 <= i < count - 1 ==> ring[i] == old(ring[i + 1])
  {
    var n := ring.Length;
    if count < n {
      ring[count] := line;
      now := count + 1;
    } else {
      forall i | 0 <= i < n - 1 {
        ring[i] := ring[i + 1];
      }
      ring[n - 1] := line;
      now := count;
    }
  }

  /** Keeping the last n of a growing sequence only needs the last n so far. */
  lemma LastNStep<T>(seen: seq<T>, x: T, n: nat)
    requires n > 0
    ensures LastN(LastN(seen, n) + [x], n) == LastN(seen + [x], n)
  {
  }

  /** The kept lines are the last ones: n of them, or all when there are fewer. */
  ghost predicate KeptLast(lines: seq<string>, kept: seq<string>, n: nat) {
    && |kept| == (if |lines| < n then |lines| else n)
    && exists dropped :: lines == dropped + kept
  }

  lemma LastNIsLast(lines: seq<string>, n: nat)
    ensures KeptLast(lines, LastN(lines, n), n)
  {
    var k := |lines| - |LastN(lines, n)|;
    assert lines == lines[..k] + LastN(lines, n);
  }

  // The lines of `seen` have been read, and `rest` is still to come.
  predicate ReadSoFar(content: string, seen: seq<string>, rest: string) {
    Lines(content) == seen + Lines(rest) && Overlong(content) == Overlong(rest)
  }

  lemma ReadNext(content: string, seen: seq<string>, rest: string)
    requires ReadSoFar(content, seen, rest) && rest != ""
    ensures LineEnd(rest) >= MAX_TOKEN ==> Overlong(content)
    ensures LineEnd(rest) < MAX_TOKEN ==>
      ReadSoFar(content, seen + [DropReturn(rest[..LineEnd(rest)])], AfterLine(rest))
  {
    LinesUnfold(rest);
    var line := DropReturn(rest[..LineEnd(rest)]);
    assert seen + ([line] + Lines(AfterLine(rest))) == (seen + [line]) + Lines(AfterLine(rest));
  }

  lemma ReadAll(content: string, seen: seq<string>)
    requires ReadSoFar(content, seen, "")
    ensures Lines(content) == seen && !Overlong(content)
  {
    assert Lines("") == [] && seen + [] == seen;
  }

  /**
   * The shifting buffer returns exactly the last n lines, or all when there are
   * fewer; callers ask for at least one. It fails on a line too long to scan.
   */
  method ReadLastNLines(content: string, n: nat) returns (r: Result)
    requires n > 0
    ensures r == Tail(content, n)
    ensures r.Failed? <==> Overlong(content)
    ensures r.Ok? ==> exists kept :: KeptLast(Lines(content), kept, n) && r.text == Join(kept)
  {
    LastNIsLast(Lines(content), n);
    var ring := new string[n](_ => "");
    var count := 0;
    var rest := content;
    ghost var seen: seq<string> := [];
    while rest != ""
      invariant count <= n && ring[..count] == LastN(seen, n)
      invariant ReadSoFar(content, seen, rest)
      decreases |rest|
    {
      var k := LineEnd(rest);
      ReadNext(content, seen, rest);
      if k >= MAX_TOKEN {
        return Failed;
      }
      var line := DropReturn(rest[..k]);
      LastNStep(seen, line, n);
      count := Shift(ring, count, line);
      seen := seen + [line];
      rest := AfterLine(rest);
    }
    ReadAll(content, seen);
    var text := JoinRing(ring, count);
    r := Ok(text);
  }

  // ---------------------------------------------------------------- the host

  /** What has been printed and how many bytes of the log it accounts for. */
  datatype Console = Console(printed: string, offset: nat)

  function Show(c: Console, r: Result): Console {
    if r.Ok? && |r.text| > c.offset
    then Console(c.printed + r.text[c.offset..], |r.text|)
    else c
  }

  function ShowAll(responses: seq<Result>): Console {
    if responses == [] then Console("", 0)
    else Show(ShowAll(responses[..|responses| - 1]), responses[|responses| - 1])
  }

  method PrintNewContent(responses: seq<Result>) returns (printed: string)
    ensures printed == ShowAll(responses).printed
  {
    printed := "";
    var logOffset: nat := 0;
    var i := 0;
    while i < |responses|
      invariant i <= |responses|
      invariant Console(printed, logOffset) == ShowAll(responses[..i])
    {
      assert responses[..i + 1][..i] == responses[..i];
      var r := responses[i];
      if r.Ok? && |r.text| > logOffset {
        printed := printed + r.text[logOffset..];
        logOffset := |r.text|;
      }
      i := i + 1;
    }
    assert responses[..|responses|] == responses;
  }

  // ------------------------------------------------------ an append-only log

  /** What the host has printed is a prefix of t as long as every reading is. */
  lemma {:induction false} ShowStaysPrefix(responses: seq<Result>, t: string)
    requires forall i :: 0 <= i < |responses| && responses[i].Ok? ==> responses[i].text <= t
    ensures ShowAll(responses).offset <= |t|
    ensures ShowAll(responses).printed == t[..ShowAll(responses).offset]
  {
    if responses != [] {
      ShowStaysPrefix(responses[..|responses| - 1], t);
    }
  }

  /** The host prints as much as the longest reading, and no more. */
  lemma {:induction false} ShowIsBounded(responses: seq<Result>, bound: nat)
    requires forall i :: 0 <= i < |responses| && responses[i].Ok? ==> |responses[i].text| <= bound
    ensures |ShowAll(responses).printed| == ShowAll(responses).offset <= bound
  {
    if responses != [] {
      ShowIsBounded(responses[..|responses| - 1], bound);
    }
  }

  lemma DropReturnGrows(p: string, q: string)
    requires p <= q
    ensures DropReturn(p) <= DropReturn(q)
  {
    if p != q {
      assert DropReturn(p) <= p <= q[..|q| - 1] <= DropReturn(q);
    }
  }

  /** Appending to a log changes at most its last, unfinished line, and only adds to it. */
  predicate Extends(before: seq<string>, after: seq<string>) {
    && |before| <= |after|
    && (forall i :: 0 <= i < |before| - 1 ==> before[i] == after[i])
    && (before != [] ==> before[|before| - 1] <= after[|before| - 1])
  }

  lemma FirstLineGrows(a: string, b: string)
    requires a != "" && a <= b
    ensures LineEnd(a) <= LineEnd(b)
    ensures a[..LineEnd(a)] <= b[..LineEnd(b)]
    ensures LineEnd(a) < |a| ==> LineEnd(a) == LineEnd(b) && AfterLine(a) <= AfterLine(b)
  {
    if LineEnd(b) < LineEnd(a) {
      assert false;
    }
    if LineEnd(a) < |a| {
      assert b[LineEnd(a)] == a[LineEnd(a)] == '\n';
    }
  }

  lemma ExtendsCons(line: string, before: seq<string>, after: seq<string>)
    requires Extends(before, after)
    ensures Extends([line] + before, [line] + after)
  {
  }

  lemma UnfinishedLine(s: string)
    requires s != "" && LineEnd(s) == |s|
    ensures Lines(s) == [DropReturn(s)]
    ensures Overlong(s) <==> |s| >= MAX_TOKEN
  {
    assert s[..|s|] == s;
    assert AfterLine(s) == "" && Lines("") == [] && !Overlong("");
  }

  lemma ExtendsOne(line: string, after: seq<string>)
    requires after != [] && line <= after[0]
    ensures Extends([line], after)
  {
  }

  lemma FirstLineCut(a: string, b: string)
    requires a != "" && a <= b && LineEnd(a) == |a|
    ensures Extends(Lines(a), Lines(b))
    ensures Overlong(a) ==> Overlong(b)
  {
    FirstLineGrows(a, b);
    UnfinishedLine(a);
    assert a[..LineEnd(a)] == a;
    DropReturnGrows(a, b[..LineEnd(b)]);
    ExtendsOne(DropReturn(a), Lines(b));
  }

  lemma FirstLineSame(a: string, b: string)
    requires a != "" && a <= b && LineEnd(a) < |a|
    ensures LineEnd(b) == LineEnd(a) && b[..LineEnd(b)] == a[..LineEnd(a)] && AfterLine(a) <= AfterLine(b)
  {
    FirstLineGrows(a, b);
  }

  lemma ExtendsBoth(line: string, before: seq<string>, after: seq<string>, a: seq<string>, b: seq<string>)
    requires Extends(before, after) && a == [line] + before && b == [line] + after
    ensures Extends(a, b)
  {
    ExtendsCons(line, before, after);
  }

  lemma {:induction false} AppendingExtends(a: string, b: string)
    requires a <= b
    ensures Extends(Lines(a), Lines(b))
    ensures Overlong(a) ==> Overlong(b)
    decreases |a|
  {
    if a == "" {
      assert Lines(a) == [];
    } else if LineEnd(a) == |a| {
      FirstLineCut(a, b);
    } else {
      FirstLineSame(a, b);
      AppendingExtends(AfterLine(a), AfterLine(b));
      LinesUnfold(a);
      LinesUnfold(b);
      ExtendsBoth(DropReturn(a[..LineEnd(a)]), Lines(AfterLine(a)), Lines(AfterLine(b)), Lines(a), Lines(b));
    }
  }

  lemma {:induction false} JoinGrows(before: seq<string>, after: seq<string>)
    requires Extends(before, after)
    ensures Join(before) <= Join(after)
  {
    if |before| > 1 {
      JoinGrows(before[1..], after[1..]);
    } else if |before| == 1 && |after| > 1 {
      assert before[0] <= after[0] <= Join(after);
    }
  }

  /** One more line makes the text longer, unless the text had no line at all. */
  lemma {:induction false} MoreLinesAreLonger(before: seq<string>, after: seq<string>)
    requires Extends(before, after) && |before| < |after| && |after| > 1
    ensures |Join(before)| < |Join(after)|
  {
    if |before| > 1 {
      MoreLinesAreLonger(before[1..], after[1..]);
    }
  }

  lemma {:induction false} LastNIsNotLonger(lines: seq<string>, n: nat)
    requires n > 0
    ensures |Join(LastN(lines, n))| <= |Join(lines)|
    ensures |lines| > n ==> |Join(LastN(lines, n))| < |Join(lines)|
  {
    if |lines| > n {
      LastNIsNotLonger(lines[1..], n);
      assert LastN(lines[1..], n) == LastN(lines, n);
    }
  }

  /** The reading of an append-only log is prefix-ordered while it has at most n lines. */
  lemma ReadingsGrow(a: string, b: string, n: nat)
    requires a <= b && !Overlong(b) && |Lines(b)| <= n
    ensures Tail(a, n).Ok? && Tail(b, n).Ok?
    ensures Tail(a, n).text <= Tail(b, n).text
    ensures Tail(b, n).text == Whole(b)
  {
    AppendingExtends(a, b);
    JoinGrows(Lines(a), Lines(b));
  }

  /** A log of more than n lines is never read whole, at any earlier moment either. */
  lemma ReadingsStayShort(a: string, b: string, n: nat)
    requires n > 0 && a <= b && |Lines(b)| > n
    ensures |Join(LastN(Lines(a), n))| < |Whole(b)|
  {
    AppendingExtends(a, b);
    JoinGrows(Lines(a), Lines(b));
    LastNIsNotLonger(Lines(a), n);
    if |Lines(a)| < |Lines(b)| {
      MoreLinesAreLonger(Lines(a), Lines(b));
    }
  }

  /** A tick of the boot loop: no answer, or an answer read when the log was `content`. */
  datatype Poll = Missed | Answered(content: string)

  function Responses(polls: seq<Poll>, n: nat): (r: seq<Result>)
    ensures |r| == |polls|
  {
    seq(|polls|, i requires 0 <= i < |polls| =>
      if polls[i].Missed? then Failed else Tail(polls[i].content, n))
  }

  /** The log only grows, and `final` is the last state the host sees. */
  predicate AppendOnly(polls: seq<Poll>, final: string) {
    && polls != [] && polls[|polls| - 1] == Answered(final)
    && forall i :: 0 <= i < |polls| && polls[i].Answered? ==> polls[i].content <= final
  }

  /** What was read of a log that still fits is a prefix of it, also if the log has since become unreadable. */
  lemma ReadingIsPrefix(a: string, b: string, n: nat)
    requires a <= b && |Lines(b)| <= n
    ensures !Overlong(a) ==> Tail(a, n) == Ok(Whole(a))
    ensures Whole(a) <= Whole(b)
  {
    AppendingExtends(a, b);
    JoinGrows(Lines(a), Lines(b));
  }

  lemma ReadingsArePrefixes(polls: seq<Poll>, final: string, n: nat)
    requires AppendOnly(polls, final) && |Lines(final)| <= n
    ensures var responses := Responses(polls, n);
            forall i :: 0 <= i < |responses| && responses[i].Ok? ==> responses[i].text <= Whole(final)
  {
    var responses := Responses(polls, n);
    forall i | 0 <= i < |responses| && responses[i].Ok?
      ensures responses[i].text <= Whole(final)
    {
      ReadingIsPrefix(polls[i].content, final, n);
    }
  }

  /** Every reading is accounted for in the end. */
  lemma {:induction false} ReadingIsShown(responses: seq<Result>, i: nat)
    requires i < |responses| && responses[i].Ok?
    ensures ShowAll(responses).offset >= |responses[i].text|
  {
    if i < |responses| - 1 {
      ReadingIsShown(responses[..|responses| - 1], i);
    }
  }

  /** The poll was answered with all lines of the log. */
  predicate ReadWhole(poll: Poll, final: string) {
    poll.Answered? && !Overlong(poll.content) && Whole(poll.content) == Whole(final)
  }

  /** A log that fits is printed whole if and only if some reading of it was. */
  lemma PrintedIfRead(polls: seq<Poll>, final: string, n: nat)
    requires AppendOnly(polls, final) && |Lines(final)| <= n
    ensures ShowAll(Responses(polls, n)).printed == Whole(final)
       <==> Whole(final) == "" || exists i :: 0 <= i < |polls| && ReadWhole(polls[i], final)
  {
    var responses := Responses(polls, n);
    ReadingsArePrefixes(polls, final, n);
    ShowStaysPrefix(responses, Whole(final));
    if i :| 0 <= i < |polls| && ReadWhole(polls[i], final) {
      ReadingIsPrefix(polls[i].content, final, n);
      ReadingIsShown(responses, i);
    } else if Whole(final) != "" {
      forall i | 0 <= i < |responses| && responses[i].Ok?
        ensures |responses[i].text| <= |Whole(final)| - 1
      {
        ReadingIsPrefix(polls[i].content, final, n);
        assert !ReadWhole(polls[i], final);
      }
      ShowIsBounded(responses, |Whole(final)| - 1);
    }
  }

  lemma LongLogIsNotPrinted(polls: seq<Poll>, final: string, n: nat)
    requires AppendOnly(polls, final) && n > 0 && |Lines(final)| > n
    ensures |ShowAll(Responses(polls, n)).printed| < |Whole(final)|
  {
    var responses := Responses(polls, n);
    ReadingsStayShort(final, final, n);
    forall i | 0 <= i < |responses| && responses[i].Ok?
      ensures |responses[i].text| <= |Whole(final)| - 1
    {
      ReadingsStayShort(polls[i].content, final, n);
    }
    ShowIsBounded(responses, |Whole(final)| - 1);
  }

  // ------------------------------------------------- a log that cannot be read

  /** Only a carriage return, which no reading shows, and perhaps the newline have been added to an unfinished line. */
  predicate OnlyReturnAdded(a: string, b: string) {
    && a != "" && a[|a| - 1] != '\r' && a[|a| - 1] != '\n'
    && (b == a + "\r" || b == a + "\r\n")
  }

  lemma ReturnEndsLine(a: string, b: string)
    requires OnlyReturnAdded(a, b) && LineEnd(a) == |a|
    ensures Lines(b) == [a] == Lines(a)
  {
    UnfinishedLine(a);
    var line := a + "\r";
    assert NoNewline(line) && DropReturn(line) == a;
    if b == line {
      assert b[..|b|] == line;
      LineEndAt(b, |b|);
      UnfinishedLine(b);
    } else {
      assert b == line + "\n" + "";
      FirstLineIs(line, "");
    }
  }

  // A text whose first line is complete.
  lemma CompleteLine(s: string) returns (line: string, rest: string)
    requires LineEnd(s) < |s|
    ensures NoNewline(line) && s == line + "\n" + rest && |rest| < |s|
  {
    line, rest := s[..LineEnd(s)], s[LineEnd(s) + 1..];
  }

  lemma ReturnAddedBehind(line: string, rest: string, a: string, b: string)
    requires a == line + "\n" + rest && OnlyReturnAdded(a, b)
    ensures OnlyReturnAdded(rest, b[|line| + 1..]) && b == line + "\n" + b[|line| + 1..]
  {
    assert a[|line|] == '\n' && a[|line| + 1..] == rest;
  }

  lemma {:induction false} ReturnIsNotShown(a: string, b: string)
    requires OnlyReturnAdded(a, b)
    ensures Lines(a) == Lines(b)
    decreases |a|
  {
    if LineEnd(a) == |a| {
      ReturnEndsLine(a, b);
    } else {
      var line, rest := CompleteLine(a);
      ReturnAddedBehind(line, rest, a, b);
      ReturnIsNotShown(rest, b[|line| + 1..]);
      FirstLineIs(line, rest);
      FirstLineIs(line, b[|line| + 1..]);
    }
  }

  lemma {:induction false} OverlongIsLong(s: string)
    requires Overlong(s)
    ensures |Whole(s)| >= MAX_TOKEN - 1
    decreases |s|
  {
    LinesUnfold(s);
    if LineEnd(s) < MAX_TOKEN {
      OverlongIsLong(AfterLine(s));
    }
  }

  /** A log of one unfinished line that can be read, and what it has become. */
  lemma LastLineReturned(a: string, b: string)
    requires a != "" && a <= b && LineEnd(a) == |a| && !Overlong(a) && Overlong(b) && Whole(a) == Whole(b)
    ensures OnlyReturnAdded(a, b)
  {
    UnfinishedLine(a);
    LinesUnfold(b);
    FirstLineGrows(a, b);
    var line := b[..LineEnd(b)];
    if |Lines(b)| > 1 {
      FirstLineCut(a, b);
      MoreLinesAreLonger(Lines(a), Lines(b));
      assert false;
    }
    assert AfterLine(b) == "";
    assert Lines(b) == [DropReturn(line)] && DropReturn(a) == DropReturn(line);
    assert |a| == MAX_TOKEN - 1 && |line| == MAX_TOKEN;
    assert line == a + "\r";
    assert b == line || b == line + "\n";
  }

  /** Lines behind a common first line. */
  lemma SameBehind(line: string, before: seq<string>, after: seq<string>)
    requires after != [] && Join([line] + before) == Join([line] + after)
    ensures before != [] && Join(before) == Join(after)
  {
    assert ([line] + after)[1..] == after && ([line] + before)[1..] == before;
    assert Join([line] + after) == line + "\n" + Join(after);
    assert before == [] ==> |Join([line] + before)| == |line|;
    assert Join([line] + before) == line + "\n" + Join(before);
    assert (line + "\n" + Join(after))[|line| + 1..] == Join(after);
    assert (line + "\n" + Join(before))[|line| + 1..] == Join(before);
  }

  // A text whose first line is complete, and what it has become.
  lemma CompleteLines(a: string, b: string) returns (line: string, rest: string, more: string)
    requires a <= b && LineEnd(a) < |a|
    ensures NoNewline(line) && a == line + "\n" + rest && b == line + "\n" + more && rest <= more && |rest| < |a|
  {
    line, rest := CompleteLine(a);
    more := b[|line| + 1..];
    assert b[..|line| + 1] == a[..|line| + 1] == line + "\n";
  }

  // The first line is complete, and the rest of the log reads the same.
  lemma BehindFirstLine(line: string, a: string, b: string)
    requires NoNewline(line) && a <= b
    requires !Overlong(line + "\n" + a) && Overlong(line + "\n" + b)
    requires Whole(line + "\n" + a) == Whole(line + "\n" + b)
    ensures !Overlong(a) && Overlong(b) && Whole(a) == Whole(b)
  {
    FirstLineIs(line, a);
    FirstLineIs(line, b);
    LinesUnfold(b);
    SameBehind(DropReturn(line), Lines(a), Lines(b));
  }

  lemma ReturnAddedBefore(line: string, a: string, b: string)
    requires OnlyReturnAdded(a, b)
    ensures OnlyReturnAdded(line + "\n" + a, line + "\n" + b)
  {
    assert line + "\n" + (a + "\r") == (line + "\n" + a) + "\r";
    assert line + "\n" + (a + "\r\n") == (line + "\n" + a) + "\r\n";
  }

  /** Of an unreadable log a reading had all lines only if since then nothing that shows was added. */
  lemma {:induction false} ReadBeforeReturn(a: string, b: string)
    requires a <= b && !Overlong(a) && Overlong(b) && Whole(a) == Whole(b)
    ensures OnlyReturnAdded(a, b)
    decreases |a|
  {
    if a == "" {
      OverlongIsLong(b);
    } else if LineEnd(a) == |a| {
      LastLineReturned(a, b);
    } else {
      var line, rest, more := CompleteLines(a, b);
      BehindFirstLine(line, rest, more);
      ReadBeforeReturn(rest, more);
      ReturnAddedBefore(line, rest, more);
    }
  }

  predicate ReadEarlier(poll: Poll, final: string) {
    poll.Answered? && !Overlong(poll.content) && OnlyReturnAdded(poll.content, final)
  }

  /** Every line is short enough for the scanner, or the only one that is not was read a carriage return earlier. */
  predicate Readable(polls: seq<Poll>, final: string) {
    || !Overlong(final)
    || exists i :: 0 <= i < |polls| && ReadEarlier(polls[i], final)
  }

  lemma ReadableIsRead(polls: seq<Poll>, final: string)
    requires AppendOnly(polls, final)
    ensures Readable(polls, final) <==> Whole(final) == "" || exists i :: 0 <= i < |polls| && ReadWhole(polls[i], final)
  {
    if !Overlong(final) {
      assert ReadWhole(polls[|polls| - 1], final);
    } else {
      OverlongIsLong(final);
      forall i | 0 <= i < |polls|
        ensures ReadWhole(polls[i], final) <==> ReadEarlier(polls[i], final)
      {
        if ReadWhole(polls[i], final) {
          ReadBeforeReturn(polls[i].content, final);
        } else if ReadEarlier(polls[i], final) {
          ReturnIsNotShown(polls[i].content, final);
        }
      }
    }
  }

  /**
   * However the log is cut into readings and whichever readings fail, the
   * slices printed add up to the whole log if and only if it never has more
   * lines than one reading asks for and is readable.
   */
  lemma PrintedIsWhole(polls: seq<Poll>, final: string, lines: int)
    requires AppendOnly(polls, final)
    ensures ShowAll(Responses(polls, Requested(lines))).printed == Whole(final)
       <==> |Lines(final)| <= Requested(lines) && Readable(polls, final)
  {
    if |Lines(final)| <= Requested(lines) {
      PrintedIfRead(polls, final, Requested(lines));
      ReadableIsRead(polls, final);
    } else {
      LongLogIsNotPrinted(polls, final, Requested(lines));
    }
  }

  /** A line is too long for the scanner from 65536 characters on. */
  lemma OneLineIsReadable(s: string)
    requires NoNewline(s) && s != ""
    ensures Overlong(s) <==> |s| >= 65536
  {
    LineEndAt(s, |s|);
    UnfinishedLine(s);
  }

  predicate MakesText(s: string) {
    && (s == Whole(s) || s == Whole(s) + "\n")
    && (Lines(s) == [] <==> s == "")
  }

  lemma JoinCons(line: string, lines: seq<string>)
    ensures Join([line] + lines) == if lines == [] then line else line + "\n" + Join(lines)
  {
    assert ([line] + lines)[1..] == lines;
  }

  lemma WholeAhead(line: string, rest: string)
    requires NoNewline(line) && '\r' !in line && (Lines(rest) == [] <==> rest == "")
    ensures Whole(line + "\n" + rest) == if rest == "" then line else line + "\n" + Whole(rest)
    ensures Lines(line + "\n" + rest) != []
  {
    FirstLineIs(line, rest);
    assert line != "" ==> line[|line| - 1] in line;
    JoinCons(line, Lines(rest));
  }

  lemma NewlineLast(line: string, text: string)
    ensures line + "\n" + (text + "\n") == (line + "\n" + text) + "\n"
  {
  }

  lemma LineAhead(line: string, rest: string)
    requires NoNewline(line) && '\r' !in line && MakesText(rest)
    ensures MakesText(line + "\n" + rest)
  {
    WholeAhead(line, rest);
    NewlineLast(line, Whole(rest));
    if rest == "" {
      assert line + "\n" + rest == line + "\n";
    }
  }

  /** Joining the lines of a text without carriage returns gives it back, but for a last newline. */
  lemma {:induction false} LinesMakeText(s: string)
    requires '\r' !in s
    ensures s == Whole(s) || s == Whole(s) + "\n"
    ensures Lines(s) == [] <==> s == ""
    decreases |s|
  {
    if s == "" {
    } else if LineEnd(s) == |s| {
      UnfinishedLine(s);
      assert s[|s| - 1] in s;
    } else {
      var line, rest := CompleteLine(s);
      assert forall c :: c in line || c in rest ==> c in s;
      LinesMakeText(rest);
      LineAhead(line, rest);
    }
  }

  /** A log of k lines. */
  function Repeated(k: nat): string {
    if k == 0 then "" else "x" + "\n" + Repeated(k - 1)
  }

  lemma {:induction false} RepeatedLines(k: nat)
    ensures |Lines(Repeated(k))| == k && !Overlong(Repeated(k))
  {
    if k > 0 {
      RepeatedLines(k - 1);
      FirstLineIs("x", Repeated(k - 1));
    }
  }

  /** The boot loop asks for no number of lines: a longer log is not printed whole, in whatever readings it comes. */
  lemma LongBootLog(polls: seq<Poll>, k: nat)
    requires k > DEFAULT_LOG_LINES && AppendOnly(polls, Repeated(k))
    ensures ShowAll(Responses(polls, Requested(0))).printed != Whole(Repeated(k))
  {
    RepeatedLines(k);
    PrintedIsWhole(polls, Repeated(k), 0);
  }

  /** A run: one line too long for the scanner, and nothing of the log is printed. */
  lemma OverlongBootLog()
    ensures var final := "x" + "\n" + seq(MAX_TOKEN, _ => 'x');
            && AppendOnly([Answered(final)], final)
            && ShowAll(Responses([Answered(final)], Requested(0))).printed == "" != Whole(final)
  {
    var rest := seq(MAX_TOKEN, _ => 'x');
    var final := "x" + "\n" + rest;
    LineEndAt(rest, MAX_TOKEN);
    FirstLineIs("x", rest);
    OverlongIsLong(final);
    assert Responses([Answered(final)], Requested(0)) == [Failed];
    assert [Failed][..0] == [];
  }
}
