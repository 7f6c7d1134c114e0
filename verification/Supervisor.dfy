/** The process supervisor of the guest agent as a transition system.

    One mutex guards the table of tracked processes. `Deploy`, `Stop`, `Remove` and `Close`
    keep it while they wait for a process to be reaped; a monitor goroutine per OS process reaps
    it, and then asks for the mutex to decide whether to restart. A step below is one
    uninterruptible piece of that code: a critical section that never blocks, or the stretch
    between two points at which a goroutine can be descheduled. */
module Supervisor {

  const MAX_RESTARTS: nat := 5
  const MAX_BACKOFF: nat := 30  // seconds

  datatype AppState = Running | Stopped | Failed

  // Every policy string other than "always" and "on-failure" acts as Never.
  datatype Policy = Always | OnFailure | Never

  datatype Os = Live | Exited(failed: bool)

  // Where the monitor goroutine of one OS process is.
  datatype Phase =
    | Waiting                  // spawned, or inside cmd.Wait()
    | Noticed(failed: bool)    // Wait() returned, done not closed yet
    | Locking(failed: bool)    // done closed, wants the mutex
    | Sleeping(seconds: nat)   // mutex dropped for the backoff
    | Relocking                // wants the mutex again
    | Ended

  // One OS process with its done channel and its monitor; its index is its identity.
  datatype Run = Run(entry: nat, os: Os, closed: bool, phase: Phase)

  // One managedProcess; its index is its identity. `cmd` and `done` are indices of runs.
  datatype Entry = Entry(name: string, policy: Policy, cmd: nat, done: nat, state: AppState,
                         restartCount: nat, stopping: bool)

  // Who owns the mutex across steps: a call waiting in stopProcess for its victim.
  datatype Holder =
    | Free
    | InDeploy(name: string, policy: Policy, victim: nat, killed: bool)
    | InStop(victim: nat, killed: bool)
    | InRemove(victim: nat, killed: bool)
    | InClose(todo: set<string>, victim: nat, killed: bool)

  // `naps` is the history of backoff sleeps: which entry, how many seconds.
  datatype State = State(processes: map<string, nat>, entries: seq<Entry>, runs: seq<Run>,
                         holder: Holder, naps: seq<(nat, nat)>)

  datatype Step =
    | DeployCall(name: string, policy: Policy, started: bool)
    | DeployResume(started: bool)
    | StopCall(name: string)
    | StopResume
    | RemoveCall(name: string)
    | RemoveResume
    | CloseCall(name: string)
    | CloseNext(name: string)
    | CloseEnd
    | Timeout
    | Exit(run: nat, failed: bool)
    | WaitReturns(run: nat)
    | CloseDone(run: nat)
    | Inspect(run: nat)
    | Wake(run: nat)
    | Recheck(run: nat, started: bool)
    | Probe(name: string)

  const Initial := State(map[], [], [], Free, [])

  // ---------------------------------------------------------------- the steps

  predicate Tracked(s: State, e: nat)
    requires e < |s.entries|
  {
    s.entries[e].name in s.processes && s.processes[s.entries[e].name] == e
  }

  function ShouldRestart(policy: Policy, failed: bool): bool {
    match policy
    case Always => true
    case OnFailure => failed
    case Never => false
  }

  function Pow2(n: nat): nat {
    if n == 0 then 1 else 2 * Pow2(n - 1)
  }

  function Backoff(restartCount: nat): nat
    requires restartCount > 0
  {
    if Pow2(restartCount - 1) <= MAX_BACKOFF then Pow2(restartCount - 1) else MAX_BACKOFF
  }

  function WithEntry(s: State, e: nat, en: Entry): State
    requires e < |s.entries|
  {
    s.(entries := s.entries[e := en])
  }

  function WithPhase(s: State, k: nat, p: Phase): State
    requires k < |s.runs|
  {
    s.(runs := s.runs[k := s.runs[k].(phase := p)])
  }

  // The identities stored in the state exist.
  ghost predicate Linked(s: State) {
    && (forall n :: n in s.processes ==> s.processes[n] < |s.entries| && s.entries[s.processes[n]].name == n)
    && (forall e :: 0 <= e < |s.entries| ==>
          s.entries[e].cmd == s.entries[e].done < |s.runs| && s.runs[s.entries[e].cmd].entry == e)
    && (forall k :: 0 <= k < |s.runs| ==> s.runs[k].entry < |s.entries|)
    && (!s.holder.Free? ==> s.holder.victim < |s.entries|)
  }

  predicate CanResume(s: State)
    requires Linked(s)
  {
    !s.holder.Free? && s.runs[s.entries[s.holder.victim].done].closed
  }

  predicate Enabled(s: State, step: Step)
    requires Linked(s)
  {
    match step
    case DeployCall(_, _, _) => s.holder.Free?
    case StopCall(_) => s.holder.Free?
    case RemoveCall(_) => s.holder.Free?
    case CloseCall(n) => s.holder.Free? && (s.processes != map[] ==> n in s.processes)
    case DeployResume(_) => s.holder.InDeploy? && CanResume(s)
    case StopResume => s.holder.InStop? && CanResume(s)
    case RemoveResume => s.holder.InRemove? && CanResume(s)
    case CloseNext(n) => s.holder.InClose? && CanResume(s) && n in s.holder.todo && n in s.processes
    case CloseEnd => s.holder.InClose? && CanResume(s) && s.holder.todo == {}
    case Timeout => !s.holder.Free? && !s.holder.killed
    case Exit(k, _) => k < |s.runs| && s.runs[k].os.Live?
    case WaitReturns(k) => k < |s.runs| && s.runs[k].phase.Waiting? && s.runs[s.entries[s.runs[k].entry].cmd].os.Exited?
    case CloseDone(k) => k < |s.runs| && s.runs[k].phase.Noticed?
    case Inspect(k) => s.holder.Free? && k < |s.runs| && s.runs[k].phase.Locking?
    case Wake(k) => k < |s.runs| && s.runs[k].phase.Sleeping?
    case Recheck(k, _) => s.holder.Free? && k < |s.runs| && s.runs[k].phase.Relocking?
    case Probe(n) => s.holder.Free? && n in s.processes
  }

  // A call that finds `e` tracked: mark it, signal it and wait for it with the mutex held.
  function Seize(s: State, e: nat, h: Holder): State
    requires e < |s.entries|
  {
    WithEntry(s, e, s.entries[e].(stopping := true)).(holder := h)
  }

  // The part of Deploy after any previous process is gone.
  function Launch(s: State, name: string, policy: Policy, started: bool): State {
    if !started then s.(holder := Free) else
    var e, k := |s.entries|, |s.runs|;
    s.(processes := s.processes[name := e],
       entries := s.entries + [Entry(name, policy, k, k, Running, 0, false)],
       runs := s.runs + [Run(e, Live, false, Waiting)],
       holder := Free)
  }

  function Untrack(s: State, name: string): State {
    s.(processes := s.processes - {name})
  }

  function FinishStop(s: State): State
    requires Linked(s) && s.holder.InStop?
  {
    WithEntry(s, s.holder.victim, s.entries[s.holder.victim].(state := Stopped)).(holder := Free)
  }

  function FinishClose(s: State): State {
    s.(processes := map[], holder := Free)
  }

  function Expire(s: State): State
    requires !s.holder.Free?
  {
    s.(holder := s.holder.(killed := true))
  }

  function Die(s: State, k: nat, failed: bool): State
    requires k < |s.runs|
  {
    s.(runs := s.runs[k := s.runs[k].(os := Exited(failed))])
  }

  // cmd.Wait() returns for the process the entry holds at that moment.
  function Reap(s: State, k: nat): State
    requires Linked(s) && k < |s.runs| && s.runs[s.entries[s.runs[k].entry].cmd].os.Exited?
  {
    WithPhase(s, k, Noticed(s.runs[s.entries[s.runs[k].entry].cmd].os.failed))
  }

  // close(proc.done) for the channel the entry holds at that moment.
  function Announce(s: State, k: nat): State
    requires Linked(s) && k < |s.runs| && s.runs[k].phase.Noticed?
  {
    var d := s.entries[s.runs[k].entry].done;
    var failed := s.runs[k].phase.failed;
    WithPhase(s.(runs := s.runs[d := s.runs[d].(closed := true)]), k, Locking(failed))
  }

  // GetStatus finds no /proc entry for a process it believes to be running.
  function FindGone(s: State, e: nat): State
    requires e < |s.entries|
  {
    if s.entries[e].state == Running then WithEntry(s, e, s.entries[e].(state := Stopped)) else s
  }

  function Apply(s: State, step: Step): State
    requires Linked(s) && Enabled(s, step)
  {
    match step
    case DeployCall(n, p, started) =>
      if n in s.processes then Seize(s, s.processes[n], InDeploy(n, p, s.processes[n], false))
      else Launch(s, n, p, started)
    case DeployResume(started) =>
      Launch(Untrack(s, s.holder.name), s.holder.name, s.holder.policy, started)
    case StopCall(n) =>
      if n in s.processes then Seize(s, s.processes[n], InStop(s.processes[n], false)) else s
    case StopResume => FinishStop(s)
    case RemoveCall(n) =>
      if n in s.processes then Seize(s, s.processes[n], InRemove(s.processes[n], false)) else s
    case RemoveResume => Untrack(s, s.entries[s.holder.victim].name).(holder := Free)
    case CloseCall(n) =>
      if n in s.processes then Seize(s, s.processes[n], InClose(s.processes.Keys - {n}, s.processes[n], false)) else s
    case CloseNext(n) => Seize(s, s.processes[n], InClose(s.holder.todo - {n}, s.processes[n], false))
    case CloseEnd => FinishClose(s)
    case Timeout => Expire(s)
    case Exit(k, failed) => Die(s, k, failed)
    case WaitReturns(k) => Reap(s, k)
    case CloseDone(k) => Announce(s, k)
    case Inspect(k) => InspectRun(s, k)
    case Wake(k) => WithPhase(s, k, Relocking)
    case Recheck(k, started) => RecheckRun(s, k, started)
    case Probe(n) => FindGone(s, s.processes[n])
  }

  function EndRun(s: State, k: nat): State
    requires k < |s.runs|
  {
    WithPhase(s, k, Ended)
  }

  function Settle(s: State, k: nat, state: AppState): State
    requires Linked(s) && k < |s.runs|
  {
    var e := s.runs[k].entry;
    WithPhase(WithEntry(s, e, s.entries[e].(state := state)), k, Ended)
  }

  function Nap(s: State, k: nat): State
    requires Linked(s) && k < |s.runs|
  {
    var e := s.runs[k].entry;
    var n := s.entries[e].restartCount + 1;
    WithPhase(WithEntry(s, e, s.entries[e].(restartCount := n)), k, Sleeping(Backoff(n)))
    .(naps := s.naps + [(e, Backoff(n))])
  }

  function Respawn(s: State, k: nat): State
    requires Linked(s) && k < |s.runs|
  {
    var e, j := s.runs[k].entry, |s.runs|;
    var s' := WithPhase(WithEntry(s, e, s.entries[e].(cmd := j, done := j, state := Running)), k, Ended);
    s'.(runs := s'.runs + [Run(e, Live, false, Waiting)])
  }

  // monitorProcess from its first Lock to the matching Unlock.
  function InspectRun(s: State, k: nat): State
    requires Linked(s) && k < |s.runs| && s.runs[k].phase.Locking?
  {
    var en := s.entries[s.runs[k].entry];
    var failed := s.runs[k].phase.failed;
    if !Tracked(s, s.runs[k].entry) then EndRun(s, k)
    else if en.stopping || !ShouldRestart(en.policy, failed) then Settle(s, k, if failed then Failed else Stopped)
    else if en.restartCount >= MAX_RESTARTS then Settle(s, k, Failed)
    else Nap(s, k)
  }

  // monitorProcess from its second Lock to its end, with restartProcess inlined.
  function RecheckRun(s: State, k: nat, started: bool): State
    requires Linked(s) && k < |s.runs|
  {
    if !Tracked(s, s.runs[k].entry) || s.entries[s.runs[k].entry].stopping then EndRun(s, k)
    else if !started then Settle(s, k, Failed)
    else Respawn(s, k)
  }

  // ---------------------------------------------------------------- the invariant

  // What a monitor's phase says about its process and its channel, and that the monitor of a
  // run that is not the entry's latest has ended.
  ghost predicate Phased(s: State)
    requires Linked(s)
  {
    forall k :: 0 <= k < |s.runs| ==>
      var r := s.runs[k];
      && (!r.phase.Ended? ==> s.entries[r.entry].cmd == k)
      && (r.closed <==> !r.phase.Waiting? && !r.phase.Noticed?)
      && (r.os.Live? ==> r.phase.Waiting?)
      && (r.phase.Noticed? || r.phase.Locking? ==> r.os == Exited(r.phase.failed))
  }

  // A run whose channel is open belongs to a tracked entry.
  ghost predicate OpenIsTracked(s: State)
    requires Linked(s)
  {
    forall k :: 0 <= k < |s.runs| && !s.runs[k].closed ==> Tracked(s, s.runs[k].entry)
  }

  ghost predicate DealtWith(s: State, e: nat)
    requires Linked(s) && e < |s.entries|
  {
    s.entries[e].stopping && s.runs[s.entries[e].done].closed
  }

  ghost predicate HolderOk(s: State)
    requires Linked(s)
  {
    && (!s.holder.Free? ==> Tracked(s, s.holder.victim) && s.entries[s.holder.victim].stopping)
    && (s.holder.InDeploy? ==> s.entries[s.holder.victim].name == s.holder.name)
    && (s.holder.InClose? ==>
          && s.holder.todo <= s.processes.Keys
          && forall n :: n in s.processes && n !in s.holder.todo && s.processes[n] != s.holder.victim
               ==> DealtWith(s, s.processes[n]))
  }

  ghost predicate Excused(h: Holder, e: nat) {
    h.InClose? || (!h.Free? && h.victim == e)
  }

  // A tracked entry reads Running only while a monitor looks after it and nobody stopped it.
  ghost predicate StatesOk(s: State)
    requires Linked(s)
  {
    forall e :: 0 <= e < |s.entries| && Tracked(s, e) && s.entries[e].state == Running ==>
      && !s.runs[s.entries[e].cmd].phase.Ended?
      && (s.entries[e].stopping ==> Excused(s.holder, e))
  }

  function CountRuns(runs: seq<Run>, e: nat): nat {
    if runs == [] then 0
    else CountRuns(runs[..|runs| - 1], e) + if runs[|runs| - 1].entry == e then 1 else 0
  }

  function TotalNap(naps: seq<(nat, nat)>, e: nat): nat {
    if naps == [] then 0
    else TotalNap(naps[..|naps| - 1], e) + if naps[|naps| - 1].0 == e then naps[|naps| - 1].1 else 0
  }

  ghost predicate BetweenRuns(s: State, e: nat)
    requires Linked(s) && e < |s.entries|
  {
    s.runs[s.entries[e].cmd].phase.Sleeping? || s.runs[s.entries[e].cmd].phase.Relocking?
  }

  // At most restartCount + 1 OS starts, one of them reserved while between two runs, and
  // 1 + 2 + 4 + ... seconds slept.
  ghost predicate WithinBudget(s: State, e: nat)
    requires Linked(s) && e < |s.entries|
  {
    && s.entries[e].restartCount <= MAX_RESTARTS
    && CountRuns(s.runs, e) + (if BetweenRuns(s, e) then 1 else 0) <= s.entries[e].restartCount + 1
    && TotalNap(s.naps, e) == Pow2(s.entries[e].restartCount) - 1
  }

  ghost predicate Budget(s: State)
    requires Linked(s)
  {
    forall e :: 0 <= e < |s.entries| ==> WithinBudget(s, e)
  }

  // Every sleep was for an existing entry, and far below the cap.
  ghost predicate NapsOk(s: State) {
    forall i :: 0 <= i < |s.naps| ==> s.naps[i].0 < |s.entries| && s.naps[i].1 <= 16
  }

  ghost predicate Core(s: State) {
    Linked(s) && Phased(s) && OpenIsTracked(s) && HolderOk(s) && StatesOk(s)
  }

  ghost predicate Inv(s: State) {
    Core(s) && Budget(s) && NapsOk(s)
  }

  lemma {:induction false} CountByOwner(a: seq<Run>, b: seq<Run>, e: nat)
    requires |a| == |b| && forall k :: 0 <= k < |a| ==> a[k].entry == b[k].entry
    ensures CountRuns(a, e) == CountRuns(b, e)
  {
    if a != [] {
      CountByOwner(a[..|a| - 1], b[..|b| - 1], e);
    }
  }

  lemma {:induction false} CountNobody(runs: seq<Run>, e: nat)
    requires forall k :: 0 <= k < |runs| ==> runs[k].entry != e
    ensures CountRuns(runs, e) == 0
  {
    if runs != [] {
      CountNobody(runs[..|runs| - 1], e);
    }
  }

  lemma {:induction false} NapNobody(naps: seq<(nat, nat)>, e: nat)
    requires forall k :: 0 <= k < |naps| ==> naps[k].0 != e
    ensures TotalNap(naps, e) == 0
  {
    if naps != [] {
      NapNobody(naps[..|naps| - 1], e);
    }
  }

  lemma CountAppend(runs: seq<Run>, r: Run, e: nat)
    ensures CountRuns(runs + [r], e) == CountRuns(runs, e) + if r.entry == e then 1 else 0
  {
    assert (runs + [r])[..|runs|] == runs;
  }

  lemma NapAppend(naps: seq<(nat, nat)>, n: (nat, nat), e: nat)
    ensures TotalNap(naps + [n], e) == TotalNap(naps, e) + if n.0 == e then n.1 else 0
  {
    assert (naps + [n])[..|naps|] == naps;
  }

  // Below the restart limit the cap on the backoff never binds.
  lemma BackoffUncapped(n: nat)
    requires 0 < n <= MAX_RESTARTS
    ensures Backoff(n) == Pow2(n - 1) <= 16
    ensures Pow2(n) == 2 * Pow2(n - 1)
  {
    assert Pow2(0) == 1 && Pow2(1) == 2 && Pow2(2) == 4 && Pow2(3) == 8 && Pow2(4) == 16;
  }

  lemma BudgetKeptFor(s: State, t: State, e: nat)
    requires Linked(s) && Linked(t) && e < |s.entries| && e < |t.entries| && WithinBudget(s, e)
    requires |s.runs| == |t.runs| && forall k :: 0 <= k < |s.runs| ==> s.runs[k].entry == t.runs[k].entry
    requires s.naps == t.naps && s.entries[e].restartCount == t.entries[e].restartCount
    requires BetweenRuns(t, e) ==> BetweenRuns(s, e)
    ensures WithinBudget(t, e)
  {
    CountByOwner(s.runs, t.runs, e);
  }

  // The budget is untouched by a step that keeps owners, counts and naps, and starts no new gap.
  lemma BudgetKept(s: State, t: State)
    requires Linked(s) && Linked(t) && Budget(s)
    requires |s.entries| == |t.entries| && |s.runs| == |t.runs| && s.naps == t.naps
    requires forall k :: 0 <= k < |s.runs| ==> s.runs[k].entry == t.runs[k].entry
    requires forall e :: 0 <= e < |s.entries| ==> s.entries[e].restartCount == t.entries[e].restartCount
    requires forall e :: 0 <= e < |s.entries| && BetweenRuns(t, e) ==> BetweenRuns(s, e)
    ensures Budget(t)
  {
    forall e | 0 <= e < |s.entries| ensures WithinBudget(t, e) {
      BudgetKeptFor(s, t, e);
    }
  }

  // Core of the pieces of Apply, conjunct by conjunct, then Budget of the same pieces.

  // Entries are written, but keep name, process and channel; nothing else changes but the holder.
  ghost predicate SameShape(s: State, t: State) {
    && t.processes == s.processes && t.runs == s.runs && |t.entries| == |s.entries|
    && (!t.holder.Free? ==> t.holder.victim < |s.entries|)
    && (forall e :: 0 <= e < |s.entries| ==> SameIdentity(s.entries[e], t.entries[e]))
  }

  predicate SameIdentity(a: Entry, b: Entry) {
    a.name == b.name && a.cmd == b.cmd && a.done == b.done
  }

  lemma SameShapeKeeps(s: State, t: State)
    requires Linked(s) && Phased(s) && OpenIsTracked(s) && SameShape(s, t)
    ensures Linked(t) && Phased(t) && OpenIsTracked(t)
  {
    LinkedByShape(s, t);
  }

  lemma LinkedByShape(s: State, t: State)
    requires Linked(s) && SameShape(s, t)
    ensures Linked(t)
  {
    forall n | n in t.processes ensures t.processes[n] < |t.entries| && t.entries[t.processes[n]].name == n {
      assert SameIdentity(s.entries[s.processes[n]], t.entries[s.processes[n]]);
    }
  }

  // Runs are written, but keep their owners, and closed channels stay closed.
  ghost predicate SameOwners(s: State, t: State) {
    && t.processes == s.processes && t.entries == s.entries && t.holder == s.holder && |t.runs| == |s.runs|
    && (forall k :: 0 <= k < |s.runs| ==> t.runs[k].entry == s.runs[k].entry)
    && (forall k :: 0 <= k < |s.runs| && s.runs[k].closed ==> t.runs[k].closed)
  }

  lemma SameOwnersKeep(s: State, t: State)
    requires Linked(s) && OpenIsTracked(s) && HolderOk(s) && SameOwners(s, t)
    ensures Linked(t) && OpenIsTracked(t) && HolderOk(t)
  {
  }

  // An entry that needs its monitor still has it.
  lemma StatesByOwners(s: State, t: State)
    requires Linked(s) && Linked(t) && StatesOk(s) && SameOwners(s, t)
    requires forall k :: 0 <= k < |s.runs| && t.runs[k].phase.Ended? ==> s.runs[k].phase.Ended?
    ensures StatesOk(t)
  {
  }

  lemma SeizeKeepsHolder(s: State, e: nat, h: Holder)
    requires Linked(s) && HolderOk(s) && e < |s.entries| && Tracked(s, e) && Linked(Seize(s, e, h))
    requires !h.Free? && h.victim == e && (h.InDeploy? ==> h.name == s.entries[e].name)
    requires s.holder.Free? || (s.holder.InClose? && h.InClose? && CanResume(s))
    requires h.InClose? ==>
      h.todo == (if s.holder.InClose? then s.holder.todo else s.processes.Keys) - {s.entries[e].name}
    ensures HolderOk(Seize(s, e, h))
  {
  }

  lemma SeizeKeepsStates(s: State, e: nat, h: Holder)
    requires Linked(s) && StatesOk(s) && e < |s.entries| && Linked(Seize(s, e, h))
    requires !h.Free? && h.victim == e && (s.holder.Free? || (s.holder.InClose? && h.InClose?))
    ensures StatesOk(Seize(s, e, h))
  {
  }

  lemma SeizeKeepsCore(s: State, e: nat, h: Holder)
    requires Core(s) && e < |s.entries| && Tracked(s, e)
    requires !h.Free? && h.victim == e && (h.InDeploy? ==> h.name == s.entries[e].name)
    requires s.holder.Free? || (s.holder.InClose? && h.InClose? && CanResume(s))
    requires h.InClose? ==>
      h.todo == (if s.holder.InClose? then s.holder.todo else s.processes.Keys) - {s.entries[e].name}
    ensures Core(Seize(s, e, h))
  {
    SameShapeKeeps(s, Seize(s, e, h));
    SeizeKeepsHolder(s, e, h);
    SeizeKeepsStates(s, e, h);
  }

  lemma LaunchKeepsLinked(s: State, name: string, policy: Policy)
    requires Linked(s)
    ensures Linked(Launch(s, name, policy, true))
  {
  }

  lemma LaunchKeepsPhased(s: State, name: string, policy: Policy)
    requires Linked(s) && Phased(s) && Linked(Launch(s, name, policy, true))
    ensures Phased(Launch(s, name, policy, true))
  {
  }

  lemma LaunchKeepsOpen(s: State, name: string, policy: Policy)
    requires Linked(s) && OpenIsTracked(s) && name !in s.processes && Linked(Launch(s, name, policy, true))
    ensures OpenIsTracked(Launch(s, name, policy, true))
  {
  }

  lemma LaunchKeepsStates(s: State, name: string, policy: Policy)
    requires Linked(s) && StatesOk(s.(holder := Free)) && Linked(Launch(s, name, policy, true))
    ensures StatesOk(Launch(s, name, policy, true))
  {
  }

  lemma LaunchKeepsCore(s: State, name: string, policy: Policy, started: bool)
    requires Linked(s) && Phased(s) && OpenIsTracked(s)
    requires name !in s.processes
    requires StatesOk(s.(holder := Free))
    ensures Core(Launch(s, name, policy, started))
  {
    if started {
      LaunchKeepsLinked(s, name, policy);
      LaunchKeepsPhased(s, name, policy);
      LaunchKeepsOpen(s, name, policy);
      LaunchKeepsStates(s, name, policy);
    } else {
      SameShapeKeeps(s, Launch(s, name, policy, started));
    }
  }

  lemma LaunchKeepsBudget(s: State, name: string, policy: Policy)
    requires Linked(s) && Budget(s) && NapsOk(s)
    ensures Linked(Launch(s, name, policy, true)) && Budget(Launch(s, name, policy, true))
  {
    var t := Launch(s, name, policy, true);
    forall e | 0 <= e < |t.entries| ensures WithinBudget(t, e) {
      CountAppend(s.runs, t.runs[|s.runs|], e);
      if e == |s.entries| {
        CountNobody(s.runs, e);
        NapNobody(s.naps, e);
      } else {
        assert t.entries[e] == s.entries[e] && WithinBudget(s, e);
      }
    }
  }

  lemma LaunchKeepsInv(s: State, name: string, policy: Policy, started: bool)
    requires Linked(s) && Phased(s) && OpenIsTracked(s) && Budget(s) && NapsOk(s)
    requires name !in s.processes
    requires StatesOk(s.(holder := Free))
    ensures Inv(Launch(s, name, policy, started))
  {
    LaunchKeepsCore(s, name, policy, started);
    if started {
      LaunchKeepsBudget(s, name, policy);
    } else {
      BudgetKept(s, Launch(s, name, policy, started));
    }
  }

  lemma SeizeKeepsInv(s: State, e: nat, h: Holder)
    requires Inv(s) && e < |s.entries| && Tracked(s, e)
    requires !h.Free? && h.victim == e && (h.InDeploy? ==> h.name == s.entries[e].name)
    requires s.holder.Free? || (s.holder.InClose? && h.InClose? && CanResume(s))
    requires h.InClose? ==>
      h.todo == (if s.holder.InClose? then s.holder.todo else s.processes.Keys) - {s.entries[e].name}
    ensures Inv(Seize(s, e, h))
  {
    SeizeKeepsCore(s, e, h);
    BudgetKept(s, Seize(s, e, h));
  }

  lemma UntrackKeeps(s: State)
    requires Core(s) && CanResume(s) && !s.holder.InClose?
    ensures
      var t := Untrack(s, s.entries[s.holder.victim].name);
      Linked(t) && Phased(t) && OpenIsTracked(t) && StatesOk(t.(holder := Free))
  {
  }

  lemma FinishStopKeepsStates(s: State)
    requires Linked(s) && HolderOk(s) && StatesOk(s) && s.holder.InStop? && Linked(FinishStop(s))
    ensures StatesOk(FinishStop(s))
  {
  }

  lemma FinishStopKeepsCore(s: State)
    requires Core(s) && CanResume(s) && s.holder.InStop?
    ensures Core(FinishStop(s))
  {
    SameShapeKeeps(s, FinishStop(s));
    FinishStopKeepsStates(s);
  }

  lemma FinishCloseKeepsCore(s: State)
    requires Core(s) && CanResume(s) && s.holder.InClose? && s.holder.todo == {}
    ensures Core(FinishClose(s))
  {
    assert forall k :: 0 <= k < |s.runs| && !s.runs[k].closed ==> s.entries[s.runs[k].entry].done == k;
  }

  lemma ExpireKeepsCore(s: State)
    requires Core(s) && !s.holder.Free?
    ensures Core(Expire(s))
  {
    SameShapeKeeps(s, Expire(s));
  }

  lemma DieKeepsPhased(s: State, k: nat, failed: bool)
    requires Linked(s) && Phased(s) && k < |s.runs| && s.runs[k].os.Live? && Linked(Die(s, k, failed))
    ensures Phased(Die(s, k, failed))
  {
  }

  lemma DieKeepsCore(s: State, k: nat, failed: bool)
    requires Core(s) && k < |s.runs| && s.runs[k].os.Live?
    ensures Core(Die(s, k, failed))
  {
    SameOwnersKeep(s, Die(s, k, failed));
    StatesByOwners(s, Die(s, k, failed));
    DieKeepsPhased(s, k, failed);
  }

  lemma ReapKeepsPhased(s: State, k: nat)
    requires Linked(s) && Phased(s) && Enabled(s, WaitReturns(k)) && Linked(Reap(s, k))
    ensures Phased(Reap(s, k))
  {
    assert s.entries[s.runs[k].entry].cmd == k;
  }

  lemma ReapKeepsCore(s: State, k: nat)
    requires Core(s) && Enabled(s, WaitReturns(k))
    ensures Core(Reap(s, k))
  {
    SameOwnersKeep(s, Reap(s, k));
    StatesByOwners(s, Reap(s, k));
    ReapKeepsPhased(s, k);
  }

  lemma AnnounceKeepsPhased(s: State, k: nat)
    requires Linked(s) && Phased(s) && k < |s.runs| && s.runs[k].phase.Noticed? && Linked(Announce(s, k))
    ensures Phased(Announce(s, k))
  {
    assert s.entries[s.runs[k].entry].done == k;
  }

  lemma AnnounceKeepsCore(s: State, k: nat)
    requires Core(s) && k < |s.runs| && s.runs[k].phase.Noticed?
    ensures Core(Announce(s, k))
  {
    SameOwnersKeep(s, Announce(s, k));
    StatesByOwners(s, Announce(s, k));
    AnnounceKeepsPhased(s, k);
  }

  // A monitor past its first critical section goes on to a phase in which its channel is closed.
  lemma MoveKeepsPhased(s: State, k: nat, p: Phase)
    requires Linked(s) && Phased(s) && k < |s.runs|
    requires s.runs[k].phase.Locking? || s.runs[k].phase.Sleeping? || s.runs[k].phase.Relocking?
    requires p.Sleeping? || p.Relocking? || p.Ended?
    requires Linked(WithPhase(s, k, p))
    ensures Phased(WithPhase(s, k, p))
  {
  }

  // It goes to sleep or wakes up.
  lemma MoveKeepsCore(s: State, k: nat, p: Phase)
    requires Core(s) && k < |s.runs| && (p.Sleeping? || p.Relocking?)
    requires s.runs[k].phase.Locking? || s.runs[k].phase.Sleeping?
    ensures Core(WithPhase(s, k, p))
  {
    SameOwnersKeep(s, WithPhase(s, k, p));
    StatesByOwners(s, WithPhase(s, k, p));
    MoveKeepsPhased(s, k, p);
  }

  lemma FindGoneKeepsHolder(s: State, e: nat)
    requires Linked(s) && HolderOk(s) && e < |s.entries| && Linked(FindGone(s, e))
    ensures HolderOk(FindGone(s, e))
  {
  }

  lemma FindGoneKeepsStates(s: State, e: nat)
    requires Linked(s) && StatesOk(s) && e < |s.entries| && Linked(FindGone(s, e))
    ensures StatesOk(FindGone(s, e))
  {
  }

  lemma FindGoneKeepsCore(s: State, e: nat)
    requires Core(s) && e < |s.entries|
    ensures Core(FindGone(s, e))
  {
    SameShapeKeeps(s, FindGone(s, e));
    FindGoneKeepsHolder(s, e);
    FindGoneKeepsStates(s, e);
  }

  lemma EndRunKeepsStates(s: State, k: nat)
    requires Linked(s) && StatesOk(s) && s.holder.Free? && k < |s.runs| && Linked(EndRun(s, k))
    requires !Tracked(s, s.runs[k].entry) || s.entries[s.runs[k].entry].state != Running
    ensures StatesOk(EndRun(s, k))
  {
  }

  lemma EndRunKeepsCore(s: State, k: nat)
    requires Core(s) && s.holder.Free? && k < |s.runs| && (s.runs[k].phase.Locking? || s.runs[k].phase.Relocking?)
    requires !Tracked(s, s.runs[k].entry) || s.entries[s.runs[k].entry].stopping || s.entries[s.runs[k].entry].state != Running
    ensures Core(EndRun(s, k))
  {
    SameOwnersKeep(s, EndRun(s, k));
    MoveKeepsPhased(s, k, Ended);
    EndRunKeepsStates(s, k);
  }

  // Writing the fields of one entry that are no part of its identity, with the mutex free.
  lemma WriteKeepsCore(s: State, e: nat, en: Entry)
    requires Core(s) && s.holder.Free? && e < |s.entries| && SameIdentity(s.entries[e], en)
    requires en.stopping == s.entries[e].stopping && (en.state == s.entries[e].state || en.state != Running)
    ensures Core(WithEntry(s, e, en))
  {
    SameShapeKeeps(s, WithEntry(s, e, en));
    WriteKeepsStates(s, e, en);
  }

  lemma WriteKeepsStates(s: State, e: nat, en: Entry)
    requires Linked(s) && StatesOk(s) && s.holder.Free? && e < |s.entries| && SameIdentity(s.entries[e], en)
    requires en.stopping == s.entries[e].stopping && (en.state == s.entries[e].state || en.state != Running)
    requires Linked(WithEntry(s, e, en))
    ensures StatesOk(WithEntry(s, e, en))
  {
  }

  lemma SettleKeepsCore(s: State, k: nat, state: AppState)
    requires Core(s) && s.holder.Free? && k < |s.runs| && (s.runs[k].phase.Locking? || s.runs[k].phase.Relocking?)
    requires state != Running
    ensures Core(Settle(s, k, state))
  {
    var e := s.runs[k].entry;
    WriteKeepsCore(s, e, s.entries[e].(state := state));
    EndRunKeepsCore(WithEntry(s, e, s.entries[e].(state := state)), k);
  }

  lemma NapKeepsCore(s: State, k: nat)
    requires Core(s) && s.holder.Free? && k < |s.runs| && s.runs[k].phase.Locking?
    ensures Core(Nap(s, k))
  {
    var e := s.runs[k].entry;
    var n := s.entries[e].restartCount + 1;
    WriteKeepsCore(s, e, s.entries[e].(restartCount := n));
    MoveKeepsCore(WithEntry(s, e, s.entries[e].(restartCount := n)), k, Sleeping(Backoff(n)));
    RecordKeepsCore(WithPhase(WithEntry(s, e, s.entries[e].(restartCount := n)), k, Sleeping(Backoff(n))), (e, Backoff(n)));
  }

  lemma RecordKeepsCore(s: State, nap: (nat, nat))
    requires Core(s)
    ensures Core(s.(naps := s.naps + [nap]))
  {
    SameShapeKeeps(s, s.(naps := s.naps + [nap]));
  }

  lemma RespawnKeepsLinked(s: State, k: nat)
    requires Linked(s) && k < |s.runs|
    ensures Linked(Respawn(s, k))
  {
  }

  lemma RespawnKeepsPhased(s: State, k: nat)
    requires Linked(s) && Phased(s) && k < |s.runs| && s.runs[k].phase.Relocking? && Linked(Respawn(s, k))
    ensures Phased(Respawn(s, k))
  {
    var e, t := s.runs[k].entry, Respawn(s, k);
    forall j | 0 <= j < |t.runs| && !t.runs[j].phase.Ended? ensures t.entries[t.runs[j].entry].cmd == j {
      assert j < |s.runs| && s.runs[j].entry == e ==> j == k;
    }
  }

  lemma RespawnKeepsOpen(s: State, k: nat)
    requires Linked(s) && OpenIsTracked(s) && k < |s.runs| && Tracked(s, s.runs[k].entry) && Linked(Respawn(s, k))
    ensures OpenIsTracked(Respawn(s, k))
  {
  }

  lemma RespawnKeepsStates(s: State, k: nat)
    requires Linked(s) && Phased(s) && StatesOk(s) && k < |s.runs| && !s.runs[k].phase.Ended? && Linked(Respawn(s, k))
    requires s.holder.Free? && !s.entries[s.runs[k].entry].stopping
    ensures StatesOk(Respawn(s, k))
  {
    assert forall e :: 0 <= e < |s.entries| && e != s.runs[k].entry ==> s.entries[e].cmd != k;
  }

  lemma RespawnKeepsCore(s: State, k: nat)
    requires Core(s) && s.holder.Free? && k < |s.runs| && s.runs[k].phase.Relocking?
    requires Tracked(s, s.runs[k].entry) && !s.entries[s.runs[k].entry].stopping
    ensures Core(Respawn(s, k))
  {
    RespawnKeepsLinked(s, k);
    RespawnKeepsPhased(s, k);
    RespawnKeepsOpen(s, k);
    RespawnKeepsStates(s, k);
  }

  lemma NapKeepsBudget(s: State, k: nat)
    requires Linked(s) && Budget(s) && NapsOk(s) && k < |s.runs| && s.runs[k].phase.Locking?
    requires s.entries[s.runs[k].entry].cmd == k && s.entries[s.runs[k].entry].restartCount < MAX_RESTARTS
    requires Linked(Nap(s, k))
    ensures Budget(Nap(s, k)) && NapsOk(Nap(s, k))
  {
    var t := Nap(s, k);
    var e := s.runs[k].entry;
    var n := s.entries[e].restartCount + 1;
    BackoffUncapped(n);
    forall f | 0 <= f < |t.entries| ensures WithinBudget(t, f) {
      assert WithinBudget(s, f);
      CountByOwner(s.runs, t.runs, f);
      NapAppend(s.naps, (e, Backoff(n)), f);
      assert f != e ==> t.entries[f] == s.entries[f] && s.entries[f].cmd != k;
    }
  }

  lemma RespawnKeepsBudget(s: State, k: nat)
    requires Linked(s) && Budget(s) && k < |s.runs| && s.runs[k].phase.Relocking?
    requires s.entries[s.runs[k].entry].cmd == k
    requires Linked(Respawn(s, k))
    ensures Budget(Respawn(s, k))
  {
    var t := Respawn(s, k);
    var e := s.runs[k].entry;
    var mid := t.runs[..|s.runs|];
    assert t.runs == mid + [t.runs[|s.runs|]];
    forall f | 0 <= f < |t.entries| ensures WithinBudget(t, f) {
      assert WithinBudget(s, f);
      CountByOwner(s.runs, mid, f);
      CountAppend(mid, t.runs[|s.runs|], f);
      assert f != e ==> t.entries[f] == s.entries[f] && s.entries[f].cmd != k;
    }
  }

  lemma EndRunKeepsInv(s: State, k: nat)
    requires Inv(s) && s.holder.Free? && k < |s.runs| && (s.runs[k].phase.Locking? || s.runs[k].phase.Relocking?)
    requires !Tracked(s, s.runs[k].entry) || s.entries[s.runs[k].entry].stopping
    ensures Inv(EndRun(s, k))
  {
    EndRunKeepsCore(s, k);
    BudgetKept(s, EndRun(s, k));
  }

  lemma SettleKeepsInv(s: State, k: nat, state: AppState)
    requires Inv(s) && s.holder.Free? && k < |s.runs| && (s.runs[k].phase.Locking? || s.runs[k].phase.Relocking?)
    requires state != Running
    ensures Inv(Settle(s, k, state))
  {
    SettleKeepsCore(s, k, state);
    BudgetKept(s, Settle(s, k, state));
  }

  lemma InspectKeepsInv(s: State, k: nat)
    requires Inv(s) && s.holder.Free? && k < |s.runs| && s.runs[k].phase.Locking?
    ensures Inv(InspectRun(s, k))
  {
    var en, failed := s.entries[s.runs[k].entry], s.runs[k].phase.failed;
    if !Tracked(s, s.runs[k].entry) {
      EndRunKeepsInv(s, k);
    } else if en.stopping || !ShouldRestart(en.policy, failed) {
      SettleKeepsInv(s, k, if failed then Failed else Stopped);
    } else if en.restartCount >= MAX_RESTARTS {
      SettleKeepsInv(s, k, Failed);
    } else {
      NapKeepsCore(s, k);
      NapKeepsBudget(s, k);
    }
  }

  lemma RecheckKeepsInv(s: State, k: nat, started: bool)
    requires Inv(s) && s.holder.Free? && k < |s.runs| && s.runs[k].phase.Relocking?
    ensures Inv(RecheckRun(s, k, started))
  {
    if !Tracked(s, s.runs[k].entry) || s.entries[s.runs[k].entry].stopping {
      EndRunKeepsInv(s, k);
    } else if !started {
      SettleKeepsInv(s, k, Failed);
    } else {
      RespawnKeepsCore(s, k);
      RespawnKeepsBudget(s, k);
    }
  }

  lemma CallKeepsInv(s: State, step: Step)
    requires Inv(s) && Enabled(s, step)
    requires step.DeployCall? || step.StopCall? || step.RemoveCall? || step.CloseCall? || step.CloseNext?
    ensures Inv(Apply(s, step))
  {
    if step.name in s.processes {
      var e := s.processes[step.name];
      match step
      case DeployCall(n, p, _) => SeizeKeepsInv(s, e, InDeploy(n, p, e, false));
      case StopCall(_) => SeizeKeepsInv(s, e, InStop(e, false));
      case RemoveCall(_) => SeizeKeepsInv(s, e, InRemove(e, false));
      case CloseCall(n) => SeizeKeepsInv(s, e, InClose(s.processes.Keys - {n}, e, false));
      case CloseNext(n) => SeizeKeepsInv(s, e, InClose(s.holder.todo - {n}, e, false));
    } else if step.DeployCall? {
      LaunchKeepsInv(s, step.name, step.policy, step.started);
    }
  }

  lemma DeployResumeKeepsInv(s: State, started: bool)
    requires Inv(s) && CanResume(s) && s.holder.InDeploy?
    ensures Inv(Launch(Untrack(s, s.holder.name), s.holder.name, s.holder.policy, started))
  {
    UntrackKeeps(s);
    BudgetKept(s, Untrack(s, s.holder.name));
    LaunchKeepsInv(Untrack(s, s.holder.name), s.holder.name, s.holder.policy, started);
  }

  lemma StopResumeKeepsInv(s: State)
    requires Inv(s) && CanResume(s) && s.holder.InStop?
    ensures Inv(FinishStop(s))
  {
    FinishStopKeepsCore(s);
    BudgetKept(s, FinishStop(s));
  }

  lemma RemoveResumeKeepsInv(s: State)
    requires Inv(s) && CanResume(s) && s.holder.InRemove?
    ensures Inv(Untrack(s, s.entries[s.holder.victim].name).(holder := Free))
  {
    UntrackKeeps(s);
    BudgetKept(s, Untrack(s, s.entries[s.holder.victim].name).(holder := Free));
  }

  lemma CloseEndKeepsInv(s: State)
    requires Inv(s) && CanResume(s) && s.holder.InClose? && s.holder.todo == {}
    ensures Inv(FinishClose(s))
  {
    FinishCloseKeepsCore(s);
    BudgetKept(s, FinishClose(s));
  }

  lemma DieKeepsInv(s: State, k: nat, failed: bool)
    requires Inv(s) && k < |s.runs| && s.runs[k].os.Live?
    ensures Inv(Die(s, k, failed))
  {
    DieKeepsCore(s, k, failed);
    BudgetKept(s, Die(s, k, failed));
  }

  lemma ReapKeepsInv(s: State, k: nat)
    requires Inv(s) && Enabled(s, WaitReturns(k))
    ensures Inv(Reap(s, k))
  {
    ReapKeepsCore(s, k);
    BudgetKept(s, Reap(s, k));
  }

  lemma AnnounceKeepsInv(s: State, k: nat)
    requires Inv(s) && k < |s.runs| && s.runs[k].phase.Noticed?
    ensures Inv(Announce(s, k))
  {
    AnnounceKeepsCore(s, k);
    BudgetKept(s, Announce(s, k));
  }

  lemma WakeKeepsInv(s: State, k: nat)
    requires Inv(s) && k < |s.runs| && s.runs[k].phase.Sleeping?
    ensures Inv(WithPhase(s, k, Relocking))
  {
    MoveKeepsCore(s, k, Relocking);
    BudgetKept(s, WithPhase(s, k, Relocking));
  }

  lemma ExpireKeepsInv(s: State)
    requires Inv(s) && !s.holder.Free?
    ensures Inv(Expire(s))
  {
    ExpireKeepsCore(s);
    BudgetKept(s, Expire(s));
  }

  lemma FindGoneKeepsInv(s: State, e: nat)
    requires Inv(s) && e < |s.entries|
    ensures Inv(FindGone(s, e))
  {
    FindGoneKeepsCore(s, e);
    BudgetKept(s, FindGone(s, e));
  }

  lemma StepKeepsInv(s: State, step: Step)
    requires Inv(s) && Enabled(s, step)
    ensures Inv(Apply(s, step))
  {
    match step
    case DeployCall(_, _, _) => CallKeepsInv(s, step);
    case StopCall(_) => CallKeepsInv(s, step);
    case RemoveCall(_) => CallKeepsInv(s, step);
    case CloseCall(_) => CallKeepsInv(s, step);
    case CloseNext(_) => CallKeepsInv(s, step);
    case DeployResume(started) => DeployResumeKeepsInv(s, started);
    case StopResume => StopResumeKeepsInv(s);
    case RemoveResume => RemoveResumeKeepsInv(s);
    case CloseEnd => CloseEndKeepsInv(s);
    case Timeout => ExpireKeepsInv(s);
    case Exit(k, failed) => DieKeepsInv(s, k, failed);
    case WaitReturns(k) => ReapKeepsInv(s, k);
    case CloseDone(k) => AnnounceKeepsInv(s, k);
    case Inspect(k) => InspectKeepsInv(s, k);
    case Wake(k) => WakeKeepsInv(s, k);
    case Recheck(k, started) => RecheckKeepsInv(s, k, started);
    case Probe(n) => FindGoneKeepsInv(s, s.processes[n]);
  }
}
