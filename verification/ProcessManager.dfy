/** The supervisor as an object whose fields are updated in place. A call or a monitor goroutine is
    one method; what the rest of the system does meanwhile is an argument, `turns`, and stands for
    every interleaving. Whatever it is, the call amounts to a run of the transition system, so that
    its theorems apply. */
module ProcessManagers {
  import opened Options
  import opened Paths
  import opened Restarts
  import opened Supervisor
  import opened SupervisorProperties

  // The state after GetStatus has looked at the process of entry e, or of all apps in `names`; the
  // pids in `gone` have no /proc entry.
  function Looked(s: State, e: nat, gone: set<nat>): State {
    if e < |s.entries| && s.entries[e].state == Running && s.entries[e].cmd in gone then FindGone(s, e) else s
  }

  ghost function LookedAt(s: State, gone: set<nat>, names: set<string>): State {
    s.(entries := seq(|s.entries|, (e: nat) requires e < |s.entries| =>
      if Tracked(s, e) && s.entries[e].name in names && s.entries[e].cmd in gone && s.entries[e].state == Running
      then s.entries[e].(state := Stopped) else s.entries[e]))
  }

  lemma LookedAtNone(s: State, gone: set<nat>)
    ensures LookedAt(s, gone, {}) == s
  {
    assert LookedAt(s, gone, {}).entries == s.entries;
  }

  predicate Visited(all: set<string>, seen: set<string>, todo: set<string>) {
    todo <= all && seen == all - todo
  }

  lemma VisitOne(all: set<string>, seen: set<string>, todo: set<string>, n: string)
    requires Visited(all, seen, todo) && n in todo
    ensures n in all && Visited(all, seen + {n}, todo - {n})
  {
  }

  lemma LookedOneMore(s: State, gone: set<nat>, names: set<string>, n: string)
    requires Linked(s) && n in s.processes
    ensures Looked(LookedAt(s, gone, names), s.processes[n], gone) == LookedAt(s, gone, names + {n})
  {
    assert Looked(LookedAt(s, gone, names), s.processes[n], gone).entries == LookedAt(s, gone, names + {n}).entries;
  }

  lemma ReachedIsSound(h: seq<Step>, s: State)
    requires Reaches(h, s)
    ensures Inv(s)
  {
    RunKeepsInv(Initial, h);
  }

  lemma ReachesNext(h: seq<Step>, s: State, step: Step)
    requires Reaches(h, s) && Enabled(s, step)
    ensures Reaches(h + [step], Apply(s, step))
  {
    ReachedIsSound(h, s);
    StepKeepsInv(s, step);
    RunThen(Initial, h, step);
  }

  // The steps by their effect.

  lemma CallSeizes(h: seq<Step>, s: State, name: string)
    requires Reaches(h, s) && s.holder.Free? && name in s.processes
    ensures Reaches(h + [StopCall(name)], Seize(s, s.processes[name], InStop(s.processes[name], false)))
    ensures Reaches(h + [RemoveCall(name)], Seize(s, s.processes[name], InRemove(s.processes[name], false)))
  {
    ReachesNext(h, s, StopCall(name));
    ReachesNext(h, s, RemoveCall(name));
  }

  lemma StopFinishes(h: seq<Step>, s: State)
    requires Reaches(h, s) && s.holder.InStop? && CanResume(s)
    ensures Reaches(h + [StopResume], FinishStop(s))
  {
    ReachesNext(h, s, StopResume);
  }

  lemma RemoveFinishes(h: seq<Step>, s: State)
    requires Reaches(h, s) && s.holder.InRemove? && CanResume(s)
    ensures Reaches(h + [RemoveResume], Untrack(s, s.entries[s.holder.victim].name).(holder := Free))
  {
    ReachesNext(h, s, RemoveResume);
  }

  lemma InspectReaches(h: seq<Step>, s: State, k: nat)
    requires Reaches(h, s) && Enabled(s, Inspect(k))
    ensures Reaches(h + [Inspect(k)], InspectRun(s, k))
  {
    ReachesNext(h, s, Inspect(k));
  }

  lemma RecheckReaches(h: seq<Step>, s: State, k: nat, started: bool)
    requires Reaches(h, s) && Enabled(s, Recheck(k, started))
    ensures Reaches(h + [Recheck(k, started)], RecheckRun(s, k, started))
  {
    ReachesNext(h, s, Recheck(k, started));
  }

  // While somebody waits in stopProcess nothing but runs, and whether the kill was sent, changes.
  lemma LockFreeKeeps(s: State, step: Step)
    requires Linked(s) && !s.holder.Free? && Enabled(s, step) && LockFree(step)
    ensures
      var t := Apply(s, step);
      SameCall(s.holder, t.holder) && t.processes == s.processes && t.entries == s.entries
  {
  }

  // The turns that happen while a call waits in stopProcess: those that can, until it can go on.
  ghost function Meanwhile(s: State, turns: seq<Step>): seq<Step>
    decreases |turns|
  {
    if turns == [] || !Linked(s) || CanResume(s) then []
    else if LockFree(turns[0]) && Enabled(s, turns[0]) then [turns[0]] + Meanwhile(Apply(s, turns[0]), turns[1..])
    else Meanwhile(s, turns[1..])
  }

  // The turns that happen while the monitor of run k is not scheduled.
  ghost function Besides(s: State, turns: seq<Step>, k: nat): seq<Step>
    decreases |turns|
  {
    if turns == [] || !Linked(s) then []
    else if Enabled(s, turns[0]) && !OfMonitor(turns[0], k) then [turns[0]] + Besides(Apply(s, turns[0]), turns[1..], k)
    else Besides(s, turns[1..], k)
  }

  lemma OneMoreMeanwhile(done: seq<Step>, s: State, turns: seq<Step>, all: seq<Step>)
    requires turns != [] && Linked(s) && !CanResume(s) && done + Meanwhile(s, turns) == all
    ensures if LockFree(turns[0]) && Enabled(s, turns[0])
            then done + [turns[0]] + Meanwhile(Apply(s, turns[0]), turns[1..]) == all
            else done + Meanwhile(s, turns[1..]) == all
  {
    if LockFree(turns[0]) && Enabled(s, turns[0]) {
      var more := Meanwhile(Apply(s, turns[0]), turns[1..]);
      assert done + ([turns[0]] + more) == done + [turns[0]] + more;
    }
  }

  lemma OneMoreBesides(done: seq<Step>, s: State, turns: seq<Step>, k: nat, all: seq<Step>)
    requires turns != [] && Linked(s) && done + Besides(s, turns, k) == all
    ensures if Enabled(s, turns[0]) && !OfMonitor(turns[0], k)
            then done + [turns[0]] + Besides(Apply(s, turns[0]), turns[1..], k) == all
            else done + Besides(s, turns[1..], k) == all
  {
    if Enabled(s, turns[0]) && !OfMonitor(turns[0], k) {
      var more := Besides(Apply(s, turns[0]), turns[1..], k);
      assert done + ([turns[0]] + more) == done + [turns[0]] + more;
    }
  }

  // The next step a waiting call needs, until it can go on.
  lemma NudgeIsNear(h: seq<Step>, s: State)
    requires Reaches(h, s) && !s.holder.Free? && !CanResume(s)
    ensures Enabled(s, Nudge(s)) && LockFree(Nudge(s))
    ensures Linked(Apply(s, Nudge(s))) && !Apply(s, Nudge(s)).holder.Free?
    ensures Distance(Apply(s, Nudge(s))) < Distance(s)
  {
    ReachedIsSound(h, s);
    NudgeHelps(s);
    StepKeepsInv(s, Nudge(s));
  }

  // An app that is not tracked, or stopped and reaped, has nothing alive.
  lemma QuietIsDead(h: seq<Step>, s: State, name: string)
    requires Reaches(h, s) && Quiet(s, name)
    ensures NothingLive(s, name)
  {
    ReachedIsSound(h, s);
    QuietForever(s, [], name);
  }

  ghost predicate OnlyLive(s: State, name: string, k: nat)
    requires Linked(s)
  {
    forall j :: 0 <= j < |s.runs| && s.entries[s.runs[j].entry].name == name && s.runs[j].os.Live? ==> j == k
  }

  // The live process of an app is the one it was last started with.
  lemma LaunchedAlone(h: seq<Step>, s: State, name: string, k: nat)
    requires Reaches(h, s) && name in s.processes && s.entries[s.processes[name]].cmd == k
    ensures OnlyLive(s, name, k)
  {
    AtMostOneLiveProcess(h);
  }

  // What Deploy reads of a specification, except for what only the start of the process needs.
  datatype AppSpec = AppSpec(name: string, binary: string, policy: Policy)

  // What Deploy leaves: the fresh process is tracked and the only live one under the name, or the
  // name is free and nothing under it is alive.
  ghost predicate Deployed(processes: map<string, nat>, t: State, name: string, policy: Policy, started: bool)
    requires Linked(t)
  {
    if started then
      && |t.runs| > 0 && |t.entries| > 0 && t.processes == processes[name := |t.entries| - 1]
      && t.entries[|t.entries| - 1] == Entry(name, policy, |t.runs| - 1, |t.runs| - 1, Running, 0, false)
      && t.runs[|t.runs| - 1] == Run(|t.entries| - 1, Live, false, Waiting)
      && OnlyLive(t, name, |t.runs| - 1)
    else
      t.processes == processes - {name} && NothingLive(t, name)
  }

  lemma DeployEnds(h: seq<Step>, s: State, name: string, policy: Policy, started: bool)
    requires Reaches(h, Launch(Untrack(s, name), name, policy, started))
    ensures Deployed(s.processes, Launch(Untrack(s, name), name, policy, started), name, policy, started)
  {
    var t := Launch(Untrack(s, name), name, policy, started);
    if started {
      LaunchedAlone(h, t, name, |t.runs| - 1);
    } else {
      QuietIsDead(h, t, name);
    }
  }

  lemma NoneTrackedNoneLive(h: seq<Step>, s: State)
    requires Reaches(h, s) && s.processes == map[]
    ensures forall k :: 0 <= k < |s.runs| ==> !s.runs[k].os.Live?
  {
    ReachedIsSound(h, s);
  }

  lemma DeployResumes(s: State, name: string, policy: Policy, e: nat, started: bool)
    requires Linked(s) && CanResume(s) && SameCall(InDeploy(name, policy, e, false), s.holder)
    ensures Enabled(s, DeployResume(started))
    ensures Apply(s, DeployResume(started)) == Launch(Untrack(s, name), name, policy, started)
  {
  }

  lemma NothingToUntrack(s: State, name: string)
    requires name !in s.processes
    ensures Untrack(s, name) == s
  {
    assert s.processes - {name} == s.processes;
  }

  // ---------------------------------------------------------------- what others do to a monitor

  predicate OfMonitor(step: Step, k: nat) {
    (step.WaitReturns? || step.CloseDone? || step.Inspect? || step.Wake? || step.Recheck?) && step.run == k
  }

  // Nothing a monitor relies on: its own phase, that its run is the entry's last, how many there are.
  ghost predicate Spared(s: State, t: State, k: nat) {
    && k < |s.runs| && k < |t.runs| && t.runs[k].entry == s.runs[k].entry && t.runs[k].phase == s.runs[k].phase
    && (s.runs[k].os.Exited? ==> t.runs[k].os == s.runs[k].os)
    && s.runs[k].entry < |s.entries| && s.runs[k].entry < |t.entries|
    && var a, b := s.entries[s.runs[k].entry], t.entries[s.runs[k].entry];
       && a.cmd == k && b.cmd == k && b.name == a.name && b.policy == a.policy && b.restartCount == a.restartCount
       && CountRuns(t.runs, s.runs[k].entry) == CountRuns(s.runs, s.runs[k].entry)
  }

  lemma SparedThrough(s: State, t: State, u: State, k: nat)
    requires Spared(s, t, k) && Spared(t, u, k)
    ensures Spared(s, u, k)
  {
  }

  lemma PolicyFixed(s: State, step: Step, e: nat)
    requires Linked(s) && Enabled(s, step) && e < |s.entries|
    ensures e < |Apply(s, step).entries| && Apply(s, step).entries[e].policy == s.entries[e].policy
  {
  }

  lemma ExitFixed(s: State, step: Step, k: nat)
    requires Linked(s) && Enabled(s, step) && k < |s.runs| && s.runs[k].os.Exited?
    ensures k < |Apply(s, step).runs| && Apply(s, step).runs[k].os == s.runs[k].os
  {
  }

  // A new run belongs to a new entry or to that of the monitor that starts it.
  lemma NewRunOwner(s: State, step: Step)
    requires Linked(s) && Enabled(s, step) && |Apply(s, step).runs| > |s.runs|
    ensures
      var e := Apply(s, step).runs[|s.runs|].entry;
      e >= |s.entries| || (step.Recheck? && e == s.runs[step.run].entry)
  {
  }

  lemma CountKept(s: State, step: Step, e: nat)
    requires Linked(s) && Enabled(s, step) && e < |s.entries|
    requires !(step.Recheck? && s.runs[step.run].entry == e)
    ensures CountRuns(Apply(s, step).runs, e) == CountRuns(s.runs, e)
  {
    var t := Apply(s, step);
    StepFrame(s, step);
    if |t.runs| == |s.runs| {
      CountByOwner(s.runs, t.runs, e);
    } else {
      NewRunOwner(s, step);
      var mid := t.runs[..|s.runs|];
      assert t.runs == mid + [t.runs[|s.runs|]];
      CountByOwner(s.runs, mid, e);
      CountAppend(mid, t.runs[|s.runs|], e);
    }
  }

  lemma SparedAtFirst(h: seq<Step>, s: State, k: nat)
    requires Reaches(h, s) && k < |s.runs| && !s.runs[k].phase.Ended?
    ensures Spared(s, s, k)
  {
    ReachedIsSound(h, s);
  }

  lemma OthersSpare(h: seq<Step>, s: State, step: Step, k: nat)
    requires Reaches(h, s) && Enabled(s, step) && !OfMonitor(step, k) && k < |s.runs| && !s.runs[k].phase.Ended?
    ensures Spared(s, Apply(s, step), k)
  {
    ReachedIsSound(h, s);
    StepKeepsInv(s, step);
    var e := s.runs[k].entry;
    SparedAtFirst(h, s, k);
    OnlyMonitor(s, step, k);
    StepFrame(s, step);
    OthersSpareChain(s, step, e);
    PolicyFixed(s, step, e);
    CountKept(s, step, e);
    if s.runs[k].os.Exited? {
      ExitFixed(s, step, k);
    }
  }

  // The monitor of the last run is the only one of its entry that has not ended.
  lemma OnlyMonitor(s: State, step: Step, k: nat)
    requires Linked(s) && Phased(s) && Enabled(s, step) && !OfMonitor(step, k) && k < |s.runs| && !s.runs[k].phase.Ended?
    ensures !MonitorStepOf(s, step, s.runs[k].entry)
  {
    assert s.entries[s.runs[k].entry].cmd == k;
  }

  // No process of the entry of run k has been started in between.
  ghost predicate Counted(s: State, t: State, k: nat) {
    && k < |s.runs| && k < |t.runs| && t.runs[k].entry == s.runs[k].entry
    && CountRuns(t.runs, s.runs[k].entry) == CountRuns(s.runs, s.runs[k].entry)
  }

  // Nor has its policy or restart count changed, nor how its process exited.
  ghost predicate Unmoved(s: State, t: State, k: nat) {
    && Counted(s, t, k) && (s.runs[k].os.Exited? ==> t.runs[k].os == s.runs[k].os)
    && s.runs[k].entry < |s.entries| && s.runs[k].entry < |t.entries|
    && t.entries[s.runs[k].entry].policy == s.entries[s.runs[k].entry].policy
    && t.entries[s.runs[k].entry].restartCount == s.entries[s.runs[k].entry].restartCount
  }

  lemma UnmovedThrough(s: State, t: State, u: State, k: nat)
    requires Unmoved(s, t, k) && Unmoved(t, u, k)
    ensures Unmoved(s, u, k)
  {
  }

  // The app is still to be kept running.
  ghost predicate Wanted(s: State, e: nat) {
    e < |s.entries| && Tracked(s, e) && !s.entries[e].stopping
  }

  // The policy asks for a restart after this exit, and there were fewer than five.
  ghost predicate Due(en: Entry, os: Os) {
    os.Exited? && Permitted(en.policy, os.failed) && en.restartCount < 5
  }

  ghost predicate RunIsDue(s: State, k: nat) {
    k < |s.runs| && s.runs[k].entry < |s.entries| && Due(s.entries[s.runs[k].entry], s.runs[k].os)
  }

  lemma DueStill(s: State, t: State, k: nat)
    requires Unmoved(s, t, k) && t.runs[k].os.Exited?
    ensures RunIsDue(t, k) <==> Due(s.entries[s.runs[k].entry], t.runs[k].os)
  {
  }

  // What the first critical section does about it.
  lemma DecisionIsDue(h: seq<Step>, s: State, k: nat)
    requires Reaches(h, s) && Enabled(s, Inspect(k))
    ensures
      var t := InspectRun(s, k);
      && k < |t.runs| && t.runs[k].entry == s.runs[k].entry && t.runs[k].os == s.runs[k].os && s.runs[k].os.Exited?
      && (t.runs[k].phase.Sleeping? || t.runs[k].phase.Ended?)
      && (t.runs[k].phase.Sleeping? ==> RunIsDue(s, k))
      && (Wanted(t, s.runs[k].entry) && RunIsDue(s, k) ==> t.runs[k].phase.Sleeping?)
  {
    ReachedIsSound(h, s);
    InspectLeaves(s, k);
    if Wanted(s, s.runs[k].entry) {
      InspectionDecides(s, k);
    } else {
      InspectionOfStopped(s, k);
    }
  }

  // A step of the monitor itself before the second critical section.
  lemma OwnStepCounts(h: seq<Step>, s: State, step: Step, k: nat)
    requires Reaches(h, s) && Enabled(s, step) && OfMonitor(step, k) && !step.Recheck? && k < |s.runs|
    ensures Counted(s, Apply(s, step), k)
    ensures !step.Inspect? ==> Unmoved(s, Apply(s, step), k)
    ensures
      match step
      case WaitReturns(_) => Apply(s, step).runs[k].phase.Noticed?
      case CloseDone(_) => Apply(s, step).runs[k].phase.Locking?
      case Inspect(_) => Apply(s, step).runs[k].phase.Sleeping? || Apply(s, step).runs[k].phase.Ended?
      case _ => Apply(s, step).runs[k].phase.Relocking?
  {
    StepFrame(s, step);
    CountKept(s, step, s.runs[k].entry);
  }

  // The app runs again, as its policy asks for, in a process that replaces run k.
  ghost predicate Succeeded(s: State, k: nat) {
    && k < |s.runs| && s.runs[k].phase.Ended? && s.runs[k].os.Exited? && s.runs[k].entry < |s.entries|
    && var e, j := s.runs[k].entry, |s.runs| - 1;
       && s.runs[j] == Run(e, Live, false, Waiting) && s.entries[e].cmd == j && s.entries[e].done == j
       && Tracked(s, e) && !s.entries[e].stopping && s.entries[e].state == Running
       && s.entries[e].restartCount <= MAX_RESTARTS && Permitted(s.entries[e].policy, s.runs[k].os.failed)
  }

  ghost predicate Settled(s: State, k: nat) {
    && k < |s.runs| && s.runs[k].entry < |s.entries|
    && (Tracked(s, s.runs[k].entry) && s.entries[s.runs[k].entry].cmd == k ==> s.entries[s.runs[k].entry].state != Running)
  }

  lemma EndedIsSettled(h: seq<Step>, s: State, k: nat)
    requires Reaches(h, s) && k < |s.runs| && s.runs[k].phase.Ended?
    ensures Settled(s, k)
  {
    ReachedIsSound(h, s);
  }

  lemma RecheckCounts(h: seq<Step>, s: State, k: nat, started: bool)
    requires Reaches(h, s) && Enabled(s, Recheck(k, started))
    ensures
      var t := RecheckRun(s, k, started);
      && k < |t.runs| && t.runs[k].entry == s.runs[k].entry && t.runs[k].phase.Ended? && t.runs[k].os == s.runs[k].os
      && (|t.runs| > |s.runs| ==> Succeeded(t, k))
      && (|t.runs| > |s.runs| <==> started && Wanted(t, s.runs[k].entry))
      && CountRuns(t.runs, s.runs[k].entry) == CountRuns(s.runs, s.runs[k].entry) + if |t.runs| > |s.runs| then 1 else 0
  {
    var t := Apply(s, Recheck(k, started));
    ReachesNext(h, s, Recheck(k, started));
    RecheckStarts(s, k, started);
    RecheckDecides(s, k, started);
    if |t.runs| > |s.runs| {
      RestartsFollowPolicy(h + [Recheck(k, started)], k);
      RestartBudget(h + [Recheck(k, started)], s.runs[k].entry);
    }
  }

  lemma RecheckStarts(s: State, k: nat, started: bool)
    requires Linked(s) && Enabled(s, Recheck(k, started))
    ensures
      var t, e := Apply(s, Recheck(k, started)), s.runs[k].entry;
      && |t.runs| <= |s.runs| + 1 && k < |t.runs| && t.runs[k] == s.runs[k].(phase := Ended) && e < |t.entries|
      && CountRuns(t.runs, e) == CountRuns(s.runs, e) + (if |t.runs| > |s.runs| then 1 else 0)
      && (|t.runs| > |s.runs| ==>
            && t.runs[|s.runs|] == Run(e, Live, false, Waiting) && t.entries[e].cmd == |s.runs| && t.entries[e].done == |s.runs|
            && Tracked(t, e) && !t.entries[e].stopping && t.entries[e].state == Running)
  {
    var t, e := Apply(s, Recheck(k, started)), s.runs[k].entry;
    var mid := t.runs[..|s.runs|];
    CountByOwner(s.runs, mid, e);
    if |t.runs| > |s.runs| {
      assert t.runs == mid + [t.runs[|s.runs|]];
      CountAppend(mid, t.runs[|s.runs|], e);
    } else {
      assert t.runs == mid;
    }
  }

  class ProcessManager {
    var processes: map<string, nat>
    var entries: seq<Entry>
    var runs: seq<Run>
    var holder: Holder
    var naps: seq<(nat, nat)>
    ghost var history: seq<Step>

    function View(): State
      reads this
    {
      State(processes, entries, runs, holder, naps)
    }

    // The object is in a state that the transition system reaches.
    ghost predicate Sound()
      reads this
    {
      Reaches(history, View())
    }

    constructor ()
      ensures View() == Initial && Sound()
    {
      processes, entries, runs, holder, naps, history := map[], [], [], Free, [], [];
    }

    // A step of somebody else.
    method Perform(step: Step)
      requires Sound() && Enabled(View(), step)
      modifies this
      ensures Sound() && View() == Apply(old(View()), step) && history == old(history) + [step]
    {
      ReachesNext(history, View(), step);
      var s := Apply(View(), step);
      processes, entries, runs, holder, naps := s.processes, s.entries, s.runs, s.holder, s.naps;
      history := history + [step];
    }

    /** stopProcess: waits for the victim's channel with the mutex held. When the turns run out the
        system does what the wait needs and no more, the kill after ten seconds included. */
    method StopProcess(turns: seq<Step>)
      requires Sound() && !holder.Free?
      modifies this
      ensures Sound() && CanResume(View()) && old(history) + Meanwhile(old(View()), turns) <= history
      ensures SameCall(old(holder), holder) && processes == old(processes) && entries == old(entries)
    {
      ghost var all := history + Meanwhile(View(), turns);
      var i := 0;
      assert turns[0..] == turns;
      while i < |turns| && !CanResume(View())
        invariant 0 <= i <= |turns| && Sound() && history + Meanwhile(View(), turns[i..]) == all
        invariant SameCall(old(holder), holder) && processes == old(processes) && entries == old(entries)
      {
        OneMoreMeanwhile(history, View(), turns[i..], all);
        assert turns[i..][1..] == turns[i + 1..];
        if LockFree(turns[i]) && Enabled(View(), turns[i]) {
          LockFreeKeeps(View(), turns[i]);
          Perform(turns[i]);
        }
        i := i + 1;
      }
      assert history == all by {
        assert history + [] == history;
      }
      while !CanResume(View())
        invariant Sound() && all <= history
        invariant SameCall(old(holder), holder) && processes == old(processes) && entries == old(entries)
        decreases Distance(View())
      {
        NudgeIsNear(history, View());
        LockFreeKeeps(View(), Nudge(View()));
        Perform(Nudge(View()));
      }
    }

    // Marks a process as stopping and waits for it, with the mutex taken by the call h.
    method StopAndWait(e: nat, h: Holder, ghost step: Step, turns: seq<Step>)
      requires Sound() && e < |entries| && !h.Free? && Reaches(history + [step], Seize(View(), e, h))
      modifies this
      ensures Sound() && CanResume(View()) && old(history) <= history && SameCall(h, holder)
      ensures processes == old(processes) && entries == old(entries)[e := old(entries)[e].(stopping := true)]
    {
      entries := entries[e := entries[e].(stopping := true)];
      holder := h;
      history := history + [step];
      StopProcess(turns);
    }

    method MarkStopped()
      requires Sound() && holder.InStop? && CanResume(View())
      modifies this
      ensures Sound() && View() == FinishStop(old(View())) && history == old(history) + [StopResume]
    {
      StopFinishes(history, View());
      entries := entries[holder.victim := entries[holder.victim].(state := Stopped)];
      holder := Free;
      history := history + [StopResume];
    }

    /** When Stop returns nothing of the app is alive, and a tracked app reads Stopped. */
    method Stop(name: string, turns: seq<Step>)
      requires Sound() && holder.Free?
      modifies this
      ensures Sound() && holder.Free? && old(history) <= history
      ensures NothingLive(View(), name)
      ensures processes == old(processes)
      ensures entries == if name !in processes then old(entries) else
        var e := processes[name]; old(entries)[e := old(entries)[e].(stopping := true, state := Stopped)]
    {
      if name in processes {
        var e := processes[name];
        CallSeizes(history, View(), name);
        StopAndWait(e, InStop(e, false), StopCall(name), turns);
        MarkStopped();
      }
      QuietIsDead(history, View(), name);
    }

    /** When Remove returns nothing of the app is alive, and it is not tracked. */
    method Remove(name: string, turns: seq<Step>)
      requires Sound() && holder.Free?
      modifies this
      ensures Sound() && holder.Free? && old(history) <= history
      ensures NothingLive(View(), name)
      ensures processes == old(processes) - {name}
    {
      if name in processes {
        var e := processes[name];
        CallSeizes(history, View(), name);
        StopAndWait(e, InRemove(e, false), RemoveCall(name), turns);
        RemoveFinishes(history, View());
        processes := processes - {name};
        holder := Free;
        history := history + [RemoveResume];
      }
      QuietIsDead(history, View(), name);
    }

    // The rest of Deploy, once nothing is tracked under the name.
    method Start(name: string, policy: Policy, started: bool, ghost step: Step)
      requires Reaches(history + [step], Launch(Untrack(View(), name), name, policy, started))
      modifies this
      ensures Sound() && history == old(history) + [step]
      ensures View() == Launch(Untrack(old(View()), name), name, policy, started)
    {
      processes := processes - {name};
      if started {
        processes := processes[name := |entries|];
        entries := entries + [Entry(name, policy, |runs|, |runs|, Running, 0, false)];
        runs := runs + [Run(|entries| - 1, Live, false, Waiting)];
      }
      holder := Free;
      history := history + [step];
    }

    // The first part of Deploy: an existing process is stopped and waited for.
    method ClearOut(name: string, policy: Policy, started: bool, turns: seq<Step>) returns (ghost step: Step)
      requires Sound() && holder.Free?
      modifies this
      ensures Sound() && old(history) <= history && processes == old(processes)
      ensures Reaches(history + [step], Launch(Untrack(View(), name), name, policy, started))
    {
      if name in processes {
        var e := processes[name];
        ReachesNext(history, View(), DeployCall(name, policy, started));
        StopAndWait(e, InDeploy(name, policy, e, false), DeployCall(name, policy, started), turns);
        DeployResumes(View(), name, policy, e, started);
        step := DeployResume(started);
        ReachesNext(history, View(), step);
      } else {
        NothingToUntrack(View(), name);
        step := DeployCall(name, policy, started);
        ReachesNext(history, View(), step);
      }
    }

    /** A refused specification changes nothing: what ran under the name goes on. Otherwise it is gone
        when Deploy goes on. If the start succeeds, exactly one process runs under the name, and it is
        tracked as a fresh one; if not, nothing does. `missing` is the answer of os.Stat that there is
        no such file. */
    method Deploy(app: Option<AppSpec>, missing: bool, started: bool, turns: seq<Step>) returns (accepted: bool)
      requires Sound() && holder.Free?
      modifies this
      ensures Sound() && holder.Free? && old(history) <= history
      ensures accepted <==> app.Some? && SingleComponent(app.value.name) && app.value.binary != "" && !missing
      ensures if accepted then Deployed(old(processes), View(), app.value.name, app.value.policy, started)
              else View() == old(View()) && history == old(history)
    {
      accepted := app.Some? && ValidComponent(app.value.name) && app.value.binary != "" && !missing;
      if app.Some? {
        ComponentsAreValid(app.value.name);
      }
      if !accepted {
        return;
      }
      var name, policy := app.value.name, app.value.policy;
      ghost var step := ClearOut(name, policy, started, turns);
      ghost var cleared := View();
      Start(name, policy, started, step);
      DeployEnds(history, cleared, name, policy, started);
    }

    /** When Close returns no process of any app is alive, whatever order the apps are visited in. */
    method Close(turns: string -> seq<Step>)
      requires Sound() && holder.Free?
      modifies this
      ensures Sound() && holder.Free? && old(history) <= history
      ensures processes == map[] && forall k :: 0 <= k < |runs| ==> !runs[k].os.Live?
    {
      var todo := processes.Keys;
      while todo != {}
        invariant Sound() && processes == old(processes) && old(history) <= history && todo <= processes.Keys
        invariant if holder.Free? then todo == processes.Keys else holder.InClose? && holder.todo == todo && CanResume(View())
        decreases todo
      {
        var n :| n in todo;
        ghost var step := if holder.Free? then CloseCall(n) else CloseNext(n);
        ReachesNext(history, View(), step);
        StopAndWait(processes[n], InClose(todo - {n}, processes[n], false), step, turns(n));
        todo := todo - {n};
      }
      if !holder.Free? {
        ReachesNext(history, View(), CloseEnd);
        history := history + [CloseEnd];
      }
      processes := map[];
      holder := Free;
      NoneTrackedNoneLive(history, View());
    }

    // One process is looked up under /proc.
    method Look(n: string, gone: set<nat>, ghost was: State, ghost seen: set<string>)
      requires Sound() && holder.Free? && n in processes
      requires Linked(was) && was.processes == processes && View() == LookedAt(was, gone, seen)
      modifies this
      ensures Sound() && old(history) <= history
      ensures View() == LookedAt(was, gone, seen + {n})
    {
      LookedOneMore(was, gone, seen, n);
      var e := processes[n];
      if entries[e].state == Running && entries[e].cmd in gone {
        ReachesNext(history, View(), Probe(n));
        entries := entries[e := entries[e].(state := Stopped)];
        history := history + [Probe(n)];
      }
    }

    /** GetStatus: of the tracked apps exactly those that read Running without a process turn Stopped. */
    method GetStatus(gone: set<nat>)
      requires Sound() && holder.Free?
      modifies this
      ensures Sound() && old(history) <= history
      ensures processes == old(processes) && runs == old(runs) && |entries| == |old(entries)|
      ensures forall e :: 0 <= e < |entries| ==>
        var en := old(entries)[e];
        entries[e] == if en.name in processes && processes[en.name] == e && en.state == Running && en.cmd in gone
                      then en.(state := Stopped) else en
    {
      ghost var was, seen: set<string> := View(), {};
      var todo := processes.Keys;
      LookedAtNone(was, gone);
      while todo != {}
        invariant Sound() && old(history) <= history && Linked(was)
        invariant Visited(was.processes.Keys, seen, todo)
        invariant processes == was.processes && holder.Free? && View() == LookedAt(was, gone, seen)
        decreases todo
      {
        var n :| n in todo;
        VisitOne(processes.Keys, seen, todo, n);
        Look(n, gone, was, seen);
        todo, seen := todo - {n}, seen + {n};
      }
    }

    // The rest of the system is scheduled; the monitor of run k is not.
    method Yield(k: nat, turns: seq<Step>)
      requires Sound() && k < |runs| && !runs[k].phase.Ended?
      modifies this
      ensures Sound() && history == old(history) + Besides(old(View()), turns, k) && Unmoved(old(View()), View(), k)
      ensures runs[k].phase == old(runs)[k].phase
    {
      ghost var was := View();
      SparedAtFirst(history, was, k);
      ghost var all := history + Besides(was, turns, k);
      var i := 0;
      assert turns[0..] == turns;
      while i < |turns|
        invariant 0 <= i <= |turns| && Sound() && Spared(was, View(), k)
        invariant history + Besides(View(), turns[i..], k) == all
      {
        OneMoreBesides(history, View(), turns[i..], k, all);
        assert turns[i..][1..] == turns[i + 1..];
        if Enabled(View(), turns[i]) && !OfMonitor(turns[i], k) {
          OthersSpare(history, View(), turns[i], k);
          SparedThrough(was, View(), Apply(View(), turns[i]), k);
          Perform(turns[i]);
        }
        i := i + 1;
      }
      assert history + [] == history;
    }

    // The pieces of monitorProcess between two points at which the goroutine can be descheduled.

    method WaitReturned(k: nat)
      requires Sound() && Enabled(View(), WaitReturns(k))
      modifies this
      ensures Sound() && View() == Reap(old(View()), k) && history == old(history) + [WaitReturns(k)]
    {
      ReachesNext(history, View(), WaitReturns(k));
      var failed := runs[entries[runs[k].entry].cmd].os.failed;
      runs := runs[k := runs[k].(phase := Noticed(failed))];
      history := history + [WaitReturns(k)];
    }

    method CloseChannel(k: nat)
      requires Sound() && Enabled(View(), CloseDone(k))
      modifies this
      ensures Sound() && View() == Announce(old(View()), k) && history == old(history) + [CloseDone(k)]
    {
      ReachesNext(history, View(), CloseDone(k));
      var failed, d := runs[k].phase.failed, entries[runs[k].entry].done;
      runs := runs[d := runs[d].(closed := true)];
      runs := runs[k := runs[k].(phase := Locking(failed))];
      history := history + [CloseDone(k)];
    }

    method DecideRestart(k: nat)
      requires Sound() && Enabled(View(), Inspect(k))
      modifies this
      ensures Sound() && View() == InspectRun(old(View()), k) && history == old(history) + [Inspect(k)]
    {
      InspectReaches(history, View(), k);
      history := history + [Inspect(k)];
      var e, failed := runs[k].entry, runs[k].phase.failed;
      var en, next := entries[e], Ended;
      if en.name in processes && processes[en.name] == e {
        if en.stopping || !ShouldRestart(en.policy, failed) {
          entries := entries[e := en.(state := if failed then Failed else Stopped)];
        } else if en.restartCount >= MAX_RESTARTS {
          entries := entries[e := en.(state := Failed)];
        } else {
          var n := en.restartCount + 1;
          entries := entries[e := en.(restartCount := n)];
          next := Sleeping(Backoff(n));
          naps := naps + [(e, Backoff(n))];
        }
      }
      runs := runs[k := runs[k].(phase := next)];
    }

    method StartAgain(k: nat, started: bool) returns (restarted: bool)
      requires Sound() && Enabled(View(), Recheck(k, started))
      modifies this
      ensures Sound() && View() == RecheckRun(old(View()), k, started) && history == old(history) + [Recheck(k, started)]
      ensures restarted <==> |runs| > |old(runs)|
    {
      RecheckReaches(history, View(), k, started);
      history := history + [Recheck(k, started)];
      restarted := false;
      var e := runs[k].entry;
      var en := entries[e];
      if en.name in processes && processes[en.name] == e && !en.stopping {
        if started {
          entries := entries[e := en.(cmd := |runs|, done := |runs|, state := Running)];
          runs := runs[k := runs[k].(phase := Ended)] + [Run(e, Live, false, Waiting)];
          restarted := true;
          return;
        }
        entries := entries[e := en.(state := Failed)];
      }
      runs := runs[k := runs[k].(phase := Ended)];
    }

    method RestartProcess(k: nat, started: bool) returns (restarted: bool)
      requires Sound() && Enabled(View(), Recheck(k, started))
      modifies this
      ensures Sound() && old(history) <= history && k < |runs| && runs[k].phase.Ended? && runs[k].entry == old(runs)[k].entry
      ensures CountRuns(runs, runs[k].entry) == CountRuns(old(runs), runs[k].entry) + if restarted then 1 else 0
      ensures runs[k].os == old(runs)[k].os
      ensures restarted ==> Succeeded(View(), k)
      ensures restarted <==> started && Wanted(View(), runs[k].entry)
    {
      RecheckCounts(history, View(), k, started);
      restarted := StartAgain(k, started);
    }

    // cmd.Wait() returns, unless the process outlives the turns.
    method Collect(k: nat, turns: seq<Step>)
      requires Sound() && k < |runs| && runs[k].phase.Waiting?
      modifies this
      ensures Sound() && old(history) <= history && Unmoved(old(View()), View(), k)
      ensures runs[k].phase.Waiting? || runs[k].phase.Noticed?
    {
      ghost var was := View();
      Yield(k, turns);
      if Enabled(View(), WaitReturns(k)) {
        ghost var exited := View();
        OwnStepCounts(history, View(), WaitReturns(k), k);
        WaitReturned(k);
        UnmovedThrough(was, exited, View(), k);
      }
    }

    // Up to the closing of the channel.
    method AwaitExit(k: nat, turns: nat -> seq<Step>)
      requires Sound() && k < |runs| && runs[k].phase.Waiting?
      modifies this
      ensures Sound() && old(history) <= history && Unmoved(old(View()), View(), k)
      ensures runs[k].phase.Waiting? || runs[k].phase.Locking?
    {
      ghost var was := View();
      Collect(k, turns(0));
      if runs[k].phase.Noticed? {
        ghost var noticed := View();
        Yield(k, turns(1));
        UnmovedThrough(was, noticed, View(), k);
        ghost var closing := View();
        OwnStepCounts(history, View(), CloseDone(k), k);
        CloseChannel(k);
        UnmovedThrough(was, closing, View(), k);
      }
    }

    // The first critical section, once the mutex is there: give up, or sleep before a restart.
    method Decide(k: nat)
      requires Sound() && Enabled(View(), Inspect(k))
      modifies this
      ensures Sound() && old(history) <= history && Counted(old(View()), View(), k)
      ensures runs[k].phase.Sleeping? || runs[k].phase.Ended?
      ensures runs[k].os == old(runs)[k].os && runs[k].os.Exited?
      ensures runs[k].phase.Sleeping? ==> RunIsDue(old(View()), k)
      ensures Wanted(View(), runs[k].entry) && RunIsDue(old(View()), k) ==> runs[k].phase.Sleeping?
    {
      OwnStepCounts(history, View(), Inspect(k), k);
      DecisionIsDue(history, View(), k);
      DecideRestart(k);
    }

    // The backoff, with the mutex free for everybody else.
    method SleepOff(k: nat, turns: nat -> seq<Step>)
      requires Sound() && k < |runs| && runs[k].phase.Sleeping?
      modifies this
      ensures Sound() && old(history) <= history && Unmoved(old(View()), View(), k) && runs[k].phase.Relocking?
    {
      ghost var was := View();
      Yield(k, turns(3));
      ghost var rested := View();
      OwnStepCounts(history, View(), Wake(k), k);
      Perform(Wake(k));
      UnmovedThrough(was, rested, View(), k);
      ghost var awake := View();
      Yield(k, turns(4));
      UnmovedThrough(was, awake, View(), k);
    }

    // After the backoff: the second critical section, unless the mutex is taken when the turns end.
    method TryAgain(k: nat, started: bool, turns: nat -> seq<Step>) returns (restarted: bool)
      requires Sound() && k < |runs| && runs[k].phase.Sleeping? && runs[k].os.Exited?
      modifies this
      ensures Sound() && old(history) <= history && k < |runs| && runs[k].entry == old(runs)[k].entry
      ensures CountRuns(runs, runs[k].entry) == CountRuns(old(runs), runs[k].entry) + if restarted then 1 else 0
      ensures runs[k].os == old(runs)[k].os
      ensures restarted ==> Succeeded(View(), k)
      ensures restarted <==> runs[k].phase.Ended? && started && Wanted(View(), runs[k].entry)
    {
      restarted := false;
      SleepOff(k, turns);
      if holder.Free? {
        restarted := RestartProcess(k, started);
      }
    }

    // From the first critical section on.
    method Conclude(k: nat, started: bool, turns: nat -> seq<Step>) returns (restarted: bool)
      requires Sound() && Enabled(View(), Inspect(k))
      modifies this
      ensures Sound() && old(history) <= history && k < |runs| && runs[k].entry == old(runs)[k].entry
      ensures CountRuns(runs, runs[k].entry) == CountRuns(old(runs), runs[k].entry) + if restarted then 1 else 0
      ensures runs[k].os == old(runs)[k].os && runs[k].os.Exited?
      ensures restarted ==> Succeeded(View(), k)
      ensures restarted <==> runs[k].phase.Ended? && started && Wanted(View(), runs[k].entry) && RunIsDue(old(View()), k)
    {
      restarted := false;
      Decide(k);
      if runs[k].phase.Sleeping? {
        restarted := TryAgain(k, started, turns);
      }
    }

    /** monitorProcess, from the start of a process on, with everything else in between. It starts a
        successor, and one only, if and only if it gets to its end with the app still tracked and not
        stopped, the policy asks for a restart after this exit, there were fewer than five, and the
        start succeeds; if it ends without one, the app, still its own, does not read Running. */
    method MonitorProcess(k: nat, started: bool, turns: nat -> seq<Step>) returns (restarted: bool)
      requires Sound() && k < |runs| && runs[k].phase.Waiting?
      modifies this
      ensures Sound() && old(history) <= history && k < |runs| && runs[k].entry == old(runs)[k].entry
      ensures CountRuns(runs, runs[k].entry) == CountRuns(old(runs), runs[k].entry) + if restarted then 1 else 0
      ensures restarted ==> Succeeded(View(), k)
      ensures restarted <==> runs[k].phase.Ended? && started && Wanted(View(), runs[k].entry)
                             && Due(old(entries)[old(runs)[k].entry], runs[k].os)
      ensures !restarted && runs[k].phase.Ended? ==> Settled(View(), k)
    {
      ghost var was := View();
      restarted := false;
      AwaitExit(k, turns);
      if runs[k].phase.Locking? {
        ghost var closed := View();
        Yield(k, turns(2));
        UnmovedThrough(was, closed, View(), k);
        if holder.Free? {
          ghost var deciding := View();
          restarted := Conclude(k, started, turns);
          DueStill(was, deciding, k);
        }
      }
      if runs[k].phase.Ended? {
        EndedIsSettled(history, View(), k);
      }
    }
  }
}
