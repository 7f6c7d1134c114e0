/** What every run of the supervisor satisfies. */
module SupervisorProperties {
  import opened Supervisor

  // A schedule: any finite interleaving of calls, monitors, exits and timeouts.
  ghost predicate Valid(s: State, steps: seq<Step>)
    decreases |steps|
  {
    Linked(s) && (steps != [] ==> Enabled(s, steps[0]) && Valid(Apply(s, steps[0]), steps[1..]))
  }

  ghost function Exec(s: State, steps: seq<Step>): (t: State)
    requires Valid(s, steps)
    ensures Linked(t)
    decreases |steps|
  {
    if steps == [] then s else Exec(Apply(s, steps[0]), steps[1..])
  }

  lemma {:induction false} RunKeepsInv(s: State, steps: seq<Step>)
    requires Inv(s) && Valid(s, steps)
    ensures Inv(Exec(s, steps))
    decreases |steps|
  {
    if steps != [] {
      StepKeepsInv(s, steps[0]);
      RunKeepsInv(Apply(s, steps[0]), steps[1..]);
    }
  }

  lemma {:induction false} ExecAppend(s: State, a: seq<Step>, b: seq<Step>)
    requires Valid(s, a) && Valid(Exec(s, a), b)
    ensures Valid(s, a + b) && Exec(s, a + b) == Exec(Exec(s, a), b)
    decreases |a|
  {
    if a == [] {
      assert a + b == b;
    } else {
      assert (a + b)[1..] == a[1..] + b;
      ExecAppend(Apply(s, a[0]), a[1..], b);
    }
  }

  // From the start the steps lead to t.
  ghost predicate Reaches(steps: seq<Step>, t: State) {
    Valid(Initial, steps) && Exec(Initial, steps) == t && Linked(t)
  }

  // ---------------------------------------------------------------- one live process per app

  ghost predicate Safe(s: State)
    requires Linked(s)
  {
    && (forall k :: 0 <= k < |s.runs| && s.runs[k].os.Live? ==>
          Tracked(s, s.runs[k].entry) && s.entries[s.runs[k].entry].cmd == k)
    && (forall j, k ::
          0 <= j < |s.runs| && 0 <= k < |s.runs| && s.runs[j].os.Live? && s.runs[k].os.Live?
          && s.entries[s.runs[j].entry].name == s.entries[s.runs[k].entry].name
          ==> j == k)
  }

  /** In every interleaving an app name has at most one live OS process, and a live process is the
      current one of the entry tracked under its name. */
  lemma AtMostOneLiveProcess(steps: seq<Step>)
    requires Valid(Initial, steps)
    ensures Inv(Exec(Initial, steps)) && Safe(Exec(Initial, steps))
  {
    RunKeepsInv(Initial, steps);
  }

  /** A monitor waits for its own process and closes its own channel, which is still open, so the
      close never panics. */
  lemma ChannelClosedOnce(steps: seq<Step>, k: nat)
    requires Valid(Initial, steps)
    requires k < |Exec(Initial, steps).runs|
    requires var p := Exec(Initial, steps).runs[k].phase; p.Waiting? || p.Noticed?
    ensures
      var s := Exec(Initial, steps);
      && Linked(s)
      && s.entries[s.runs[k].entry].cmd == s.entries[s.runs[k].entry].done == k && !s.runs[k].closed
  {
    RunKeepsInv(Initial, steps);
  }

  // ---------------------------------------------------------------- what no step does

  // Names are for ever, `stopping` and closed channels are for ever, and a stopped entry keeps
  // its process and channel and gets no new run.
  ghost predicate Frame(s: State, t: State) {
    && |s.entries| <= |t.entries| && |s.runs| <= |t.runs| <= |s.runs| + 1
    && (forall e :: 0 <= e < |s.entries| ==>
          && t.entries[e].name == s.entries[e].name
          && (s.entries[e].stopping ==>
                t.entries[e].stopping && t.entries[e].cmd == s.entries[e].cmd && t.entries[e].done == s.entries[e].done))
    && (forall k :: 0 <= k < |s.runs| ==>
          t.runs[k].entry == s.runs[k].entry && (s.runs[k].closed ==> t.runs[k].closed))
    && (|t.runs| > |s.runs| ==>
          var e := t.runs[|s.runs|].entry;
          e < |s.entries| ==> !s.entries[e].stopping)
  }

  lemma CallFrame(s: State, step: Step)
    requires Linked(s) && Enabled(s, step)
    requires step.DeployCall? || step.StopCall? || step.RemoveCall? || step.CloseCall? || step.CloseNext?
    ensures Frame(s, Apply(s, step))
  {
  }

  lemma ResumeFrame(s: State, step: Step)
    requires Linked(s) && Enabled(s, step)
    requires step.DeployResume? || step.StopResume? || step.RemoveResume? || step.CloseEnd? || step.Timeout?
    ensures Frame(s, Apply(s, step))
  {
  }

  lemma ReapFrame(s: State, step: Step)
    requires Linked(s) && Enabled(s, step)
    requires step.Exit? || step.WaitReturns? || step.CloseDone? || step.Wake? || step.Probe?
    ensures Frame(s, Apply(s, step))
  {
  }

  lemma EndRunFrame(s: State, k: nat)
    requires k < |s.runs|
    ensures Frame(s, EndRun(s, k))
  {
  }

  lemma SettleFrame(s: State, k: nat, state: AppState)
    requires Linked(s) && k < |s.runs|
    ensures Frame(s, Settle(s, k, state))
  {
  }

  lemma NapFrame(s: State, k: nat)
    requires Linked(s) && k < |s.runs|
    ensures Frame(s, Nap(s, k))
  {
  }

  lemma InspectFrame(s: State, k: nat)
    requires Linked(s) && k < |s.runs| && s.runs[k].phase.Locking?
    ensures Frame(s, InspectRun(s, k))
  {
    EndRunFrame(s, k);
    SettleFrame(s, k, Failed);
    SettleFrame(s, k, Stopped);
    NapFrame(s, k);
  }

  lemma RecheckFrame(s: State, k: nat, started: bool)
    requires Linked(s) && k < |s.runs| && s.runs[k].phase.Relocking?
    ensures Frame(s, RecheckRun(s, k, started))
  {
  }

  lemma StepFrame(s: State, step: Step)
    requires Linked(s) && Enabled(s, step)
    ensures Frame(s, Apply(s, step))
  {
    if step.Inspect? {
      InspectFrame(s, step.run);
    } else if step.Recheck? {
      RecheckFrame(s, step.run, step.started);
    } else if step.DeployCall? || step.StopCall? || step.RemoveCall? || step.CloseCall? || step.CloseNext? {
      CallFrame(s, step);
    } else if step.DeployResume? || step.StopResume? || step.RemoveResume? || step.CloseEnd? || step.Timeout? {
      ResumeFrame(s, step);
    } else {
      ReapFrame(s, step);
    }
  }

  // Only a Deploy of a name, waiting or not, binds the name to another entry.
  lemma BindingsOnlyByDeploy(s: State, step: Step, name: string)
    requires Linked(s) && Enabled(s, step)
    requires !(step.DeployCall? && step.name == name)
    requires !(s.holder.InDeploy? && s.holder.name == name)
    ensures
      var t := Apply(s, step);
      && !(t.holder.InDeploy? && t.holder.name == name)
      && (name in t.processes ==> name in s.processes && t.processes[name] == s.processes[name])
  {
  }

  // ---------------------------------------------------------------- stopping is final

  lemma StoppingSticks(s: State, step: Step, e: nat)
    requires Linked(s) && Enabled(s, step) && e < |s.entries| && s.entries[e].stopping
    ensures
      var t := Apply(s, step);
      e < |t.entries| && t.entries[e].stopping && CountRuns(t.runs, e) == CountRuns(s.runs, e)
  {
    var t := Apply(s, step);
    StepFrame(s, step);
    if |t.runs| == |s.runs| {
      CountByOwner(s.runs, t.runs, e);
    } else {
      var mid := t.runs[..|s.runs|];
      assert t.runs == mid + [t.runs[|s.runs|]];
      CountByOwner(s.runs, mid, e);
      CountAppend(mid, t.runs[|s.runs|], e);
    }
  }

  /** Once `stopping` is set on an entry, no continuation starts another OS process for it, even
      when the stop lands inside the unlocked backoff sleep. */
  lemma {:induction false} StoppingIsFinal(s: State, steps: seq<Step>, e: nat)
    requires Inv(s) && Valid(s, steps) && e < |s.entries| && s.entries[e].stopping
    ensures
      var t := Exec(s, steps);
      e < |t.entries| && t.entries[e].stopping && CountRuns(t.runs, e) == CountRuns(s.runs, e)
    decreases |steps|
  {
    if steps != [] {
      StoppingSticks(s, steps[0], e);
      StepKeepsInv(s, steps[0]);
      StoppingIsFinal(Apply(s, steps[0]), steps[1..], e);
    }
  }

  // Nothing called `name` runs, and nothing but a new Deploy can change that.
  ghost predicate Quiet(s: State, name: string)
    requires Linked(s)
  {
    && !(s.holder.InDeploy? && s.holder.name == name)
    && (name in s.processes ==> DealtWith(s, s.processes[name]))
  }

  ghost predicate NothingLive(s: State, name: string)
    requires Linked(s)
  {
    forall k :: 0 <= k < |s.runs| && s.entries[s.runs[k].entry].name == name ==> !s.runs[k].os.Live?
  }

  lemma QuietStays(s: State, step: Step, name: string)
    requires Linked(s) && Enabled(s, step) && Linked(Apply(s, step)) && Quiet(s, name)
    requires !(step.DeployCall? && step.name == name)
    ensures Quiet(Apply(s, step), name)
  {
    StepFrame(s, step);
    BindingsOnlyByDeploy(s, step, name);
  }

  ghost predicate NeverDeploys(steps: seq<Step>, name: string) {
    forall i :: 0 <= i < |steps| && steps[i].DeployCall? ==> steps[i].name != name
  }

  lemma {:induction false} QuietForever(s: State, steps: seq<Step>, name: string)
    requires Inv(s) && Valid(s, steps) && Quiet(s, name) && NeverDeploys(steps, name)
    ensures Linked(Exec(s, steps)) && NothingLive(Exec(s, steps), name)
    decreases |steps|
  {
    if steps == [] {
      assert forall k :: 0 <= k < |s.runs| && s.runs[k].os.Live? ==> !DealtWith(s, s.runs[k].entry);
    } else {
      StepKeepsInv(s, steps[0]);
      QuietStays(s, steps[0], name);
      QuietForever(Apply(s, steps[0]), steps[1..], name);
    }
  }

  ghost predicate FinishesFor(s: State, step: Step, name: string)
    requires Linked(s)
  {
    && Enabled(s, step)
    && match step
       case StopResume => s.entries[s.holder.victim].name == name
       case RemoveResume => s.entries[s.holder.victim].name == name
       case CloseEnd => true
       case _ => false
  }

  /** When Stop, Remove or Close returns, nothing of the app runs, and nothing of it runs at any
      later moment of any run in which the app is not deployed again. */
  lemma NothingRunsAfterStop(before: seq<Step>, stop: Step, after: seq<Step>, name: string)
    requires Valid(Initial, before) && FinishesFor(Exec(Initial, before), stop, name)
    requires Valid(Apply(Exec(Initial, before), stop), after) && NeverDeploys(after, name)
    ensures
      var t := Exec(Apply(Exec(Initial, before), stop), after);
      Linked(t) && NothingLive(t, name)
  {
    RunKeepsInv(Initial, before);
    var s := Exec(Initial, before);
    StepKeepsInv(s, stop);
    QuietForever(Apply(s, stop), after, name);
  }

  // ---------------------------------------------------------------- bounded restarts

  lemma Powers()
    ensures Pow2(0) == 1 && Pow2(1) == 2 && Pow2(2) == 4 && Pow2(3) == 8 && Pow2(4) == 16 && Pow2(5) == 32
  {
    BackoffUncapped(5);
    BackoffUncapped(3);
  }

  lemma WithinBudgetBounds(s: State, e: nat)
    requires Linked(s) && e < |s.entries| && WithinBudget(s, e)
    ensures CountRuns(s.runs, e) <= s.entries[e].restartCount + 1 <= 6
    ensures TotalNap(s.naps, e) == Pow2(s.entries[e].restartCount) - 1 <= 31
  {
    Powers();
  }

  /** One managed process is started at most restartCount + 1 times, hence at most 6, and sleeps
      1 + 2 + 4 + ... seconds, hence at most 31; no single sleep comes near the 30 second cap. */
  lemma RestartBudget(steps: seq<Step>, e: nat)
    requires Valid(Initial, steps) && e < |Exec(Initial, steps).entries|
    ensures
      var s := Exec(Initial, steps);
      && CountRuns(s.runs, e) <= s.entries[e].restartCount + 1 <= 6
      && TotalNap(s.naps, e) == Pow2(s.entries[e].restartCount) - 1 <= 31
      && (forall i :: 0 <= i < |s.naps| ==> s.naps[i].1 < MAX_BACKOFF)
  {
    RunKeepsInv(Initial, steps);
    WithinBudgetBounds(Exec(Initial, steps), e);
  }

  function Rank(p: Phase): nat {
    match p
    case Sleeping(_) => 6
    case Relocking => 5
    case Waiting => 4
    case Noticed(_) => 3
    case Locking(_) => 2
    case Ended => 0
  }

  // Restarts left, then how far the monitor of the current run still has to go.
  ghost function Remaining(s: State, e: nat): nat
    requires Linked(s) && e < |s.entries|
  {
    (if s.entries[e].restartCount <= MAX_RESTARTS then MAX_RESTARTS - s.entries[e].restartCount else 0) * 7
    + Rank(s.runs[s.entries[e].cmd].phase)
  }

  // A step of a monitor goroutine working for entry e.
  ghost predicate MonitorStepOf(s: State, step: Step, e: nat) {
    && (step.WaitReturns? || step.CloseDone? || step.Inspect? || step.Wake? || step.Recheck?)
    && step.run < |s.runs| && s.runs[step.run].entry == e
  }

  // What an entry's chain of monitors is made of.
  ghost predicate SameChain(s: State, t: State, e: nat)
    requires Linked(s) && e < |s.entries|
  {
    && |s.entries| <= |t.entries| && |s.runs| <= |t.runs|
    && t.entries[e].restartCount == s.entries[e].restartCount && t.entries[e].cmd == s.entries[e].cmd
    && t.runs[s.entries[e].cmd].phase == s.runs[s.entries[e].cmd].phase
  }

  lemma CallsLeaveChains(s: State, step: Step, e: nat)
    requires Linked(s) && Enabled(s, step) && e < |s.entries|
    requires step.DeployCall? || step.StopCall? || step.RemoveCall? || step.CloseCall? || step.CloseNext?
    ensures SameChain(s, Apply(s, step), e)
  {
  }

  lemma ResumesLeaveChains(s: State, step: Step, e: nat)
    requires Linked(s) && Enabled(s, step) && e < |s.entries|
    requires step.DeployResume? || step.StopResume? || step.RemoveResume? || step.CloseEnd? || step.Timeout?
             || step.Exit? || step.Probe?
    ensures SameChain(s, Apply(s, step), e)
  {
  }

  lemma MonitorsLeaveOtherChains(s: State, step: Step, e: nat)
    requires Linked(s) && Enabled(s, step) && e < |s.entries| && !MonitorStepOf(s, step, e)
    requires step.WaitReturns? || step.CloseDone? || step.Wake? || step.Inspect? || step.Recheck?
    ensures SameChain(s, Apply(s, step), e)
  {
  }

  lemma OthersSpareChain(s: State, step: Step, e: nat)
    requires Linked(s) && Enabled(s, step) && e < |s.entries| && !MonitorStepOf(s, step, e)
    ensures SameChain(s, Apply(s, step), e)
  {
    if step.DeployCall? || step.StopCall? || step.RemoveCall? || step.CloseCall? || step.CloseNext? {
      CallsLeaveChains(s, step, e);
    } else if step.WaitReturns? || step.CloseDone? || step.Wake? || step.Inspect? || step.Recheck? {
      MonitorsLeaveOtherChains(s, step, e);
    } else {
      ResumesLeaveChains(s, step, e);
    }
  }

  lemma OthersDoNotClimb(s: State, step: Step, e: nat)
    requires Linked(s) && Enabled(s, step) && e < |s.entries|
    requires !MonitorStepOf(s, step, e) && Linked(Apply(s, step))
    ensures e < |Apply(s, step).entries| && Remaining(Apply(s, step), e) == Remaining(s, e)
  {
    OthersSpareChain(s, step, e);
  }

  lemma EndRunDescends(s: State, k: nat)
    requires Linked(s) && k < |s.runs| && s.runs[k].phase.Locking?
    requires s.entries[s.runs[k].entry].cmd == k && Linked(EndRun(s, k))
    ensures Remaining(EndRun(s, k), s.runs[k].entry) < Remaining(s, s.runs[k].entry)
  {
  }

  lemma SettleDescends(s: State, k: nat, state: AppState)
    requires Linked(s) && k < |s.runs| && s.runs[k].phase.Locking?
    requires s.entries[s.runs[k].entry].cmd == k && Linked(Settle(s, k, state))
    ensures Remaining(Settle(s, k, state), s.runs[k].entry) < Remaining(s, s.runs[k].entry)
  {
  }

  lemma NapDescends(s: State, k: nat)
    requires Linked(s) && k < |s.runs| && s.runs[k].phase.Locking?
    requires s.entries[s.runs[k].entry].cmd == k && s.entries[s.runs[k].entry].restartCount < MAX_RESTARTS
    requires Linked(Nap(s, k))
    ensures Remaining(Nap(s, k), s.runs[k].entry) < Remaining(s, s.runs[k].entry)
  {
  }

  lemma InspectDescends(s: State, k: nat)
    requires Linked(s) && k < |s.runs| && s.runs[k].phase.Locking?
    requires s.entries[s.runs[k].entry].cmd == k && Linked(InspectRun(s, k))
    ensures Remaining(InspectRun(s, k), s.runs[k].entry) < Remaining(s, s.runs[k].entry)
  {
    var en, failed := s.entries[s.runs[k].entry], s.runs[k].phase.failed;
    if !Tracked(s, s.runs[k].entry) {
      EndRunDescends(s, k);
    } else if en.stopping || !ShouldRestart(en.policy, failed) {
      SettleDescends(s, k, if failed then Failed else Stopped);
    } else if en.restartCount >= MAX_RESTARTS {
      SettleDescends(s, k, Failed);
    } else {
      NapDescends(s, k);
    }
  }

  lemma RecheckDescends(s: State, k: nat, started: bool)
    requires Linked(s) && k < |s.runs| && s.runs[k].phase.Relocking?
    requires s.entries[s.runs[k].entry].cmd == k && Linked(RecheckRun(s, k, started))
    ensures Remaining(RecheckRun(s, k, started), s.runs[k].entry) < Remaining(s, s.runs[k].entry)
  {
  }

  lemma MonitorDescends(s: State, step: Step, e: nat)
    requires Linked(s) && Phased(s) && Enabled(s, step) && e < |s.entries|
    requires MonitorStepOf(s, step, e) && Linked(Apply(s, step))
    ensures e < |Apply(s, step).entries| && Remaining(Apply(s, step), e) < Remaining(s, e)
  {
    assert s.entries[e].cmd == step.run;
    match step
    case Inspect(k) => InspectDescends(s, k);
    case Recheck(k, started) => RecheckDescends(s, k, started);
    case _ =>
  }

  ghost function MonitorSteps(s: State, steps: seq<Step>, e: nat): nat
    requires Valid(s, steps)
    decreases |steps|
  {
    if steps == [] then 0 else
    (if MonitorStepOf(s, steps[0], e) then 1 else 0) + MonitorSteps(Apply(s, steps[0]), steps[1..], e)
  }

  /** The chain of monitors of one managed process always ends: whatever else is scheduled, it
      takes at most `Remaining` more steps, never more than 41. */
  lemma {:induction false} MonitorChainEnds(s: State, steps: seq<Step>, e: nat)
    requires Inv(s) && Valid(s, steps) && e < |s.entries|
    ensures Linked(Exec(s, steps)) && e < |Exec(s, steps).entries|
    ensures MonitorSteps(s, steps, e) + Remaining(Exec(s, steps), e) <= Remaining(s, e) <= 41
    decreases |steps|
  {
    assert WithinBudget(s, e);
    if steps != [] {
      StepKeepsInv(s, steps[0]);
      if MonitorStepOf(s, steps[0], e) {
        MonitorDescends(s, steps[0], e);
      } else {
        OthersDoNotClimb(s, steps[0], e);
      }
      MonitorChainEnds(Apply(s, steps[0]), steps[1..], e);
    }
  }

  /** When every monitor of a tracked entry has ended, the entry does not read Running. */
  lemma EndedChainIsSettled(steps: seq<Step>, e: nat)
    requires Valid(Initial, steps) && e < |Exec(Initial, steps).entries|
    requires Linked(Exec(Initial, steps)) && Tracked(Exec(Initial, steps), e)
    requires forall k :: 0 <= k < |Exec(Initial, steps).runs| && Exec(Initial, steps).runs[k].entry == e
               ==> Exec(Initial, steps).runs[k].phase.Ended?
    ensures Exec(Initial, steps).entries[e].state in {Stopped, Failed}
  {
    RunKeepsInv(Initial, steps);
    var s := Exec(Initial, steps);
    assert s.runs[s.entries[e].cmd].entry == e;
  }

  // ---------------------------------------------------------------- restarts follow the policy

  ghost predicate Permitted(policy: Policy, failed: bool) {
    policy == Always || (policy == OnFailure && failed)
  }

  // A run that was, or is about to be, succeeded by another one ended the way its policy asks
  // for; an entry left to itself reads Stopped at the end of its chain only after a clean exit.
  ghost predicate RunHonest(s: State, k: nat)
    requires Linked(s) && k < |s.runs|
  {
    s.entries[s.runs[k].entry].cmd != k || s.runs[k].phase.Sleeping? || s.runs[k].phase.Relocking? ==>
      s.runs[k].os.Exited? && Permitted(s.entries[s.runs[k].entry].policy, s.runs[k].os.failed)
  }

  ghost predicate EntryHonest(s: State, e: nat)
    requires Linked(s) && e < |s.entries|
  {
    Tracked(s, e) && !s.entries[e].stopping && s.runs[s.entries[e].cmd].phase.Ended? && s.entries[e].state == Stopped
    ==> s.runs[s.entries[e].cmd].os == Exited(false)
  }

  ghost predicate Honest(s: State)
    requires Linked(s)
  {
    && (forall k :: 0 <= k < |s.runs| ==> RunHonest(s, k))
    && (forall e :: 0 <= e < |s.entries| ==> EntryHonest(s, e))
  }

  // Steps of the calls leave every run alone and add at most a fresh one.
  ghost predicate RunsKept(s: State, t: State)
    requires Linked(s) && Linked(t)
  {
    && |s.runs| <= |t.runs| && |s.entries| <= |t.entries|
    && (forall k :: 0 <= k < |s.runs| ==> t.runs[k] == s.runs[k])
    && (forall k :: |s.runs| <= k < |t.runs| ==> t.runs[k].phase.Waiting? && t.entries[t.runs[k].entry].cmd == k)
    && (forall e :: 0 <= e < |s.entries| ==> t.entries[e].cmd == s.entries[e].cmd && t.entries[e].policy == s.entries[e].policy)
    && (forall e :: |s.entries| <= e < |t.entries| ==> t.entries[e].cmd >= |s.runs|)
  }

  ghost predicate StopsKept(s: State, t: State)
    requires Linked(s) && Linked(t) && |s.entries| <= |t.entries|
  {
    forall e :: 0 <= e < |s.entries| && Tracked(t, e) && !t.entries[e].stopping && t.entries[e].state == Stopped ==>
      Tracked(s, e) && !s.entries[e].stopping && s.entries[e].state == Stopped
  }

  lemma HonestKept(s: State, t: State)
    requires Linked(s) && Linked(t) && Honest(s) && RunsKept(s, t) && StopsKept(s, t)
    ensures Honest(t)
  {
    forall k | 0 <= k < |t.runs| ensures RunHonest(t, k) {
      assert k < |s.runs| ==> RunHonest(s, k);
    }
    forall e | 0 <= e < |t.entries| ensures EntryHonest(t, e) {
      assert e < |s.entries| ==> EntryHonest(s, e);
    }
  }

  lemma SeizeKeepsRuns(s: State, e: nat, h: Holder)
    requires Linked(s) && e < |s.entries| && Linked(Seize(s, e, h))
    ensures RunsKept(s, Seize(s, e, h)) && StopsKept(s, Seize(s, e, h))
  {
  }

  lemma LaunchKeepsRuns(s: State, name: string, policy: Policy, started: bool)
    requires Linked(s) && Linked(Launch(s, name, policy, started))
    ensures RunsKept(s, Launch(s, name, policy, started)) && StopsKept(s, Launch(s, name, policy, started))
  {
  }

  lemma CallsKeepRuns(s: State, step: Step)
    requires Linked(s) && Enabled(s, step) && Linked(Apply(s, step))
    requires step.DeployCall? || step.StopCall? || step.RemoveCall? || step.CloseCall? || step.CloseNext?
    ensures RunsKept(s, Apply(s, step)) && StopsKept(s, Apply(s, step))
  {
    var n := step.name;
    if n in s.processes {
      SeizeKeepsRuns(s, s.processes[n], Apply(s, step).holder);
    } else if step.DeployCall? {
      LaunchKeepsRuns(s, n, step.policy, step.started);
    }
  }

  lemma DeployResumeKeepsRuns(s: State, started: bool)
    requires Linked(s) && Enabled(s, DeployResume(started)) && Linked(Apply(s, DeployResume(started)))
    ensures RunsKept(s, Apply(s, DeployResume(started))) && StopsKept(s, Apply(s, DeployResume(started)))
  {
  }

  lemma StopResumeKeepsRuns(s: State)
    requires Linked(s) && HolderOk(s) && Enabled(s, StopResume) && Linked(Apply(s, StopResume))
    ensures RunsKept(s, Apply(s, StopResume)) && StopsKept(s, Apply(s, StopResume))
  {
  }

  lemma ResumesKeepRuns(s: State, step: Step)
    requires Linked(s) && HolderOk(s) && Enabled(s, step) && Linked(Apply(s, step))
    requires step.DeployResume? || step.StopResume? || step.RemoveResume? || step.CloseEnd? || step.Timeout?
    ensures RunsKept(s, Apply(s, step)) && StopsKept(s, Apply(s, step))
  {
    if step.DeployResume? {
      DeployResumeKeepsRuns(s, step.started);
    } else if step.StopResume? {
      StopResumeKeepsRuns(s);
    }
  }

  lemma CollectKeepsRunHonest(s: State, step: Step, k: nat)
    requires Linked(s) && Phased(s) && Enabled(s, step) && Linked(Apply(s, step))
    requires step.WaitReturns? || step.CloseDone?
    requires k < |s.runs| && RunHonest(s, k)
    ensures RunHonest(Apply(s, step), k)
  {
    assert Apply(s, step).entries == s.entries && Apply(s, step).runs[k].os == s.runs[k].os;
  }

  lemma ReapKeepsRunHonest(s: State, step: Step, k: nat)
    requires Linked(s) && Phased(s) && Enabled(s, step) && Linked(Apply(s, step))
    requires step.Exit? || step.WaitReturns? || step.CloseDone? || step.Wake? || step.Probe?
    requires k < |s.runs| && RunHonest(s, k)
    ensures RunHonest(Apply(s, step), k)
  {
    if step.WaitReturns? || step.CloseDone? {
      CollectKeepsRunHonest(s, step, k);
    }
  }

  lemma ReapKeepsEntryHonest(s: State, step: Step, e: nat)
    requires Linked(s) && Phased(s) && StatesOk(s) && Enabled(s, step) && Linked(Apply(s, step))
    requires step.Exit? || step.WaitReturns? || step.CloseDone? || step.Wake? || step.Probe?
    requires e < |s.entries| && EntryHonest(s, e)
    ensures EntryHonest(Apply(s, step), e)
  {
  }

  lemma ReapsStayHonest(s: State, step: Step)
    requires Linked(s) && Phased(s) && StatesOk(s) && Honest(s) && Enabled(s, step) && Linked(Apply(s, step))
    requires step.Exit? || step.WaitReturns? || step.CloseDone? || step.Wake? || step.Probe?
    ensures Honest(Apply(s, step))
  {
    forall k | 0 <= k < |s.runs| ensures RunHonest(Apply(s, step), k) {
      ReapKeepsRunHonest(s, step, k);
    }
    forall e | 0 <= e < |s.entries| ensures EntryHonest(Apply(s, step), e) {
      ReapKeepsEntryHonest(s, step, e);
    }
  }

  // An inspection starts nothing and changes no process, policy or other monitor.
  lemma InspectLeaves(s: State, k: nat)
    requires Linked(s) && k < |s.runs| && s.runs[k].phase.Locking?
    ensures
      var t := InspectRun(s, k);
      && |t.runs| == |s.runs| && |t.entries| == |s.entries|
      && (forall j :: 0 <= j < |s.runs| && j != k ==> t.runs[j] == s.runs[j])
      && t.runs[k] == s.runs[k].(phase := t.runs[k].phase)
      && (forall e :: 0 <= e < |s.entries| ==>
            t.entries[e].cmd == s.entries[e].cmd && t.entries[e].policy == s.entries[e].policy)
  {
  }

  lemma InspectedRunHonest(s: State, k: nat)
    requires Linked(s) && Phased(s) && k < |s.runs| && s.runs[k].phase.Locking? && Linked(InspectRun(s, k))
    requires RunHonest(s, k)
    ensures RunHonest(InspectRun(s, k), k)
  {
    InspectLeaves(s, k);
  }

  lemma InspectKeepsRunHonest(s: State, k: nat, j: nat)
    requires Linked(s) && Phased(s) && k < |s.runs| && s.runs[k].phase.Locking? && Linked(InspectRun(s, k))
    requires j < |s.runs| && RunHonest(s, j)
    ensures RunHonest(InspectRun(s, k), j)
  {
    if j == k {
      InspectedRunHonest(s, k);
    } else {
      InspectLeaves(s, k);
    }
  }

  lemma InspectKeepsOthersHonest(s: State, k: nat, e: nat)
    requires Linked(s) && Phased(s) && k < |s.runs| && s.runs[k].phase.Locking? && Linked(InspectRun(s, k))
    requires e < |s.entries| && EntryHonest(s, e) && e != s.runs[k].entry
    ensures EntryHonest(InspectRun(s, k), e)
  {
    assert InspectRun(s, k).entries[e] == s.entries[e] && s.entries[e].cmd != k;
  }

  lemma InspectKeepsEntryHonest(s: State, k: nat, e: nat)
    requires Linked(s) && Phased(s) && k < |s.runs| && s.runs[k].phase.Locking? && Linked(InspectRun(s, k))
    requires e < |s.entries| && EntryHonest(s, e)
    ensures EntryHonest(InspectRun(s, k), e)
  {
    if e != s.runs[k].entry {
      InspectKeepsOthersHonest(s, k, e);
    }
  }

  lemma InspectStaysHonest(s: State, k: nat)
    requires Linked(s) && Phased(s) && Honest(s) && k < |s.runs| && s.runs[k].phase.Locking?
    requires Linked(InspectRun(s, k))
    ensures Honest(InspectRun(s, k))
  {
    forall j | 0 <= j < |s.runs| ensures RunHonest(InspectRun(s, k), j) {
      InspectKeepsRunHonest(s, k, j);
    }
    forall e | 0 <= e < |s.entries| ensures EntryHonest(InspectRun(s, k), e) {
      InspectKeepsEntryHonest(s, k, e);
    }
  }

  lemma RecheckStaysHonest(s: State, k: nat, started: bool)
    requires Linked(s) && Phased(s) && Honest(s) && k < |s.runs| && s.runs[k].phase.Relocking?
    requires Linked(RecheckRun(s, k, started))
    ensures Honest(RecheckRun(s, k, started))
  {
    var t := RecheckRun(s, k, started);
    forall j | 0 <= j < |t.runs| ensures RunHonest(t, j) {
      assert j < |s.runs| ==> RunHonest(s, j);
    }
    forall e | 0 <= e < |t.entries| ensures EntryHonest(t, e) {
      assert EntryHonest(s, e);
    }
  }

  lemma StepStaysHonest(s: State, step: Step)
    requires Inv(s) && Honest(s) && Enabled(s, step)
    ensures Linked(Apply(s, step)) && Honest(Apply(s, step))
  {
    StepKeepsInv(s, step);
    if step.Inspect? {
      InspectStaysHonest(s, step.run);
    } else if step.Recheck? {
      RecheckStaysHonest(s, step.run, step.started);
    } else if step.DeployCall? || step.StopCall? || step.RemoveCall? || step.CloseCall? || step.CloseNext? {
      CallsKeepRuns(s, step);
      HonestKept(s, Apply(s, step));
    } else if step.DeployResume? || step.StopResume? || step.RemoveResume? || step.CloseEnd? || step.Timeout? {
      ResumesKeepRuns(s, step);
      HonestKept(s, Apply(s, step));
    } else {
      ReapsStayHonest(s, step);
    }
  }

  lemma {:induction false} RunStaysHonest(s: State, steps: seq<Step>)
    requires Inv(s) && Honest(s) && Valid(s, steps)
    ensures Honest(Exec(s, steps))
    decreases |steps|
  {
    if steps != [] {
      StepKeepsInv(s, steps[0]);
      StepStaysHonest(s, steps[0]);
      RunStaysHonest(Apply(s, steps[0]), steps[1..]);
    }
  }

  /** A process is restarted only after an exit its policy restarts on, and a tracked process that
      nobody stopped ends as Stopped only if its last run exited cleanly. */
  lemma RestartsFollowPolicy(steps: seq<Step>, k: nat)
    requires Valid(Initial, steps) && k < |Exec(Initial, steps).runs|
    ensures
      var s := Exec(Initial, steps);
      var en := s.entries[s.runs[k].entry];
      && (en.cmd != k ==> s.runs[k].os.Exited? && (en.policy == Always || (en.policy == OnFailure && s.runs[k].os.failed)))
      && (en.cmd == k && Tracked(s, s.runs[k].entry) && !en.stopping && s.runs[k].phase.Ended? && en.state == Stopped
          ==> s.runs[k].os == Exited(false))
  {
    RunStaysHonest(Initial, steps);
    assert RunHonest(Exec(Initial, steps), k) && EntryHonest(Exec(Initial, steps), Exec(Initial, steps).runs[k].entry);
  }

  // ---------------------------------------------------------------- no deadlock

  // Steps that need no mutex.
  predicate LockFree(step: Step) {
    step.Timeout? || step.Exit? || step.WaitReturns? || step.CloseDone? || step.Wake?
  }

  // The rest of a call that already has the mutex.
  predicate Resumption(step: Step) {
    step.DeployResume? || step.StopResume? || step.RemoveResume? || step.CloseNext? || step.CloseEnd?
  }

  predicate SameCall(g: Holder, h: Holder) {
    match g
    case Free => h.Free?
    case InDeploy(n, p, v, _) => h.InDeploy? && h.name == n && h.policy == p && h.victim == v
    case InStop(v, _) => h.InStop? && h.victim == v
    case InRemove(v, _) => h.InRemove? && h.victim == v
    case InClose(t, v, _) => h.InClose? && h.todo == t && h.victim == v
  }

  function Distance(s: State): nat
    requires Linked(s) && !s.holder.Free?
  {
    var r := s.runs[s.entries[s.holder.victim].done];
    if r.closed then 0 else if r.phase.Noticed? then 1 else if r.os.Exited? then 2
    else if s.holder.killed then 3 else 4
  }

  // The next step towards releasing the call that holds the mutex.
  function Nudge(s: State): Step
    requires Linked(s) && !s.holder.Free?
  {
    var k := s.entries[s.holder.victim].done;
    if s.runs[k].phase.Noticed? then CloseDone(k)
    else if s.runs[k].os.Exited? then WaitReturns(k)
    else if s.holder.killed then Exit(k, true)
    else Timeout
  }

  lemma NudgeHelps(s: State)
    requires Core(s) && !s.holder.Free? && !CanResume(s)
    ensures LockFree(Nudge(s)) && Enabled(s, Nudge(s))
    ensures
      var t := Apply(s, Nudge(s));
      && SameCall(s.holder, t.holder) && t.processes == s.processes && t.entries == s.entries
      && (Linked(t) ==> Distance(t) < Distance(s))
  {
    var k := s.entries[s.holder.victim].done;
    assert s.runs[k].entry == s.holder.victim;
  }

  /** Whoever holds the mutex in stopProcess is released by finitely many steps, none of which
      needs the mutex. */
  lemma {:induction false} HolderUnblocks(s: State) returns (steps: seq<Step>)
    requires Inv(s) && !s.holder.Free?
    ensures Valid(s, steps) && (forall i :: 0 <= i < |steps| ==> LockFree(steps[i]))
    ensures CanResume(Exec(s, steps)) && SameCall(s.holder, Exec(s, steps).holder)
    decreases Distance(s)
  {
    if CanResume(s) {
      steps := [];
    } else {
      var t := Apply(s, Nudge(s));
      NudgeHelps(s);
      StepKeepsInv(s, Nudge(s));
      var rest := HolderUnblocks(t);
      ExecOne(s, Nudge(s), rest);
      SameCallThrough(s.holder, t.holder, Exec(t, rest).holder);
      steps := [Nudge(s)] + rest;
    }
  }

  lemma SameCallThrough(g: Holder, h: Holder, i: Holder)
    requires SameCall(g, h) && SameCall(h, i)
    ensures SameCall(g, i)
  {
  }

  // How the call that holds the mutex goes on once its victim is reaped.
  ghost function NextResumption(s: State): Step
    requires !s.holder.Free?
  {
    match s.holder
    case InDeploy(_, _, _, _) => DeployResume(true)
    case InStop(_, _) => StopResume
    case InRemove(_, _) => RemoveResume
    case InClose(todo, _, _) => if todo == {} then CloseEnd else var n :| n in todo; CloseNext(n)
  }

  lemma ResumptionAdvances(s: State)
    requires Core(s) && CanResume(s)
    ensures Enabled(s, NextResumption(s)) && Resumption(NextResumption(s))
    ensures
      Advanced(s.holder, Apply(s, NextResumption(s)).holder)
  {
  }

  predicate Advanced(g: Holder, h: Holder) {
    h.Free? || (g.InClose? && h.InClose? && h.todo < g.todo)
  }

  // Steps that wait for the victim of a call or go on with the call.
  predicate OnlyResumes(steps: seq<Step>) {
    forall i :: 0 <= i < |steps| ==> LockFree(steps[i]) || Resumption(steps[i])
  }

  lemma AdvancedFrom(g: Holder, h: Holder, i: Holder)
    requires SameCall(g, h) && Advanced(h, i)
    ensures Advanced(g, i)
  {
  }

  lemma RunThen(s: State, steps: seq<Step>, next: Step)
    requires Valid(s, steps) && Enabled(Exec(s, steps), next) && Linked(Apply(Exec(s, steps), next))
    ensures Valid(s, steps + [next]) && Exec(s, steps + [next]) == Apply(Exec(s, steps), next)
  {
    ExecOne(Exec(s, steps), next, []);
    assert [next] + [] == [next];
    ExecAppend(s, steps, [next]);
  }

  lemma TakeResumption(s: State) returns (next: Step)
    requires Inv(s) && CanResume(s)
    ensures Enabled(s, next) && Resumption(next) && Linked(Apply(s, next)) && Advanced(s.holder, Apply(s, next).holder)
  {
    next := NextResumption(s);
    ResumptionAdvances(s);
    StepKeepsInv(s, next);
  }

  // Wait for the current victim, then take the next piece of the call.
  lemma OneRound(s: State) returns (steps: seq<Step>)
    requires Inv(s) && !s.holder.Free?
    ensures Valid(s, steps) && Advanced(s.holder, Exec(s, steps).holder)
    ensures OnlyResumes(steps)
  {
    steps := HolderUnblocks(s);
    RunKeepsInv(s, steps);
    var next := TakeResumption(Exec(s, steps));
    RunThen(s, steps, next);
    AdvancedFrom(s.holder, Exec(s, steps).holder, Apply(Exec(s, steps), next).holder);
    steps := steps + [next];
  }

  /** From every reachable state the call that holds the mutex can run to its end; Close does so
      over however many processes are left. */
  lemma {:induction false} EveryCallReturns(s: State) returns (steps: seq<Step>)
    requires Inv(s) && !s.holder.Free?
    ensures Valid(s, steps) && Exec(s, steps).holder.Free?
    ensures OnlyResumes(steps)
    decreases if s.holder.InClose? then s.holder.todo else {}
  {
    steps := OneRound(s);
    var t := Exec(s, steps);
    RunKeepsInv(s, steps);
    if !t.holder.Free? {
      var rest := EveryCallReturns(t);
      ExecAppend(s, steps, rest);
      steps := steps + rest;
    }
  }

  lemma ExecOne(s: State, step: Step, rest: seq<Step>)
    requires Linked(s) && Enabled(s, step) && Valid(Apply(s, step), rest)
    ensures Valid(s, [step] + rest) && Exec(s, [step] + rest) == Exec(Apply(s, step), rest)
  {
    assert ([step] + rest)[1..] == rest;
  }
}
