/** When a monitor starts its app again and when it gives up, in terms of the policy, the exit and
    the restarts so far. */
module Restarts {
  import opened Supervisor
  import opened SupervisorProperties

  // ---------------------------------------------------------------- one decision

  /** The first critical section of a monitor whose app is tracked and not stopped: it sleeps before
      a restart if and only if the policy asks for one and there were fewer than five; otherwise it
      ends, and the app reads Stopped only after a clean exit that asks for no restart. */
  lemma InspectionDecides(s: State, k: nat)
    requires Linked(s) && k < |s.runs| && s.runs[k].phase.Locking?
    requires Tracked(s, s.runs[k].entry) && !s.entries[s.runs[k].entry].stopping
    ensures
      var e, failed, t := s.runs[k].entry, s.runs[k].phase.failed, InspectRun(s, k);
      var en, wanted := s.entries[e], Permitted(s.entries[e].policy, failed);
      && |t.runs| == |s.runs| && |t.entries| == |s.entries|
      && if wanted && en.restartCount < 5 then
           && t.runs[k].phase == Sleeping([1, 2, 4, 8, 16][en.restartCount])
           && t.entries[e] == en.(restartCount := en.restartCount + 1)
         else
           && t.runs[k].phase == Ended
           && t.entries[e] == en.(state := if failed || wanted then Failed else Stopped)
  {
    Powers();
  }

  /** A monitor of an app that is stopped, or is no longer tracked, starts nothing. */
  lemma InspectionOfStopped(s: State, k: nat)
    requires Linked(s) && k < |s.runs| && s.runs[k].phase.Locking?
    requires !Tracked(s, s.runs[k].entry) || s.entries[s.runs[k].entry].stopping
    ensures
      var e, failed, t := s.runs[k].entry, s.runs[k].phase.failed, InspectRun(s, k);
      && |t.runs| == |s.runs| && t.runs[k].phase == Ended && |t.entries| == |s.entries|
      && t.entries[e] == if !Tracked(s, e) then s.entries[e]
                         else s.entries[e].(state := if failed then Failed else Stopped)
  {
  }

  /** The second critical section: there is one more process if and only if the app is still tracked
      and not stopped and the start succeeds; a failing start leaves it as Failed. */
  lemma RecheckDecides(s: State, k: nat, started: bool)
    requires Linked(s) && k < |s.runs|
    ensures
      var e, t := s.runs[k].entry, RecheckRun(s, k, started);
      var wanted, en := Tracked(s, e) && !s.entries[e].stopping, s.entries[e];
      && |t.entries| == |s.entries| && k < |t.runs| && t.runs[k].phase == Ended
      && if wanted && started then
           && |t.runs| == |s.runs| + 1 && t.runs[|s.runs|] == Run(e, Live, false, Waiting)
           && t.entries[e] == en.(cmd := |s.runs|, done := |s.runs|, state := Running)
         else
           && |t.runs| == |s.runs|
           && t.entries[e] == if wanted then en.(state := Failed) else en
  {
  }

  // ---------------------------------------------------------------- why a chain ends

  // The last monitor of an entry left to itself has ended for one of three reasons, and the state
  // tells the third from the others unless the exit was a failed one; `failedStarts` are the runs
  // whose successor could not be started.
  ghost predicate Explained(s: State, e: nat, failedStarts: set<nat>)
    requires Linked(s) && e < |s.entries|
  {
    var en := s.entries[e];
    var r := s.runs[en.cmd];
    Tracked(s, e) && !en.stopping && r.phase.Ended? ==>
      && r.os.Exited?
      && (!Permitted(en.policy, r.os.failed) || en.restartCount == 5 || en.cmd in failedStarts)
      && en.state == if r.os.failed || Permitted(en.policy, r.os.failed) then Failed else Stopped
  }

  ghost predicate AllExplained(s: State, failedStarts: set<nat>)
    requires Linked(s)
  {
    forall e :: 0 <= e < |s.entries| ==> Explained(s, e, failedStarts)
  }

  // An entry that is tracked and not stopped afterwards was so before, and has not changed.
  ghost predicate EntriesKept(s: State, t: State)
    requires Linked(t) && |s.entries| <= |t.entries|
  {
    forall e :: 0 <= e < |s.entries| && Tracked(t, e) && !t.entries[e].stopping ==>
      Tracked(s, e) && t.entries[e] == s.entries[e]
  }

  lemma SeizeKeepsEntries(s: State, e: nat, h: Holder)
    requires Linked(s) && e < |s.entries| && Linked(Seize(s, e, h))
    ensures EntriesKept(s, Seize(s, e, h))
  {
  }

  lemma LaunchKeepsEntries(s: State, name: string, policy: Policy, started: bool)
    requires Linked(s) && Linked(Launch(s, name, policy, started))
    ensures |s.entries| <= |Launch(s, name, policy, started).entries| && EntriesKept(s, Launch(s, name, policy, started))
  {
  }

  lemma CallsKeepEntries(s: State, step: Step)
    requires Linked(s) && Enabled(s, step) && Linked(Apply(s, step))
    requires step.DeployCall? || step.StopCall? || step.RemoveCall? || step.CloseCall? || step.CloseNext?
    ensures |s.entries| <= |Apply(s, step).entries| && EntriesKept(s, Apply(s, step))
  {
    var n := step.name;
    if n in s.processes {
      SeizeKeepsEntries(s, s.processes[n], Apply(s, step).holder);
    } else if step.DeployCall? {
      LaunchKeepsEntries(s, n, step.policy, step.started);
    }
  }

  lemma ResumesKeepEntries(s: State, step: Step)
    requires Linked(s) && HolderOk(s) && Enabled(s, step) && Linked(Apply(s, step))
    requires step.DeployResume? || step.StopResume? || step.RemoveResume? || step.CloseEnd? || step.Timeout?
    ensures |s.entries| <= |Apply(s, step).entries| && EntriesKept(s, Apply(s, step))
  {
  }

  lemma KeptStaysExplained(s: State, t: State, failedStarts: set<nat>)
    requires Linked(s) && Linked(t) && RunsKept(s, t) && EntriesKept(s, t) && AllExplained(s, failedStarts)
    ensures AllExplained(t, failedStarts)
  {
    forall e | 0 <= e < |t.entries| ensures Explained(t, e, failedStarts) {
      assert e < |s.entries| ==> Explained(s, e, failedStarts);
    }
  }

  lemma ReapsStayExplained(s: State, step: Step, e: nat, failedStarts: set<nat>)
    requires Linked(s) && Phased(s) && StatesOk(s) && Enabled(s, step) && Linked(Apply(s, step))
    requires step.Exit? || step.WaitReturns? || step.CloseDone? || step.Wake? || step.Probe?
    requires e < |s.entries| && Explained(s, e, failedStarts)
    ensures Explained(Apply(s, step), e, failedStarts)
  {
  }

  lemma InspectStaysExplained(s: State, k: nat, e: nat, failedStarts: set<nat>)
    requires Linked(s) && Phased(s) && k < |s.runs| && s.runs[k].phase.Locking? && Linked(InspectRun(s, k))
    requires e < |s.entries| && s.entries[e].restartCount <= 5 && Explained(s, e, failedStarts)
    ensures Explained(InspectRun(s, k), e, failedStarts)
  {
    InspectLeaves(s, k);
    if e == s.runs[k].entry {
      if Tracked(s, e) && !s.entries[e].stopping {
        InspectionDecides(s, k);
      } else {
        InspectionOfStopped(s, k);
      }
    } else {
      assert InspectRun(s, k).entries[e] == s.entries[e] && s.entries[e].cmd != k;
    }
  }

  lemma RecheckStaysExplained(s: State, k: nat, started: bool, e: nat, failedStarts: set<nat>)
    requires Linked(s) && Phased(s) && k < |s.runs| && s.runs[k].phase.Relocking? && Linked(RecheckRun(s, k, started))
    requires RunHonest(s, k) && (!started ==> k in failedStarts)
    requires e < |s.entries| && Explained(s, e, failedStarts)
    ensures e < |RecheckRun(s, k, started).entries| && Explained(RecheckRun(s, k, started), e, failedStarts)
  {
    RecheckDecides(s, k, started);
    var t := RecheckRun(s, k, started);
    if e != s.runs[k].entry {
      assert t.entries[e] == s.entries[e] && s.entries[e].cmd != k && t.runs[s.entries[e].cmd] == s.runs[s.entries[e].cmd];
    }
  }

  lemma StepStaysExplained(s: State, step: Step, failedStarts: set<nat>)
    requires Inv(s) && Honest(s) && Enabled(s, step) && Linked(Apply(s, step)) && AllExplained(s, failedStarts)
    requires step.Recheck? && !step.started ==> step.run in failedStarts
    ensures AllExplained(Apply(s, step), failedStarts)
  {
    var t := Apply(s, step);
    if step.DeployCall? || step.StopCall? || step.RemoveCall? || step.CloseCall? || step.CloseNext? {
      CallsKeepRuns(s, step);
      CallsKeepEntries(s, step);
      KeptStaysExplained(s, t, failedStarts);
    } else if step.DeployResume? || step.StopResume? || step.RemoveResume? || step.CloseEnd? || step.Timeout? {
      ResumesKeepRuns(s, step);
      ResumesKeepEntries(s, step);
      KeptStaysExplained(s, t, failedStarts);
    } else {
      MonitorsStayExplained(s, step, failedStarts);
    }
  }

  lemma MonitorsStayExplained(s: State, step: Step, failedStarts: set<nat>)
    requires Inv(s) && Honest(s) && Enabled(s, step) && Linked(Apply(s, step)) && AllExplained(s, failedStarts)
    requires step.Recheck? && !step.started ==> step.run in failedStarts
    requires step.Exit? || step.WaitReturns? || step.CloseDone? || step.Wake? || step.Probe? || step.Inspect? || step.Recheck?
    ensures AllExplained(Apply(s, step), failedStarts)
  {
    var t := Apply(s, step);
    assert |t.entries| == |s.entries|;
    forall e | 0 <= e < |s.entries| ensures Explained(t, e, failedStarts) {
      assert Explained(s, e, failedStarts) && WithinBudget(s, e);
      if step.Inspect? {
        InspectStaysExplained(s, step.run, e, failedStarts);
      } else if step.Recheck? {
        assert RunHonest(s, step.run);
        RecheckStaysExplained(s, step.run, step.started, e, failedStarts);
      } else {
        ReapsStayExplained(s, step, e, failedStarts);
      }
    }
  }

  lemma {:induction false} RunStaysExplained(s: State, steps: seq<Step>, failedStarts: set<nat>)
    requires Inv(s) && Honest(s) && AllExplained(s, failedStarts) && Valid(s, steps)
    requires forall k :: Recheck(k, false) in steps ==> k in failedStarts
    ensures AllExplained(Exec(s, steps), failedStarts)
    decreases |steps|
  {
    if steps != [] {
      StepKeepsInv(s, steps[0]);
      StepStaysExplained(s, steps[0], failedStarts);
      StepStaysHonest(s, steps[0]);
      RunStaysExplained(Apply(s, steps[0]), steps[1..], failedStarts);
    }
  }

  function FailedStarts(steps: seq<Step>): (ks: set<nat>)
    ensures forall k :: k in ks <==> Recheck(k, false) in steps
  {
    set step | step in steps && step.Recheck? && !step.started :: step.run
  }

  /** In every run: when the last monitor of a tracked app that nobody stopped has ended, its policy
      did not ask for a restart after that exit, or there were five, or the start failed. The app
      then reads Stopped if the exit was clean and asked for no restart, and Failed otherwise. */
  lemma GivesUpOnlyThen(steps: seq<Step>, e: nat)
    requires Valid(Initial, steps) && e < |Exec(Initial, steps).entries|
    requires Linked(Exec(Initial, steps)) && Tracked(Exec(Initial, steps), e)
    requires var s := Exec(Initial, steps); !s.entries[e].stopping && s.runs[s.entries[e].cmd].phase.Ended?
    ensures
      var s := Exec(Initial, steps);
      var en, os := s.entries[e], s.runs[s.entries[e].cmd].os;
      && os.Exited?
      && (!Permitted(en.policy, os.failed) || en.restartCount == 5 || Recheck(en.cmd, false) in steps)
      && en.state == if os.failed || Permitted(en.policy, os.failed) then Failed else Stopped
  {
    RunStaysExplained(Initial, steps, FailedStarts(steps));
    assert Explained(Exec(Initial, steps), e, FailedStarts(steps));
  }
}
