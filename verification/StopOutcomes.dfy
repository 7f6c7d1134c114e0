/** What the recorded state of an app does not say: when Stopped is overwritten, and when an app
    that reads Running has no process. */
module StopOutcomes {
  import opened Supervisor
  import opened SupervisorProperties

  // ---------------------------------------------------------------- what Stop leaves behind

  // Along the schedule e stays tracked and no other call stops it.
  ghost predicate Undisturbed(s: State, steps: seq<Step>, e: nat)
    requires Valid(s, steps)
    decreases |steps|
  {
    && e < |s.entries| && Tracked(s, e) && (!s.holder.Free? ==> s.holder.victim != e)
    && (steps != [] ==> Undisturbed(Apply(s, steps[0]), steps[1..], e))
  }

  // Run k is the last of the stopped entry e; `fail` says how its monitor is going to leave it.
  ghost predicate Outcome(s: State, e: nat, k: nat, fail: bool)
    requires Linked(s)
  {
    && e < |s.entries| && k < |s.runs| && s.entries[e].stopping && s.entries[e].cmd == k
    && match s.runs[k].phase
       case Waiting => false
       case Noticed(_) => false
       case Locking(f) => f == fail && s.entries[e].state == Stopped
       case Sleeping(_) => !fail && s.entries[e].state == Stopped
       case Relocking => !fail && s.entries[e].state == Stopped
       case Ended => s.entries[e].state == if fail then Failed else Stopped
  }

  ghost predicate Alone(s: State, e: nat) {
    e < |s.entries| && Tracked(s, e) && (!s.holder.Free? ==> s.holder.victim != e)
  }

  lemma CallsKeepOutcome(s: State, step: Step, e: nat, k: nat, fail: bool)
    requires Linked(s) && Enabled(s, step) && Linked(Apply(s, step)) && Outcome(s, e, k, fail)
    requires Alone(s, e) && Alone(Apply(s, step), e)
    requires step.DeployCall? || step.StopCall? || step.RemoveCall? || step.CloseCall? || step.CloseNext?
    ensures Outcome(Apply(s, step), e, k, fail)
  {
  }

  lemma ResumesKeepOutcome(s: State, step: Step, e: nat, k: nat, fail: bool)
    requires Linked(s) && Enabled(s, step) && Linked(Apply(s, step)) && Outcome(s, e, k, fail)
    requires Alone(s, e) && Alone(Apply(s, step), e)
    requires step.DeployResume? || step.StopResume? || step.RemoveResume? || step.CloseEnd? || step.Timeout?
    ensures Outcome(Apply(s, step), e, k, fail)
  {
  }

  lemma ReapsKeepOutcome(s: State, step: Step, e: nat, k: nat, fail: bool)
    requires Linked(s) && Enabled(s, step) && Linked(Apply(s, step)) && Outcome(s, e, k, fail)
    requires step.Exit? || step.WaitReturns? || step.CloseDone? || step.Wake? || step.Probe?
    ensures Outcome(Apply(s, step), e, k, fail)
  {
  }

  // What the monitor of another entry finds does not concern e.
  lemma OtherInspection(s: State, j: nat, e: nat)
    requires Linked(s) && j < |s.runs| && s.runs[j].phase.Locking? && e < |s.entries| && s.runs[j].entry != e
    ensures InspectRun(s, j).entries[e] == s.entries[e]
    ensures |InspectRun(s, j).runs| == |s.runs|
    ensures forall k :: 0 <= k < |s.runs| && k != j ==> InspectRun(s, j).runs[k] == s.runs[k]
  {
  }

  lemma OwnInspection(s: State, k: nat, e: nat)
    requires Linked(s) && k < |s.runs| && s.runs[k].phase.Locking? && s.runs[k].entry == e
    requires Tracked(s, e) && s.entries[e].stopping
    ensures InspectRun(s, k) == Settle(s, k, if s.runs[k].phase.failed then Failed else Stopped)
  {
  }

  lemma InspectKeepsOutcome(s: State, j: nat, e: nat, k: nat, fail: bool)
    requires Linked(s) && Phased(s) && j < |s.runs| && s.runs[j].phase.Locking? && Linked(InspectRun(s, j))
    requires Outcome(s, e, k, fail) && Alone(s, e)
    ensures Outcome(InspectRun(s, j), e, k, fail)
  {
    assert s.entries[s.runs[j].entry].cmd == j;
    if s.runs[j].entry == e {
      OwnInspection(s, k, e);
    } else {
      assert s.runs[k].entry == e;
      OtherInspection(s, j, e);
    }
  }

  lemma RecheckKeepsOutcome(s: State, j: nat, started: bool, e: nat, k: nat, fail: bool)
    requires Linked(s) && Phased(s) && j < |s.runs| && s.runs[j].phase.Relocking? && Linked(RecheckRun(s, j, started))
    requires Outcome(s, e, k, fail) && Alone(s, e)
    ensures Outcome(RecheckRun(s, j, started), e, k, fail)
  {
    assert s.entries[s.runs[j].entry].cmd == j;
  }

  lemma StepKeepsOutcome(s: State, step: Step, e: nat, k: nat, fail: bool)
    requires Inv(s) && Enabled(s, step) && Outcome(s, e, k, fail)
    requires Alone(s, e) && Alone(Apply(s, step), e)
    ensures Linked(Apply(s, step)) && Outcome(Apply(s, step), e, k, fail)
  {
    StepKeepsInv(s, step);
    if step.Inspect? {
      InspectKeepsOutcome(s, step.run, e, k, fail);
    } else if step.Recheck? {
      RecheckKeepsOutcome(s, step.run, step.started, e, k, fail);
    } else if step.DeployCall? || step.StopCall? || step.RemoveCall? || step.CloseCall? || step.CloseNext? {
      CallsKeepOutcome(s, step, e, k, fail);
    } else if step.DeployResume? || step.StopResume? || step.RemoveResume? || step.CloseEnd? || step.Timeout? {
      ResumesKeepOutcome(s, step, e, k, fail);
    } else {
      ReapsKeepOutcome(s, step, e, k, fail);
    }
  }

  lemma {:induction false} RunKeepsOutcome(s: State, steps: seq<Step>, e: nat, k: nat, fail: bool)
    requires Inv(s) && Valid(s, steps) && Undisturbed(s, steps, e) && Outcome(s, e, k, fail)
    ensures Outcome(Exec(s, steps), e, k, fail)
    decreases |steps|
  {
    if steps != [] {
      var t := Apply(s, steps[0]);
      StepKeepsInv(s, steps[0]);
      assert Undisturbed(t, steps[1..], e);
      StepKeepsOutcome(s, steps[0], e, k, fail);
      RunKeepsOutcome(t, steps[1..], e, k, fail);
    }
  }

  lemma StopFixesOutcome(s: State)
    requires Inv(s) && s.holder.InStop? && CanResume(s)
    ensures
      var e, k := s.holder.victim, s.entries[s.holder.victim].cmd;
      Linked(FinishStop(s)) && Outcome(FinishStop(s), e, k, s.runs[k].phase == Locking(true))
  {
    StopResumeKeepsInv(s);
  }

  /** After Stop has returned, and as long as the app stays tracked and is not stopped again, it
      reads Failed if and only if the monitor of its last process was waiting for the mutex with a
      failed exit when Stop returned, and has got it since. Otherwise it reads Stopped. */
  lemma StoppedOrFailed(before: seq<Step>, after: seq<Step>)
    requires Valid(Initial, before)
    requires var s := Exec(Initial, before);
      && s.holder.InStop? && CanResume(s)
      && Valid(Apply(s, StopResume), after) && Undisturbed(Apply(s, StopResume), after, s.holder.victim)
    ensures
      var s := Exec(Initial, before);
      var e, k := s.holder.victim, s.entries[s.holder.victim].cmd;
      var u := Exec(Apply(s, StopResume), after);
      && e < |u.entries| && k < |u.runs|
      && u.entries[e].state == if s.runs[k].phase == Locking(true) && u.runs[k].phase.Ended? then Failed else Stopped
  {
    RunKeepsInv(Initial, before);
    var s := Exec(Initial, before);
    StopFixesOutcome(s);
    StepKeepsInv(s, StopResume);
    RunKeepsOutcome(FinishStop(s), after, s.holder.victim, s.entries[s.holder.victim].cmd,
                    s.runs[s.entries[s.holder.victim].cmd].phase == Locking(true));
  }

  // ---------------------------------------------------------------- Running and not running

  ghost predicate NoProcess(s: State, e: nat) {
    forall k :: 0 <= k < |s.runs| && s.runs[k].entry == e ==> !s.runs[k].os.Live?
  }

  /** A tracked app that reads Running has no live process if and only if its current one has
      exited. Its monitor has then not ended: it has not collected the exit yet, or is anywhere
      between that and the restart, the backoff included. */
  lemma RunningButDead(steps: seq<Step>, e: nat)
    requires Valid(Initial, steps) && e < |Exec(Initial, steps).entries| && Linked(Exec(Initial, steps))
    requires Tracked(Exec(Initial, steps), e) && Exec(Initial, steps).entries[e].state == Running
    ensures
      var s := Exec(Initial, steps);
      var r := s.runs[s.entries[e].cmd];
      && (NoProcess(s, e) <==> r.os.Exited?)
      && match r.phase
         case Waiting => true
         case Ended => false
         case _ => r.os.Exited?
  {
    RunKeepsInv(Initial, steps);
  }

  // ---------------------------------------------------------------- runs that show it

  // One app, deployed once.
  function One(policy: Policy, en: (AppState, nat, bool), r: (Os, bool, Phase), h: Holder, naps: seq<(nat, nat)>): State {
    State(map["app" := 0], [Entry("app", policy, 0, 0, en.0, en.1, en.2)], [Run(0, r.0, r.1, r.2)], h, naps)
  }

  ghost predicate Leads(s: State, step: Step, t: State) {
    Linked(s) && Enabled(s, step) && Apply(s, step) == t && Linked(t)
  }

  lemma Then(done: seq<Step>, s: State, step: Step, t: State)
    requires Reaches(done, s) && Leads(s, step, t)
    ensures Reaches(done + [step], t)
  {
    ExecOne(s, step, []);
    ExecAppend(Initial, done, [step]);
  }

  lemma DeployOne(policy: Policy)
    ensures Leads(Initial, DeployCall("app", policy, true), One(policy, (Running, 0, false), (Live, false, Waiting), Free, []))
  {
  }

  lemma ExitOne(policy: Policy, en: (AppState, nat, bool), h: Holder, failed: bool)
    requires !h.Free? ==> h.victim == 0
    ensures Leads(One(policy, en, (Live, false, Waiting), h, []), Exit(0, failed),
                  One(policy, en, (Exited(failed), false, Waiting), h, []))
  {
  }

  lemma ReapOne(policy: Policy, en: (AppState, nat, bool), h: Holder, failed: bool)
    requires !h.Free? ==> h.victim == 0
    ensures Leads(One(policy, en, (Exited(failed), false, Waiting), h, []), WaitReturns(0),
                  One(policy, en, (Exited(failed), false, Noticed(failed)), h, []))
  {
  }

  lemma AnnounceOne(policy: Policy, en: (AppState, nat, bool), h: Holder, failed: bool)
    requires !h.Free? ==> h.victim == 0
    ensures Leads(One(policy, en, (Exited(failed), false, Noticed(failed)), h, []), CloseDone(0),
                  One(policy, en, (Exited(failed), true, Locking(failed)), h, []))
  {
  }

  // The process of the one app dies and its monitor closes its channel.
  lemma OneDies(done: seq<Step>, policy: Policy, en: (AppState, nat, bool), h: Holder, failed: bool) returns (steps: seq<Step>)
    requires !h.Free? ==> h.victim == 0
    requires Reaches(done, One(policy, en, (Live, false, Waiting), h, []))
    ensures Reaches(steps, One(policy, en, (Exited(failed), true, Locking(failed)), h, []))
  {
    ExitOne(policy, en, h, failed);
    Then(done, One(policy, en, (Live, false, Waiting), h, []), Exit(0, failed),
         One(policy, en, (Exited(failed), false, Waiting), h, []));
    ReapOne(policy, en, h, failed);
    Then(done + [Exit(0, failed)], One(policy, en, (Exited(failed), false, Waiting), h, []), WaitReturns(0),
         One(policy, en, (Exited(failed), false, Noticed(failed)), h, []));
    AnnounceOne(policy, en, h, failed);
    steps := done + [Exit(0, failed)] + [WaitReturns(0)];
    Then(steps, One(policy, en, (Exited(failed), false, Noticed(failed)), h, []), CloseDone(0),
         One(policy, en, (Exited(failed), true, Locking(failed)), h, []));
    steps := steps + [CloseDone(0)];
  }

  lemma NapOne()
    ensures Leads(One(Always, (Running, 0, false), (Exited(true), true, Locking(true)), Free, []), Inspect(0),
                  One(Always, (Running, 1, false), (Exited(true), true, Sleeping(1)), Free, [(0, 1)]))
  {
    Powers();
  }

  lemma FailOne()
    ensures Leads(One(Never, (Stopped, 0, true), (Exited(true), true, Locking(true)), Free, []), Inspect(0),
                  One(Never, (Failed, 0, true), (Exited(true), true, Ended), Free, []))
  {
  }

  lemma StopOne()
    ensures Leads(One(Never, (Running, 0, false), (Live, false, Waiting), Free, []), StopCall("app"),
                  One(Never, (Running, 0, true), (Live, false, Waiting), InStop(0, false), []))
  {
  }

  lemma StopOneReturns()
    ensures Leads(One(Never, (Running, 0, true), (Exited(true), true, Locking(true)), InStop(0, false), []), StopResume,
                  One(Never, (Stopped, 0, true), (Exited(true), true, Locking(true)), Free, []))
  {
  }

  lemma OneIsDeployed(policy: Policy)
    ensures Reaches([DeployCall("app", policy, true)], One(policy, (Running, 0, false), (Live, false, Waiting), Free, []))
  {
    DeployOne(policy);
    Then([], Initial, DeployCall("app", policy, true), One(policy, (Running, 0, false), (Live, false, Waiting), Free, []));
    assert [] + [DeployCall("app", policy, true)] == [DeployCall("app", policy, true)];
  }

  lemma WakeOne()
    ensures Leads(One(Always, (Running, 1, false), (Exited(true), true, Sleeping(1)), Free, [(0, 1)]), Wake(0),
                  One(Always, (Running, 1, false), (Exited(true), true, Relocking), Free, [(0, 1)]))
  {
  }

  const DYING := [DeployCall("app", Always, true), Exit(0, true), WaitReturns(0), CloseDone(0), Inspect(0), Wake(0)]

  lemma NextOfDying(i: nat, s: State, t: State)
    requires i < |DYING| && Reaches(DYING[..i], s) && Leads(s, DYING[i], t)
    ensures Reaches(DYING[..i + 1], t)
  {
    Then(DYING[..i], s, DYING[i], t);
    assert DYING[..i + 1] == DYING[..i] + [DYING[i]];
  }

  /** In each of the five phases after the exit the state still reads Running with no process left. */
  lemma RunningWithoutProcess()
    ensures Reaches(DYING[..2], One(Always, (Running, 0, false), (Exited(true), false, Waiting), Free, []))
    ensures Reaches(DYING[..3], One(Always, (Running, 0, false), (Exited(true), false, Noticed(true)), Free, []))
    ensures Reaches(DYING[..4], One(Always, (Running, 0, false), (Exited(true), true, Locking(true)), Free, []))
    ensures Reaches(DYING[..5], One(Always, (Running, 1, false), (Exited(true), true, Sleeping(1)), Free, [(0, 1)]))
    ensures Reaches(DYING[..6], One(Always, (Running, 1, false), (Exited(true), true, Relocking), Free, [(0, 1)]))
  {
    OneIsDeployed(Always);
    assert DYING[..1] == [DeployCall("app", Always, true)];
    ExitOne(Always, (Running, 0, false), Free, true);
    NextOfDying(1, One(Always, (Running, 0, false), (Live, false, Waiting), Free, []),
                One(Always, (Running, 0, false), (Exited(true), false, Waiting), Free, []));
    ReapOne(Always, (Running, 0, false), Free, true);
    NextOfDying(2, One(Always, (Running, 0, false), (Exited(true), false, Waiting), Free, []),
                One(Always, (Running, 0, false), (Exited(true), false, Noticed(true)), Free, []));
    AnnounceOne(Always, (Running, 0, false), Free, true);
    NextOfDying(3, One(Always, (Running, 0, false), (Exited(true), false, Noticed(true)), Free, []),
                One(Always, (Running, 0, false), (Exited(true), true, Locking(true)), Free, []));
    NapOne();
    NextOfDying(4, One(Always, (Running, 0, false), (Exited(true), true, Locking(true)), Free, []),
                One(Always, (Running, 1, false), (Exited(true), true, Sleeping(1)), Free, [(0, 1)]));
    WakeOne();
    NextOfDying(5, One(Always, (Running, 1, false), (Exited(true), true, Sleeping(1)), Free, [(0, 1)]),
                One(Always, (Running, 1, false), (Exited(true), true, Relocking), Free, [(0, 1)]));
  }

  /** A run in which the monitor overwrites the Stopped that Stop has just written. */
  lemma StoppedThenFailed() returns (stop: seq<Step>)
    ensures stop != [] && stop[|stop| - 1] == StopResume
    ensures Reaches(stop, One(Never, (Stopped, 0, true), (Exited(true), true, Locking(true)), Free, []))
    ensures Reaches(stop + [Inspect(0)], One(Never, (Failed, 0, true), (Exited(true), true, Ended), Free, []))
  {
    OneIsDeployed(Never);
    StopOne();
    stop := [DeployCall("app", Never, true)];
    Then(stop, One(Never, (Running, 0, false), (Live, false, Waiting), Free, []), StopCall("app"),
         One(Never, (Running, 0, true), (Live, false, Waiting), InStop(0, false), []));
    stop := OneDies(stop + [StopCall("app")], Never, (Running, 0, true), InStop(0, false), true);
    StopOneReturns();
    Then(stop, One(Never, (Running, 0, true), (Exited(true), true, Locking(true)), InStop(0, false), []), StopResume,
         One(Never, (Stopped, 0, true), (Exited(true), true, Locking(true)), Free, []));
    stop := stop + [StopResume];
    FailOne();
    Then(stop, One(Never, (Stopped, 0, true), (Exited(true), true, Locking(true)), Free, []), Inspect(0),
         One(Never, (Failed, 0, true), (Exited(true), true, Ended), Free, []));
  }
}
