/** Runs in which an app comes back after an exit its policy restarts on, and in which it stays down
    after one its policy does not. */
module RestartWitnesses {
  import opened Supervisor
  import opened SupervisorProperties
  import opened StopOutcomes

  // The app has been restarted once: its first run has ended, the second is live.
  function Twice(policy: Policy, failed: bool): State {
    State(map["app" := 0], [Entry("app", policy, 1, 1, Running, 1, false)],
          [Run(0, Exited(failed), true, Ended), Run(0, Live, false, Waiting)], Free, [(0, 1)])
  }

  lemma SleepsOnce(policy: Policy, failed: bool)
    requires Permitted(policy, failed)
    ensures Leads(One(policy, (Running, 0, false), (Exited(failed), true, Locking(failed)), Free, []), Inspect(0),
                  One(policy, (Running, 1, false), (Exited(failed), true, Sleeping(1)), Free, [(0, 1)]))
  {
    Powers();
  }

  lemma WakesUp(policy: Policy, failed: bool)
    ensures Leads(One(policy, (Running, 1, false), (Exited(failed), true, Sleeping(1)), Free, [(0, 1)]), Wake(0),
                  One(policy, (Running, 1, false), (Exited(failed), true, Relocking), Free, [(0, 1)]))
  {
  }

  lemma StartsAgain(policy: Policy, failed: bool)
    ensures Leads(One(policy, (Running, 1, false), (Exited(failed), true, Relocking), Free, [(0, 1)]), Recheck(0, true),
                  Twice(policy, failed))
  {
  }

  lemma ExitIsSeen(policy: Policy, failed: bool) returns (steps: seq<Step>)
    ensures Reaches(steps, One(policy, (Running, 0, false), (Exited(failed), true, Locking(failed)), Free, []))
  {
    OneIsDeployed(policy);
    steps := OneDies([DeployCall("app", policy, true)], policy, (Running, 0, false), Free, failed);
  }

  /** A run: the app exits, its policy restarts on that exit, and it is live again a second later. */
  lemma ComesBack(policy: Policy, failed: bool) returns (steps: seq<Step>)
    requires policy == Always || (policy == OnFailure && failed)
    ensures Reaches(steps, Twice(policy, failed))
  {
    steps := ExitIsSeen(policy, failed);
    SleepsOnce(policy, failed);
    Then(steps, One(policy, (Running, 0, false), (Exited(failed), true, Locking(failed)), Free, []), Inspect(0),
         One(policy, (Running, 1, false), (Exited(failed), true, Sleeping(1)), Free, [(0, 1)]));
    WakesUp(policy, failed);
    Then(steps + [Inspect(0)], One(policy, (Running, 1, false), (Exited(failed), true, Sleeping(1)), Free, [(0, 1)]),
         Wake(0), One(policy, (Running, 1, false), (Exited(failed), true, Relocking), Free, [(0, 1)]));
    StartsAgain(policy, failed);
    Then(steps + [Inspect(0)] + [Wake(0)], One(policy, (Running, 1, false), (Exited(failed), true, Relocking), Free, [(0, 1)]),
         Recheck(0, true), Twice(policy, failed));
    steps := steps + [Inspect(0)] + [Wake(0)] + [Recheck(0, true)];
  }

  lemma GivesUp(policy: Policy, failed: bool)
    requires policy == Never || (policy == OnFailure && !failed)
    ensures Leads(One(policy, (Running, 0, false), (Exited(failed), true, Locking(failed)), Free, []), Inspect(0),
                  One(policy, (if failed then Failed else Stopped, 0, false), (Exited(failed), true, Ended), Free, []))
  {
  }

  /** A run: the app exits, its policy does not restart on that exit, and it is over. */
  lemma StaysDown(policy: Policy, failed: bool) returns (steps: seq<Step>)
    requires policy == Never || (policy == OnFailure && !failed)
    ensures Reaches(steps, One(policy, (if failed then Failed else Stopped, 0, false), (Exited(failed), true, Ended), Free, []))
  {
    steps := ExitIsSeen(policy, failed);
    GivesUp(policy, failed);
    Then(steps, One(policy, (Running, 0, false), (Exited(failed), true, Locking(failed)), Free, []), Inspect(0),
         One(policy, (if failed then Failed else Stopped, 0, false), (Exited(failed), true, Ended), Free, []));
    steps := steps + [Inspect(0)];
  }
}
