/** When the state file holds what the daemon has in memory: which requests leave changes unsaved,
    and what a restart loses. */
module Durability {
  import opened Options
  import opened Paths
  import opened Stores
  import opened Routes
  import opened RouteProperties
  import opened RouteWitnesses

  function LastSave(w: World): Store {
    if w.saves == [] then Empty else w.saves[|w.saves| - 1]
  }

  predicate Durable(w: World) {
    w.store == LastSave(w)
  }

  /** What a request must satisfy so as to leave nothing unsaved: an app update is not refused for
      its restart policy after it has changed an earlier field, and a project update does not fail
      after it has changed the resources. */
  ghost predicate KeepsDurable(w: World, r: Request) {
    (r.UpdateApp? || r.UpdateProject?) && Find(w.store, r.key).Some? ==>
      var pid := Find(w.store, r.key).value;
      match r
      case UpdateApp(_, n, c) =>
        n in AppsOf(w.store, pid) && c.policy == Some(false) ==>
          EarlyFields(AppsOf(w.store, pid)[n], c) == AppsOf(w.store, pid)[n]
      case UpdateProject(_, resources, done) =>
        InstanceOf(w.store, pid).Some? && resources.Some? && !done ==> resources.value == w.store.projects[pid].resources
      case _ => true
  }

  // ---------------------------------------------------------------- one request

  // The request either leaves memory and file alone, or ends with a save.
  predicate SavedOrKept(w: World, w': World) {
    || (w'.store == w.store && w'.saves == w.saves)
    || (|w'.saves| > |w.saves| && Durable(w'))
  }

  predicate LeftUnsaved(w: World, w': World) {
    w'.store != w.store && w'.saves == w.saves
  }

  lemma CreationSavesOrKeeps(w: World, name: string, domains: seq<string>, id: string, vm: Option<Vm>)
    ensures SavedOrKept(w, DoCreateProject(w, name, domains, id, vm))
  {
  }

  lemma WrittenAppBack(s: Store, pid: string, a: App)
    requires pid in s.apps && a.name in s.apps[pid]
    ensures PutApp(s, pid, a) == s <==> s.apps[pid][a.name] == a
  {
    if s.apps[pid][a.name] == a {
      assert s.apps[pid][a.name := a] == s.apps[pid];
      assert s.apps[pid := s.apps[pid]] == s.apps;
    } else {
      assert PutApp(s, pid, a).apps[pid][a.name] == a;
    }
  }

  lemma UpdateAppSavesOrKeeps(w: World, pid: string, n: string, c: AppChange)
    requires StoreInv(w.store) && pid in w.store.projects && n in AppsOf(w.store, pid)
    ensures
      if c.policy == Some(false) && EarlyFields(AppsOf(w.store, pid)[n], c) != AppsOf(w.store, pid)[n]
      then LeftUnsaved(w, DoUpdateApp(w, pid, n, c)) else SavedOrKept(w, DoUpdateApp(w, pid, n, c))
  {
    assert HasApp(w.store.apps, pid, n);
    WrittenAppBack(w.store, pid, EarlyFields(AppsOf(w.store, pid)[n], c));
  }

  lemma UpdateProjectSavesOrKeeps(w: World, pid: string, resources: Option<string>, done: bool)
    requires StoreInv(w.store) && pid in w.store.projects
    ensures
      if InstanceOf(w.store, pid).Some? && resources.Some? && !done && resources.value != w.store.projects[pid].resources
      then LeftUnsaved(w, DoUpdateProject(w, pid, resources, done))
      else SavedOrKept(w, DoUpdateProject(w, pid, resources, done))
  {
    if resources.Some? {
      var p := w.store.projects[pid].(resources := resources.value);
      assert PutProject(w.store, p).projects[pid] == p;
      assert p == w.store.projects[pid] ==> PutProject(w.store, p) == w.store;
    }
  }

  lemma DeploySavesOrKeeps(w: World, pid: string, n: string, image: string, done: bool)
    requires pid in w.store.projects && n in AppsOf(w.store, pid)
    ensures SavedOrKept(w, DoDeployApp(w, pid, n, image, done))
  {
  }

  lemma DomainsSaveOrKeep(w: World, pid: string, domains: seq<string>, w': World)
    requires StoreInv(w.store) && pid in w.store.projects && DoUpdateDomains(w, pid, domains, w')
    ensures SavedOrKept(w, w')
  {
  }

  // The requests without a guard.
  lemma OthersSaveOrKeep(w: World, pid: string, r: Request)
    requires pid in w.store.projects
    ensures r.DeleteProject? ==> SavedOrKept(w, DoDeleteProject(w, pid))
    ensures r.StartProject? ==> SavedOrKept(w, DoStartProject(w, pid, r.done, r.ip))
    ensures r.CreateApp? ==> SavedOrKept(w, DoCreateApp(w, pid, r.app, r.binary))
    ensures r.StopApp? && r.name in AppsOf(w.store, pid) ==> SavedOrKept(w, DoStopApp(w, pid, r.name, r.done))
    ensures r.DeleteApp? && r.name in AppsOf(w.store, pid) ==> SavedOrKept(w, DoDeleteApp(w, pid, r.name))
  {
  }

  /** A request that satisfies the guard saves what it changes; one that does not leaves a change in
      memory alone. */
  lemma StepSavesOrKeeps(w: World, r: Request, w': World)
    requires WorldInv(w) && Step(w, r, w') && !r.Restart?
    ensures if KeepsDurable(w, r) then SavedOrKept(w, w') else LeftUnsaved(w, w')
  {
    if r.CreateProject? {
      CreationSavesOrKeeps(w, r.name, r.domains, r.id, r.vm);
    } else if !r.Touch? && Find(w.store, r.key).Some? {
      var pid := Find(w.store, r.key).value;
      match r
      case UpdateApp(_, n, c) => if n in AppsOf(w.store, pid) { UpdateAppSavesOrKeeps(w, pid, n, c); }
      case UpdateProject(_, resources, done) => UpdateProjectSavesOrKeeps(w, pid, resources, done);
      case DeployApp(_, n, image, done) => if n in AppsOf(w.store, pid) { DeploySavesOrKeeps(w, pid, n, image, done); }
      case UpdateDomains(_, domains) => DomainsSaveOrKeep(w, pid, domains, w');
      case _ => OthersSaveOrKeep(w, pid, r);
    }
  }

  lemma RestartIsDurable(w: World, w': World)
    requires Step(w, Restart, w')
    ensures Durable(w')
  {
  }

  lemma GuardDecides(w: World, w': World, kept: bool)
    requires Durable(w) && if kept then SavedOrKept(w, w') else LeftUnsaved(w, w')
    ensures Durable(w') <==> kept
  {
  }

  /** From a world whose state file is up to date, a request keeps it so if and only if it satisfies
      the guard. */
  lemma StepKeepsDurable(w: World, r: Request, w': World)
    requires WorldInv(w) && Durable(w) && Step(w, r, w')
    ensures Durable(w') <==> KeepsDurable(w, r)
  {
    if r.Restart? {
      RestartIsDurable(w, w');
    } else {
      StepSavesOrKeeps(w, r, w');
      GuardDecides(w, w', KeepsDurable(w, r));
    }
  }

  // ---------------------------------------------------------------- runs

  lemma {:induction false} DurableUpTo(ws: seq<World>, rs: seq<Request>, n: nat)
    requires Trace(ws, rs) && ws[0] == Fresh && n <= |rs|
    requires forall i :: 0 <= i < n ==> KeepsDurable(ws[i], rs[i])
    ensures Durable(ws[n])
  {
    if n > 0 {
      DurableUpTo(ws, rs, n - 1);
      InvAt(ws, rs, n - 1);
      StepKeepsDurable(ws[n - 1], rs[n - 1], ws[n]);
    }
  }

  /** Over every run of a fresh daemon the state file is up to date all along if and only if every
      request satisfied the guard. */
  lemma RunKeepsDurable(ws: seq<World>, rs: seq<Request>)
    requires Trace(ws, rs) && ws[0] == Fresh
    ensures (forall i :: 0 <= i < |ws| ==> Durable(ws[i])) <==> (forall i :: 0 <= i < |rs| ==> KeepsDurable(ws[i], rs[i]))
  {
    if forall i :: 0 <= i < |ws| ==> Durable(ws[i]) {
      forall i | 0 <= i < |rs| ensures KeepsDurable(ws[i], rs[i]) {
        InvAt(ws, rs, i);
        StepKeepsDurable(ws[i], rs[i], ws[i + 1]);
      }
    }
    if forall i :: 0 <= i < |rs| ==> KeepsDurable(ws[i], rs[i]) {
      forall i | 0 <= i < |ws| ensures Durable(ws[i]) {
        DurableUpTo(ws, rs, i);
      }
    }
  }

  // From m on nothing is saved and the daemon is not restarted.
  ghost predicate NothingSaved(ws: seq<World>, rs: seq<Request>, m: nat)
    requires |ws| == |rs| + 1
  {
    && (forall i :: m <= i < |ws| ==> ws[i].saves == ws[m].saves)
    && (forall i :: m <= i < |rs| ==> !rs[i].Restart?)
  }

  lemma KeepsStill(w: World, r: Request, w': World)
    requires WorldInv(w) && Step(w, r, w') && KeepsDurable(w, r) && !r.Restart?
    ensures w'.saves == w.saves ==> w'.store == w.store
  {
    StepSavesOrKeeps(w, r, w');
  }

  lemma {:induction false} StoreStays(ws: seq<World>, rs: seq<Request>, m: nat, n: nat)
    requires Trace(ws, rs) && ws[0] == Fresh && m <= n <= |rs| && NothingSaved(ws, rs, m)
    requires forall i :: m <= i < n ==> KeepsDurable(ws[i], rs[i])
    ensures ws[n].store == ws[m].store
  {
    if m < n {
      StoreStays(ws, rs, m, n - 1);
      InvAt(ws, rs, n - 1);
      KeepsStill(ws[n - 1], rs[n - 1], ws[n]);
    }
  }

  /** After the last save, and if at most one request broke the guard since, a restart gives back
      the store as it was if and only if none did. */
  lemma RestartGivesBack(ws: seq<World>, rs: seq<Request>, m: nat, w': World)
    requires Trace(ws, rs) && ws[0] == Fresh && m <= |rs| && Durable(ws[m]) && NothingSaved(ws, rs, m)
    requires forall i, j :: m <= i < |rs| && m <= j < |rs| && !KeepsDurable(ws[i], rs[i]) && !KeepsDurable(ws[j], rs[j]) ==> i == j
    requires Step(ws[|rs|], Restart, w')
    ensures w'.store == ws[|rs|].store <==> forall i :: m <= i < |rs| ==> KeepsDurable(ws[i], rs[i])
  {
    if j :| m <= j < |rs| && !KeepsDurable(ws[j], rs[j]) {
      StoreStays(ws, rs, m, j);
      InvAt(ws, rs, j);
      assert ws[j].saves == ws[m].saves && ws[j + 1].saves == ws[m].saves && ws[|rs|].saves == ws[m].saves;
      StepKeepsDurable(ws[j], rs[j], ws[j + 1]);
      assert NothingSaved(ws, rs, j + 1);
      StoreStays(ws, rs, j + 1, |rs|);
    } else {
      StoreStays(ws, rs, m, |rs|);
      assert ws[|rs|].saves == ws[m].saves;
    }
  }

  // ---------------------------------------------------------------- a refused update

  const REFUSED := UpdateApp("1", "a", NewPorts([81]).(policy := Some(false)))

  lemma RefusesPorts(w: World) returns (w': World)
    requires w.store == One([80]) && w.routes == map[]
    ensures Answers(w, REFUSED, w', One([81]), map[]) && w'.saves == w.saves
  {
    FoundOne(One([80]).apps);
    w' := DoUpdateApp(w, "1", "a", REFUSED.change);
    assert EarlyFields(AppA([80]), REFUSED.change) == AppA([81]);
    assert One([80]).apps["1"]["a" := AppA([81])] == One([81]).apps["1"];
    assert PutApp(w.store, "1", AppA([81])) == One([81]);
  }

  /** A run: a refused update of the ports stays in memory, and a restart takes it back. */
  lemma RefusedUpdateIsLost() returns (ws: seq<World>)
    ensures RunTo(ws, CREATED + [REFUSED], One([81]), map[])
    ensures LastSave(ws[|CREATED| + 1]) == One([80])
  {
    ws := AppIsCreated();
    DurableUpTo(ws, CREATED, 2);
    var w' := RefusesPorts(ws[|CREATED|]);
    Then(ws, CREATED, REFUSED, w', One([81]), map[]);
    ws := ws + [w'];
  }

  // ---------------------------------------------------------------- a failed resize

  const FAILED_RESIZE := UpdateProject("1", Some("4 CPUs"), false)

  function Resized(): Store {
    One([80]).(projects := map["1" := Project("1", "p", ["d"], "4 CPUs")])
  }

  lemma KeepsResources(w: World) returns (w': World)
    requires w.store == One([80]) && w.routes == map[]
    ensures Answers(w, FAILED_RESIZE, w', Resized(), map[]) && w'.saves == w.saves
  {
    FoundOne(One([80]).apps);
    w' := DoUpdateProject(w, "1", Some("4 CPUs"), false);
    assert w'.store.projects == Resized().projects;
  }

  /** A run: the resources of a failed resize stay in memory, and a restart takes them back. */
  lemma FailedResizeIsLost() returns (ws: seq<World>)
    ensures RunTo(ws, CREATED + [FAILED_RESIZE], Resized(), map[])
    ensures LastSave(ws[|CREATED| + 1]) == One([80])
  {
    ws := AppIsCreated();
    DurableUpTo(ws, CREATED, 2);
    var w' := KeepsResources(ws[|CREATED|]);
    Then(ws, CREATED, FAILED_RESIZE, w', Resized(), map[]);
    ws := ws + [w'];
  }
}
