/** What every run of the API handlers keeps, and how far the incremental routes agree with the
    routes the store implies. */
module RouteProperties {
  import opened Options
  import opened Paths
  import opened Stores
  import opened Routes

  // ---------------------------------------------------------------- pieces of the invariant

  lemma PutKeeps(w: World, s: Store)
    requires SavesOk(w.saves) && StoreInv(s)
    ensures SavesOk(Put(w, s).saves)
  {
  }

  // Fewer keys under a store that still has every witness of the remaining ones.
  lemma SoundMoves(s: Store, routes: Table, s': Store, routes': Table)
    requires Sound(s, routes)
    requires forall k :: k in routes' ==> k in routes
    requires forall k, pid, n, d :: k in routes' && Names(s, k, pid, n, d) ==> Names(s', k, pid, n, d)
    ensures Sound(s', routes')
  {
    forall k | k in routes' ensures exists pid, n, d :: Names(s', k, pid, n, d) {
      var pid, n, d :| Names(s, k, pid, n, d);
      assert Names(s', k, pid, n, d);
    }
  }

  lemma RegisterStaysSound(s: Store, routes: Table, pid: string, a: App, ip: string)
    requires Sound(s, routes) && pid in s.projects && HasApp(s.apps, pid, a.name) && s.apps[pid][a.name] == a
    ensures Sound(s, Register(routes, s.projects[pid].domains, a, ip))
  {
    var domains := s.projects[pid].domains;
    forall k | k in Register(routes, domains, a, ip) ensures exists p, n, d :: Names(s, k, p, n, d) {
      if k !in routes {
        var d :| d in domains && k == Key(Hostname(a), d);
        assert Names(s, k, pid, a.name, d);
      }
    }
  }

  lemma RegisteredAllStaysSound(s: Store, before: Table, after: Table, pid: string, ip: string)
    requires Sound(s, before) && pid in s.projects
    requires RegisteredAll(before, after, AppsOf(s, pid), s.projects[pid].domains, ip)
    ensures Sound(s, after)
  {
    forall k | k in after ensures exists p, n, d :: Names(s, k, p, n, d) {
      if n :| Serves(AppsOf(s, pid), s.projects[pid].domains, n, k) {
        var d :| d in s.projects[pid].domains && k == Key(Hostname(AppsOf(s, pid)[n]), d);
        assert Names(s, k, pid, n, d);
      }
    }
  }

  lemma RebuiltIsSound(routes: Table, s: Store)
    requires Rebuilt(map[], routes, s)
    ensures Sound(s, routes)
  {
    forall k | k in routes ensures exists p, n, d :: Names(s, k, p, n, d) {
      assert DerivedRoute(s, k, routes[k]);
      var pid, n :| Derives(s, pid, n, k, routes[k]);
      var d :| d in s.projects[pid].domains && k == Key(Hostname(AppsOf(s, pid)[n]), d);
      assert Names(s, k, pid, n, d);
    }
  }

  // ---------------------------------------------------------------- one lemma per request

  /** A creation whose VM does not come up leaves the store as it was. */
  lemma FailedCreateLeavesNoTrace(s: Store, p: Project)
    requires p.id !in s.projects && p.id !in s.instances && p.id !in s.apps
    ensures DropProject(PutProject(PutProject(s, p.(domains := [])), p), p.id) == s
    ensures DropProject(PutProject(s, p), p.id) == s
  {
  }

  lemma PutTwice(s: Store, p: Project)
    ensures PutProject(PutProject(s, p.(domains := [])), p) == PutProject(s, p)
  {
  }

  lemma NewProjectKeepsStore(s: Store, p: Project)
    requires StoreInv(s) && ValidComponent(p.name) && !NameTaken(s, p.name) && p.id !in s.projects
    ensures StoreInv(PutProject(s, p.(domains := []))) && StoreInv(PutProject(s, p))
  {
    PutProjectKeeps(s, p.(domains := []));
    PutProjectKeeps(s, p);
  }

  lemma NewInstanceKeepsStore(s: Store, p: Project, i: Instance)
    requires StoreInv(s) && p.id !in s.projects && StoreInv(PutProject(s, p)) && i.projectID == p.id
    ensures StoreInv(PutInstance(PutProject(s, p), i))
  {
    forall id ensures !IsInstanceOf(PutProject(s, p), p.id, id) {
      assert id in s.instances ==> BindingOk(s.projects, s.instances[id]);
    }
    PutInstanceKeeps(PutProject(s, p), i);
  }

  lemma NewProjectStaysSound(s: Store, routes: Table, p: Project, instances: map<string, Instance>)
    requires Sound(s, routes) && p.id !in s.projects
    ensures Sound(PutProject(s, p).(instances := instances), routes)
  {
    SoundMoves(s, routes, PutProject(s, p).(instances := instances), routes);
  }

  // Where the recording of a project gets to, and that each of its saves is of a good store.
  lemma RecordProjectKeeps(w: World, p: Project)
    requires SavesOk(w.saves) && StoreInv(PutProject(w.store, p.(domains := []))) && StoreInv(PutProject(w.store, p))
    ensures RecordProject(w, p).store == PutProject(w.store, p) && SavesOk(RecordProject(w, p).saves)
  {
    var w1 := Put(w, PutProject(w.store, p.(domains := [])));
    PutTwice(w.store, p);
    PutKeeps(w, w1.store);
    PutKeeps(w1, PutProject(w.store, p));
    assert p.domains == [] ==> p.(domains := []) == p;
  }

  lemma RecordVmKeeps(w: World, s: Store, p: Project, vm: Option<Vm>)
    requires StoreInv(s) && StoreInv(w.store) && SavesOk(w.saves) && w.store == PutProject(s, p)
    requires p.id !in s.projects && p.id !in s.instances && p.id !in s.apps
    ensures StoreInv(RecordVm(w, p.id, vm).store) && SavesOk(RecordVm(w, p.id, vm).saves)
  {
    if vm.None? {
      FailedCreateLeavesNoTrace(s, p);
      PutKeeps(w, s);
    } else {
      var i := Instance(vm.value.id, p.id, vm.value.domainName, vm.value.ip);
      NewInstanceKeepsStore(s, p, i);
      PutKeeps(w, w.store);
      PutKeeps(Save(w), PutInstance(w.store, i));
    }
  }

  lemma CreateProjectKeepsStore(w: World, r: Request)
    requires WorldInv(w) && r.CreateProject? && Admissible(w, r)
    ensures
      var w' := DoCreateProject(w, r.name, r.domains, r.id, r.vm);
      StoreInv(w'.store) && SavesOk(w'.saves)
  {
    var p := Project(r.id, r.name, r.domains);
    if ValidComponent(r.name) && !NameTaken(w.store, r.name) {
      NewProjectKeepsStore(w.store, p);
      RecordProjectKeeps(w, p);
      RecordVmKeeps(RecordProject(w, p), w.store, p, r.vm);
    }
  }

  lemma CreateProjectStaysSound(w: World, r: Request)
    requires Sound(w.store, w.routes) && r.CreateProject? && Admissible(w, r)
    ensures
      var w' := DoCreateProject(w, r.name, r.domains, r.id, r.vm);
      Sound(w'.store, w'.routes)
  {
    var s, p := w.store, Project(r.id, r.name, r.domains);
    if ValidComponent(r.name) && !NameTaken(s, r.name) {
      PutTwice(s, p);
      FailedCreateLeavesNoTrace(s, p);
      NewProjectStaysSound(s, w.routes, p, s.instances);
      if r.vm.Some? {
        var i := Instance(r.vm.value.id, r.id, r.vm.value.domainName, r.vm.value.ip);
        NewProjectStaysSound(s, w.routes, p, s.instances[i.id := i]);
      }
    }
  }

  lemma CreateProjectKeeps(w: World, r: Request)
    requires WorldInv(w) && r.CreateProject? && Admissible(w, r)
    ensures WorldInv(DoCreateProject(w, r.name, r.domains, r.id, r.vm))
  {
    CreateProjectKeepsStore(w, r);
    CreateProjectStaysSound(w, r);
  }

  lemma DeleteProjectStaysSound(s: Store, routes: Table, pid: string, instances: map<string, Instance>)
    requires Sound(s, routes) && pid in s.projects
    ensures Sound(DropProject(s.(instances := instances), pid), routes - AllKeys(AppsOf(s, pid), s.projects[pid].domains))
  {
    var t := DropProject(s.(instances := instances), pid);
    var gone := AllKeys(AppsOf(s, pid), s.projects[pid].domains);
    var routes' := routes - gone;
    forall k, q, n, d | k in routes' && Names(s, k, q, n, d) ensures Names(t, k, q, n, d) {
      assert q == pid ==> k in gone;
    }
    SoundMoves(s, routes, t, routes');
  }

  lemma DeleteProjectKeeps(w: World, pid: string)
    requires WorldInv(w) && pid in w.store.projects
    ensures WorldInv(DoDeleteProject(w, pid))
  {
    var i := InstanceOf(w.store, pid);
    InstanceThenProject(w.store, pid);
    DeleteProjectStaysSound(w.store, w.routes, pid, if i.Some? then w.store.instances - {i.value.id} else w.store.instances);
  }

  lemma StartProjectKeeps(w: World, pid: string, done: bool, ip: string)
    requires WorldInv(w) && pid in w.store.projects
    ensures WorldInv(DoStartProject(w, pid, done, ip))
  {
    var i := InstanceOf(w.store, pid);
    if i.Some? {
      PutInstanceKeeps(w.store, i.value.(ip := ip));
      SoundMoves(w.store, w.routes, PutInstance(w.store, i.value.(ip := ip)), w.routes);
    }
  }

  lemma UpdateProjectKeeps(w: World, pid: string, resources: Option<string>, done: bool)
    requires WorldInv(w) && pid in w.store.projects
    ensures WorldInv(DoUpdateProject(w, pid, resources, done))
  {
    if resources.Some? {
      var p := w.store.projects[pid].(resources := resources.value);
      PutProjectKeeps(w.store, p);
      PutKeeps(w, PutProject(w.store, p));
      SoundMoves(w.store, w.routes, PutProject(w.store, p), w.routes);
    }
  }

  lemma NewAppStaysSound(s: Store, routes: Table, pid: string, a: App)
    requires Sound(s, routes) && pid in s.projects && a.name !in AppsOf(s, pid)
    ensures Sound(PutApp(s, pid, a), routes)
  {
    SoundMoves(s, routes, PutApp(s, pid, a), routes);
  }

  lemma CreateAppKeeps(w: World, pid: string, a: App, binary: string)
    requires WorldInv(w) && pid in w.store.projects
    ensures WorldInv(DoCreateApp(w, pid, a, binary))
  {
    if ValidComponent(a.name) && a.name !in AppsOf(w.store, pid) {
      var a' := a.(mode := if a.mode == "" then "container" else a.mode);
      PutAppKeeps(w.store, pid, a');
      PutKeeps(w, PutApp(w.store, pid, a'));
      NewAppStaysSound(w.store, w.routes, pid, a');
    }
  }

  // Rewriting an app without touching hostname or availability moves no key.
  lemma SameKeysStaysSound(s: Store, routes: Table, pid: string, a: App)
    requires Sound(s, routes) && pid in s.projects && HasApp(s.apps, pid, a.name)
    requires Hostname(a) == Hostname(s.apps[pid][a.name]) && Available(a) == Available(s.apps[pid][a.name])
    ensures Sound(PutApp(s, pid, a), routes)
  {
    SoundMoves(s, routes, PutApp(s, pid, a), routes);
  }

  // Without the keys of one app, that app may change freely.
  lemma UnregisterStaysSound(s: Store, routes: Table, pid: string, n: string, apps: map<string, map<string, App>>)
    requires Sound(s, routes) && pid in s.projects && HasApp(s.apps, pid, n)
    requires forall q, m :: HasApp(s.apps, q, m) && (q, m) != (pid, n) ==> HasApp(apps, q, m) && apps[q][m] == s.apps[q][m]
    ensures Sound(s.(apps := apps), Unregister(routes, Hostname(s.apps[pid][n]), s.projects[pid].domains))
  {
    var s' := s.(apps := apps);
    var gone := Keys(Hostname(s.apps[pid][n]), s.projects[pid].domains);
    var routes' := routes - gone;
    forall k, q, m, d | k in routes' && Names(s, k, q, m, d) ensures Names(s', k, q, m, d) {
      assert q == pid && m == n ==> k in gone;
    }
    SoundMoves(s, routes, s', routes');
  }

  lemma PutAppElsewhere(s: Store, pid: string, a: App, q: string, m: string)
    requires HasApp(s.apps, q, m) && (q, m) != (pid, a.name)
    ensures HasApp(PutApp(s, pid, a).apps, q, m) && PutApp(s, pid, a).apps[q][m] == s.apps[q][m]
  {
  }

  lemma ReplaceStaysSound(s: Store, routes: Table, pid: string, a: App)
    requires Sound(s, routes) && pid in s.projects && HasApp(s.apps, pid, a.name)
    ensures Sound(PutApp(s, pid, a), Unregister(routes, Hostname(s.apps[pid][a.name]), s.projects[pid].domains))
  {
    forall q, m | HasApp(s.apps, q, m) && (q, m) != (pid, a.name)
      ensures HasApp(PutApp(s, pid, a).apps, q, m) && PutApp(s, pid, a).apps[q][m] == s.apps[q][m]
    {
      PutAppElsewhere(s, pid, a, q, m);
    }
    UnregisterStaysSound(s, routes, pid, a.name, PutApp(s, pid, a).apps);
  }

  lemma ReconcileStaysSound(s: Store, routes: Table, pid: string, a: App)
    requires Sound(s, routes) && pid in s.projects && s.projects[pid].id == pid && HasApp(s.apps, pid, a.name)
    ensures Sound(PutApp(s, pid, a),
                  Reconcile(PutApp(s, pid, a), routes, s.projects[pid], a, Hostname(s.apps[pid][a.name])))
  {
    var s', p := PutApp(s, pid, a), s.projects[pid];
    ReplaceStaysSound(s, routes, pid, a);
    var removed := Unregister(routes, Hostname(s.apps[pid][a.name]), p.domains);
    assert p.domains == [] ==> removed == routes;
    if InstanceOf(s', pid).Some? {
      RegisterStaysSound(s', removed, pid, a, InstanceOf(s', pid).value.ip);
    }
  }

  lemma UpdateAppKeeps(w: World, pid: string, name: string, c: AppChange)
    requires WorldInv(w) && pid in w.store.projects && name in AppsOf(w.store, pid)
    ensures WorldInv(DoUpdateApp(w, pid, name, c))
  {
    assert HasApp(w.store.apps, pid, name);
    var was := w.store.apps[pid][name];
    var early := EarlyFields(was, c);
    var a := LateFields(early, c);
    PutAppKeeps(w.store, pid, early);
    PutAppKeeps(w.store, pid, a);
    SameKeysStaysSound(w.store, w.routes, pid, early);
    if c.hostname.None? && c.available.None? {
      SameKeysStaysSound(w.store, w.routes, pid, a);
    } else {
      ReconcileStaysSound(w.store, w.routes, pid, a);
    }
  }

  lemma DeployAppKeeps(w: World, pid: string, name: string, image: string, done: bool)
    requires WorldInv(w) && pid in w.store.projects && name in AppsOf(w.store, pid)
    ensures WorldInv(DoDeployApp(w, pid, name, image, done))
  {
    assert HasApp(w.store.apps, pid, name);
    var was := w.store.apps[pid][name];
    var a := if image != "" then was.(image := image) else was;
    PutAppKeeps(w.store, pid, a);
    PutKeeps(w, PutApp(w.store, pid, a));
    SameKeysStaysSound(w.store, w.routes, pid, a);
    var s1 := if image != "" then PutApp(w.store, pid, a) else w.store;
    assert HasApp(s1.apps, pid, a.name) && s1.apps[pid][a.name] == a;
    if InstanceOf(s1, pid).Some? {
      RegisterStaysSound(s1, w.routes, pid, a, InstanceOf(s1, pid).value.ip);
    }
  }

  lemma StopAppKeeps(w: World, pid: string, name: string, done: bool)
    requires WorldInv(w) && pid in w.store.projects && name in AppsOf(w.store, pid)
    ensures WorldInv(DoStopApp(w, pid, name, done))
  {
    SoundMoves(w.store, w.routes, w.store, DoStopApp(w, pid, name, done).routes);
  }

  lemma DeleteAppKeeps(w: World, pid: string, name: string)
    requires WorldInv(w) && pid in w.store.projects && name in AppsOf(w.store, pid)
    ensures WorldInv(DoDeleteApp(w, pid, name))
  {
    DropAppKeeps(w.store, pid, name);
    UnregisterStaysSound(w.store, w.routes, pid, name, DropApp(w.store, pid, name).apps);
  }

  lemma NewDomainsStaySound(s: Store, routes: Table, pid: string, domains: seq<string>)
    requires Sound(s, routes) && pid in s.projects && s.projects[pid].id == pid
    ensures Sound(PutProject(s, s.projects[pid].(domains := domains)),
                  routes - AllKeys(AppsOf(s, pid), s.projects[pid].domains))
  {
    var p := s.projects[pid];
    var s' := PutProject(s, p.(domains := domains));
    var gone := AllKeys(AppsOf(s, pid), p.domains);
    var removed := routes - gone;
    forall k, q, n, d | k in removed && Names(s, k, q, n, d) ensures Names(s', k, q, n, d) {
      assert q == pid ==> k in gone;
    }
    SoundMoves(s, routes, s', removed);
  }

  lemma UpdateDomainsKeeps(w: World, pid: string, domains: seq<string>, w': World)
    requires WorldInv(w) && pid in w.store.projects && DoUpdateDomains(w, pid, domains, w')
    ensures WorldInv(w')
  {
    var s, p := w.store, w.store.projects[pid];
    var s' := PutProject(s, p.(domains := domains));
    PutProjectKeeps(s, p.(domains := domains));
    PutKeeps(w, s');
    var removed := w.routes - AllKeys(AppsOf(s, pid), p.domains);
    NewDomainsStaySound(s, w.routes, pid, domains);
    if InstanceOf(s', pid).Some? && InstanceOf(s', pid).value.ip != "" {
      RegisteredAllStaysSound(s', removed, w'.routes, pid, InstanceOf(s', pid).value.ip);
    }
  }

  lemma StepKeepsInv(w: World, r: Request, w': World)
    requires WorldInv(w) && Admissible(w, r) && Step(w, r, w')
    ensures WorldInv(w')
  {
    if r.Restart? {
      RebuiltIsSound(w'.routes, w'.store);
    } else if r.Touch? {
      PutKeeps(w, w.store);
    } else if r.CreateProject? {
      CreateProjectKeeps(w, r);
    } else if Find(w.store, r.key).Some? {
      var pid := Find(w.store, r.key).value;
      match r
      case DeleteProject(_) => DeleteProjectKeeps(w, pid);
      case StartProject(_, done, ip) => StartProjectKeeps(w, pid, done, ip);
      case UpdateProject(_, resources, done) => UpdateProjectKeeps(w, pid, resources, done);
      case UpdateDomains(_, domains) => UpdateDomainsKeeps(w, pid, domains, w');
      case CreateApp(_, a, binary) => CreateAppKeeps(w, pid, a, binary);
      case UpdateApp(_, n, c) => if n in AppsOf(w.store, pid) { UpdateAppKeeps(w, pid, n, c); }
      case DeployApp(_, n, image, done) => if n in AppsOf(w.store, pid) { DeployAppKeeps(w, pid, n, image, done); }
      case StopApp(_, n, done) => if n in AppsOf(w.store, pid) { StopAppKeeps(w, pid, n, done); }
      case DeleteApp(_, n) => if n in AppsOf(w.store, pid) { DeleteAppKeeps(w, pid, n); }
    }
  }

  // ---------------------------------------------------------------- runs

  // The worlds a sequence of requests goes through.
  ghost predicate Trace(ws: seq<World>, rs: seq<Request>) {
    && |ws| == |rs| + 1
    && forall i :: 0 <= i < |rs| ==> Admissible(ws[i], rs[i]) && Step(ws[i], rs[i], ws[i + 1])
  }

  lemma {:induction false} TraceKeepsInv(ws: seq<World>, rs: seq<Request>)
    requires Trace(ws, rs) && WorldInv(ws[0])
    ensures WorldInv(ws[|rs|])
  {
    if rs != [] {
      var n := |rs| - 1;
      TraceKeepsInv(ws[..|rs|], rs[..n]);
      StepKeepsInv(ws[n], rs[n], ws[n + 1]);
    }
  }

  lemma InvAt(ws: seq<World>, rs: seq<Request>, i: nat)
    requires Trace(ws, rs) && ws[0] == Fresh && i <= |rs|
    ensures WorldInv(ws[i])
  {
    TraceKeepsInv(ws[..i + 1], rs[..i]);
  }

  // Where app a is reached under a domain: at its hostname, or at its name if it has none.
  function Site(a: App, domain: string): string {
    if a.hostname == "" then a.name + "." + domain else a.hostname + "." + domain
  }

  // Key k is the site of an available app n of a stored project under one of its domains.
  ghost predicate IsSite(s: Store, k: string, pid: string, n: string, domain: string) {
    && pid in s.projects && domain in s.projects[pid].domains
    && pid in s.apps && n in s.apps[pid] && s.apps[pid][n].available != Some(false)
    && k == Site(s.apps[pid][n], domain)
  }

  /** Over all runs from a fresh daemon, restarts included, every key in the route table is the site
      of one of the current, available apps of a stored project, under one of its current domains. */
  lemma RoutesAreSound(ws: seq<World>, rs: seq<Request>, k: string)
    requires Trace(ws, rs) && ws[0] == Fresh && k in ws[|rs|].routes
    ensures exists pid, n, d :: IsSite(ws[|rs|].store, k, pid, n, d)
  {
    TraceKeepsInv(ws, rs);
    var pid, n, d :| Names(ws[|rs|].store, k, pid, n, d);
    assert IsSite(ws[|rs|].store, k, pid, n, d);
  }

  /** Over all runs, every state a handler ever wrote to the state file, in the middle of a request
      too, is one that `load` accepts. */
  lemma EverySaveLoads(ws: seq<World>, rs: seq<Request>, i: nat)
    requires Trace(ws, rs) && ws[0] == Fresh && i < |ws[|rs|].saves|
    ensures LoadAccepts(ws[|rs|].saves[i]) && StoreInv(ws[|rs|].saves[i])
  {
    TraceKeepsInv(ws, rs);
    InvLoads(ws[|rs|].saves[i]);
  }
}
