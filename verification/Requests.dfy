/** What each request does, said of what the store and the route table hold before and after it. */
module Requests {
  import opened Options
  import opened Paths
  import opened Stores
  import opened Routes
  import opened RouteProperties
  import opened DerivedRoutes
  import opened RouteWitnesses

  // ---------------------------------------------------------------- names

  /** Under the invariant a key finds the project with that ID; a key that is no ID finds the project
      with that name; any other key finds nothing. */
  lemma FoundByIdOrName(s: Store, key: string, pid: string)
    requires StoreInv(s)
    ensures key in s.projects ==> Find(s, key) == Some(key)
    ensures key !in s.projects && pid in s.projects && s.projects[pid].name == key ==> Find(s, key) == Some(pid)
    ensures Find(s, key) == None <==> key !in s.projects && forall q :: q in s.projects ==> s.projects[q].name != key
  {
    LookupsDetermined(s, key, key, "");
    LookupsDetermined(s, key, pid, "");
    forall q | q in s.projects && (q == key || (key !in s.projects && s.projects[q].name == key)) ensures Finds(s, key, q) {
    }
  }

  /** The store derives a route if and only if the key is the site of an available app with a port,
      in a project whose machine has an address; the target is that address and the first port. */
  lemma DerivedSites(s: Store, pid: string, n: string, k: string, t: Target)
    ensures Derives(s, pid, n, k, t) <==>
      && (exists d :: IsSite(s, k, pid, n, d))
      && s.apps[pid][n].ports != []
      && InstanceOf(s, pid).Some? && InstanceOf(s, pid).value.ip != ""
      && t == Target(InstanceOf(s, pid).value.ip, s.apps[pid][n].ports[0])
  {
    if Derives(s, pid, n, k, t) {
      var d :| d in s.projects[pid].domains && k == Key(Hostname(AppsOf(s, pid)[n]), d);
      assert IsSite(s, k, pid, n, d);
    }
    if d :| IsSite(s, k, pid, n, d) {
      assert k in Keys(Hostname(s.apps[pid][n]), s.projects[pid].domains);
    }
  }

  // ---------------------------------------------------------------- binding and dropping

  lemma SiteIsKey(a: App, domain: string)
    ensures Site(a, domain) == Key(Hostname(a), domain)
  {
  }

  // Key k is where an app is reached under some domain.
  predicate SiteAmong(a: App, domains: seq<string>, k: string) {
    exists d :: d in domains && k == Site(a, d)
  }

  ghost predicate SiteOfSome(apps: map<string, App>, domains: seq<string>, k: string) {
    exists n :: n in apps && SiteAmong(apps[n], domains, k)
  }

  predicate Alike(routes: Table, routes': Table, k: string) {
    (k in routes' <==> k in routes) && (k in routes ==> routes'[k] == routes[k])
  }

  lemma SitesAreKeys(a: App, domains: seq<string>, k: string)
    ensures SiteAmong(a, domains, k) <==> k in Keys(Hostname(a), domains)
  {
    if d :| d in domains && k == Site(a, d) {
      SiteIsKey(a, d);
    }
    if k in Keys(Hostname(a), domains) {
      var d :| d in domains && k == Key(Hostname(a), d);
      SiteIsKey(a, d);
    }
  }

  lemma SitesAreAllKeys(apps: map<string, App>, domains: seq<string>, k: string)
    ensures SiteOfSome(apps, domains, k) <==> k in AllKeys(apps, domains)
  {
    if n :| n in apps && SiteAmong(apps[n], domains, k) {
      var d :| d in domains && k == Site(apps[n], d);
      SiteIsKey(apps[n], d);
    }
    if k in AllKeys(apps, domains) {
      var n, d :| n in apps && d in domains && k == Key(Hostname(apps[n]), d);
      SiteIsKey(apps[n], d);
      assert SiteAmong(apps[n], domains, k);
    }
  }

  /** Registering an available app with a port binds its sites, and only them. */
  lemma RegisterBinds(routes: Table, domains: seq<string>, a: App, ip: string, k: string)
    ensures
      var after := Register(routes, domains, a, ip);
      if a.available != Some(false) && a.ports != [] && SiteAmong(a, domains, k)
      then k in after && after[k] == Target(ip, a.ports[0])
      else Alike(routes, after, k)
  {
    SitesAreKeys(a, domains, k);
  }

  // The table without the sites of an app, or of all apps of a project.
  ghost predicate WithoutSites(routes: Table, routes': Table, apps: map<string, App>, domains: seq<string>) {
    forall k :: if SiteOfSome(apps, domains, k) then k !in routes' else Alike(routes, routes', k)
  }

  lemma DropsAllKeys(routes: Table, apps: map<string, App>, domains: seq<string>)
    ensures WithoutSites(routes, routes - AllKeys(apps, domains), apps, domains)
  {
    forall k ensures SiteOfSome(apps, domains, k) <==> k in AllKeys(apps, domains) {
      SitesAreAllKeys(apps, domains, k);
    }
  }

  lemma DropsKeys(routes: Table, n: string, a: App, domains: seq<string>)
    ensures WithoutSites(routes, Unregister(routes, Hostname(a), domains), map[n := a], domains)
  {
    forall k ensures SiteOfSome(map[n := a], domains, k) <==> k in Keys(Hostname(a), domains) {
      SitesAreKeys(a, domains, k);
      assert SiteAmong(a, domains, k) ==> n in map[n := a];
    }
  }

  // ---------------------------------------------------------------- requests about a project

  lemma CreatedWithMachine(w: World, p: Project, v: Vm)
    requires p.id !in w.store.projects && p.id !in w.store.instances && p.id !in w.store.apps && v.id !in w.store.instances
    ensures
      var t := RecordVm(RecordProject(w, p), p.id, Some(v)).store;
      && t.projects == w.store.projects[p.id := p] && t.apps == w.store.apps
      && t.instances == if v.domainName == "" || v.domainName == "goship-" + p.name
                        then w.store.instances[v.id := Instance(v.id, p.id, v.domainName, v.ip)] else w.store.instances
  {
    assert w.store.projects[p.id := p.(domains := [])][p.id := p] == w.store.projects[p.id := p];
    assert p.domains == [] ==> p.(domains := []) == p;
  }

  lemma CreatedWithout(w: World, p: Project)
    requires p.id !in w.store.projects && p.id !in w.store.instances && p.id !in w.store.apps
    ensures RecordVm(RecordProject(w, p), p.id, None).store == w.store
  {
    FailedCreateLeavesNoTrace(w.store, p);
    assert p.domains == [] ==> p.(domains := []) == p;
  }

  /** A project is created if and only if its name is one path component and nobody else's; it is gone
      again if its machine does not come up, and otherwise has its domains and, if the machine is its
      own, its instance. No route changes. */
  lemma CreateProjectDoes(w: World, name: string, domains: seq<string>, id: string, vm: Option<Vm>, w': World)
    requires WorldInv(w) && Admissible(w, CreateProject(name, domains, id, vm))
    requires Step(w, CreateProject(name, domains, id, vm), w')
    ensures
      var ok := SingleComponent(name) && forall q :: q in w.store.projects ==> w.store.projects[q].name != name;
      && w'.routes == w.routes
      && (!ok ==> w' == w)
      && (ok && vm.None? ==> w'.store == w.store)
      && (ok && vm.Some? ==>
            && w'.store.projects == w.store.projects[id := Project(id, name, domains)]
            && w'.store.apps == w.store.apps
            && w'.store.instances ==
                 if vm.value.domainName == "" || vm.value.domainName == "goship-" + name
                 then w.store.instances[vm.value.id := Instance(vm.value.id, id, vm.value.domainName, vm.value.ip)]
                 else w.store.instances)
  {
    ComponentsAreValid(name);
    if vm.Some? {
      CreatedWithMachine(w, Project(id, name, domains), vm.value);
    } else {
      CreatedWithout(w, Project(id, name, domains));
    }
  }

  /** Deleting a project takes along its apps, its instance, the sites of its apps, and nothing else
      but an instance stored under the project's own ID. */
  lemma DeleteProjectDoes(w: World, key: string, pid: string, w': World)
    requires WorldInv(w) && Find(w.store, key) == Some(pid) && Step(w, DeleteProject(key), w')
    ensures w'.store.projects == w.store.projects - {pid} && w'.store.apps == w.store.apps - {pid}
    ensures forall id :: id in w'.store.instances <==>
              id in w.store.instances && id != pid && w.store.instances[id].projectID != pid
    ensures forall id :: id in w'.store.instances ==> w'.store.instances[id] == w.store.instances[id]
    ensures WithoutSites(w.routes, w'.routes, AppsOf(w.store, pid), w.store.projects[pid].domains)
  {
    forall id | IsInstanceOf(w.store, pid, id) ensures InstanceOf(w.store, pid) == Some(w.store.instances[id]) {
      LookupsDetermined(w.store, "", pid, id);
    }
    DropsAllKeys(w.routes, AppsOf(w.store, pid), w.store.projects[pid].domains);
  }

  lemma Readdressed(s: Store, pid: string, id: string, ip: string)
    requires StoreInv(s) && IsInstanceOf(s, pid, id)
    ensures InstanceOf(s, pid) == Some(s.instances[id])
    ensures PutInstance(s, s.instances[id].(ip := ip)) == s.(instances := s.instances[id := s.instances[id].(ip := ip)])
    ensures forall j :: IsInstanceOf(s, pid, j) ==> j == id
  {
    LookupsDetermined(s, "", pid, id);
    assert BindingOk(s.projects, s.instances[id]) && s.instances[id].id == id;
  }

  /** A start that succeeds gives the project's instance its new address. */
  lemma StartProjectDoes(w: World, key: string, pid: string, done: bool, ip: string, w': World)
    requires WorldInv(w) && Find(w.store, key) == Some(pid) && Step(w, StartProject(key, done, ip), w')
    ensures w'.store.projects == w.store.projects && w'.store.apps == w.store.apps && w'.routes == w.routes
    ensures w'.store.instances.Keys == w.store.instances.Keys
    ensures forall id :: id in w.store.instances ==>
              w'.store.instances[id] == if done && w.store.instances[id].projectID == pid
                                        then w.store.instances[id].(ip := ip) else w.store.instances[id]
  {
    if id :| IsInstanceOf(w.store, pid, id) {
      Readdressed(w.store, pid, id, ip);
    } else {
      assert InstanceOf(w.store, pid).None?;
      assert forall id :: id in w.store.instances ==> !IsInstanceOf(w.store, pid, id);
    }
  }

  /** A resource update of a project with a machine leaves the new resources in memory whether or not
      it succeeds, and changes nothing else. */
  lemma UpdateProjectDoes(w: World, key: string, pid: string, resources: Option<string>, done: bool, w': World)
    requires WorldInv(w) && Find(w.store, key) == Some(pid) && Step(w, UpdateProject(key, resources, done), w')
    ensures w'.routes == w.routes && w'.store.instances == w.store.instances && w'.store.apps == w.store.apps
    ensures w'.store.projects ==
      if resources.Some? && InstanceOf(w.store, pid).Some?
      then w.store.projects[pid := w.store.projects[pid].(resources := resources.value)] else w.store.projects
    ensures |w'.saves| > |w.saves| <==> resources.Some? && InstanceOf(w.store, pid).Some? && done
  {
  }

  // App n is available, has a port, and k is one of its sites.
  predicate OffersAt(apps: map<string, App>, domains: seq<string>, n: string, k: string) {
    n in apps && apps[n].available != Some(false) && apps[n].ports != [] && SiteAmong(apps[n], domains, k)
  }

  lemma OffersAreServed(apps: map<string, App>, domains: seq<string>, k: string)
    ensures forall n :: OffersAt(apps, domains, n, k) <==> Serves(apps, domains, n, k)
  {
    forall n ensures OffersAt(apps, domains, n, k) <==> Serves(apps, domains, n, k) {
      if n in apps {
        SitesAreKeys(apps[n], domains, k);
      }
    }
  }

  // What the table has after the sites under the old domains have gone and those under the new ones
  // have come.
  lemma MovedSites(before: Table, after: Table, apps: map<string, App>, former: seq<string>, domains: seq<string>, ip: string, k: string)
    requires RegisteredAll(before - AllKeys(apps, former), after, apps, domains, ip)
    ensures
      if exists n :: OffersAt(apps, domains, n, k) then
        k in after && exists n :: OffersAt(apps, domains, n, k) && after[k] == Target(ip, apps[n].ports[0])
      else if SiteOfSome(apps, former, k) then k !in after
      else Alike(before, after, k)
  {
    SitesAreAllKeys(apps, former, k);
    OffersAreServed(apps, domains, k);
  }

  /** A domain update stores the new domains. A key at which the project, with an address, now offers
      an app goes to one of the apps there; the other sites under the old domains are gone; every
      other key stays. */
  lemma UpdateDomainsDoes(w: World, key: string, pid: string, domains: seq<string>, w': World, k: string)
    requires WorldInv(w) && Find(w.store, key) == Some(pid) && Step(w, UpdateDomains(key, domains), w')
    ensures w'.store == w.store.(projects := w.store.projects[pid := w.store.projects[pid].(domains := domains)])
    ensures
      var apps := AppsOf(w.store, pid);
      if Addressed(w.store, pid) && exists n :: OffersAt(apps, domains, n, k) then
        k in w'.routes && exists n :: OffersAt(apps, domains, n, k) && w'.routes[k] == Target(InstanceOf(w.store, pid).value.ip, apps[n].ports[0])
      else if SiteOfSome(apps, w.store.projects[pid].domains, k) then k !in w'.routes
      else Alike(w.routes, w'.routes, k)
  {
    var apps, former := AppsOf(w.store, pid), w.store.projects[pid].domains;
    InstanceStays(w.store, w'.store, pid);
    if Addressed(w.store, pid) {
      MovedSites(w.routes, w'.routes, apps, former, domains, InstanceOf(w.store, pid).value.ip, k);
    } else {
      DropsAllKeys(w.routes, apps, former);
    }
  }

  // ---------------------------------------------------------------- requests about an app

  // Nothing but one app of one project differs.
  ghost predicate OnlyApp(s: Store, t: Store, pid: string, n: string) {
    && t.projects == s.projects && t.instances == s.instances
    && (forall q :: q != pid ==> AppsOf(t, q) == AppsOf(s, q))
    && (forall m :: m != n ==>
          && (m in AppsOf(t, pid) <==> m in AppsOf(s, pid))
          && (m in AppsOf(s, pid) ==> AppsOf(t, pid)[m] == AppsOf(s, pid)[m]))
  }

  lemma PutAppIsOnly(s: Store, pid: string, b: App)
    ensures OnlyApp(s, PutApp(s, pid, b), pid, b.name)
    ensures b.name in AppsOf(PutApp(s, pid, b), pid) && AppsOf(PutApp(s, pid, b), pid)[b.name] == b
  {
  }

  lemma DropAppIsOnly(s: Store, pid: string, n: string)
    ensures OnlyApp(s, DropApp(s, pid, n), pid, n) && n !in AppsOf(DropApp(s, pid, n), pid)
  {
  }

  // What the create handler checks.
  ghost predicate Creatable(s: Store, pid: string, a: App, binary: string) {
    && SingleComponent(a.name) && a.name !in AppsOf(s, pid)
    && a.mode in ["", "container", "process"]
    && if a.mode == "process" then binary != "" else a.ports != []
  }

  /** An app is created if and only if the request is well-formed and the name is new; it is stored as
      it was given, as a container if no mode was. */
  lemma CreateAppDoes(w: World, key: string, pid: string, a: App, binary: string, w': World)
    requires WorldInv(w) && Find(w.store, key) == Some(pid) && Step(w, CreateApp(key, a, binary), w')
    ensures !Creatable(w.store, pid, a, binary) ==> w' == w
    ensures Creatable(w.store, pid, a, binary) ==>
      && OnlyApp(w.store, w'.store, pid, a.name) && w'.routes == w.routes && a.name in AppsOf(w'.store, pid)
      && AppsOf(w'.store, pid)[a.name] == if a.mode == "" then a.(mode := "container") else a
  {
    ComponentsAreValid(a.name);
    PutAppIsOnly(w.store, pid, if a.mode == "" then a.(mode := "container") else a);
  }

  // The app with the fields of a change that are given.
  ghost predicate Changed(a: App, b: App, c: AppChange, all: bool) {
    && b.name == a.name && b.mode == a.mode
    && b.image == (match c.image case Some(x) => x case None => a.image)
    && b.ports == (match c.ports case Some(x) => x case None => a.ports)
    && b.meta == (match c.meta case Some(x) => x case None => a.meta)
    && b.hostname == (if all && c.hostname.Some? then c.hostname.value else a.hostname)
    && b.available == (if all && c.available.Some? then c.available else a.available)
  }

  lemma UpdatedApp(w: World, pid: string, n: string, c: AppChange) returns (b: App)
    requires pid in w.store.projects && n in AppsOf(w.store, pid) && AppsOf(w.store, pid)[n].name == n
    ensures b.name == n && Changed(AppsOf(w.store, pid)[n], b, c, c.policy != Some(false))
    ensures
      var t := DoUpdateApp(w, pid, n, c).store;
      t == PutApp(w.store, pid, b) || (t == w.store && b == AppsOf(w.store, pid)[n])
  {
    b := EarlyFields(AppsOf(w.store, pid)[n], c);
    if c.policy != Some(false) {
      b := LateFields(b, c);
    }
  }

  /** An app update stores every field it gives and no other; if its restart policy is refused, only
      those before the policy. */
  lemma UpdateAppStores(w: World, key: string, pid: string, n: string, c: AppChange, w': World)
    requires WorldInv(w) && Find(w.store, key) == Some(pid) && n in AppsOf(w.store, pid)
    requires Step(w, UpdateApp(key, n, c), w')
    ensures OnlyApp(w.store, w'.store, pid, n) && n in AppsOf(w'.store, pid)
    ensures Changed(AppsOf(w.store, pid)[n], AppsOf(w'.store, pid)[n], c, c.policy != Some(false))
  {
    assert HasApp(w.store.apps, pid, n) && AppsOf(w.store, pid)[n].name == n;
    var b := UpdatedApp(w, pid, n, c);
    PutAppIsOnly(w.store, pid, b);
  }

  /** The routes after an accepted app update that gives a hostname or availability: the former sites
      are gone unless they are sites still, and the present sites are bound if the app is available
      with a port in a project with an address. */
  lemma UpdateAppRoutes(w: World, key: string, pid: string, n: string, c: AppChange, w': World, k: string)
    requires WorldInv(w) && Find(w.store, key) == Some(pid) && n in AppsOf(w.store, pid)
    requires Step(w, UpdateApp(key, n, c), w')
    ensures
      var a, domains := AppsOf(w.store, pid)[n], w.store.projects[pid].domains;
      && n in AppsOf(w'.store, pid)
      && var b := AppsOf(w'.store, pid)[n];
         if c.policy == Some(false) || (c.hostname.None? && c.available.None?) then Alike(w.routes, w'.routes, k)
         else if Addressed(w.store, pid) && b.available != Some(false) && b.ports != [] && SiteAmong(b, domains, k) then
           k in w'.routes && w'.routes[k] == Target(InstanceOf(w.store, pid).value.ip, b.ports[0])
         else if SiteAmong(a, domains, k) then k !in w'.routes
         else Alike(w.routes, w'.routes, k)
  {
    var a, p := AppsOf(w.store, pid)[n], w.store.projects[pid];
    assert HasApp(w.store.apps, pid, n) && a.name == n;
    UpdateAppStores(w, key, pid, n, c, w');
    InstanceStays(w.store, w'.store, pid);
    SitesAreKeys(a, p.domains, k);
    if Addressed(w.store, pid) {
      RegisterBinds(Unregister(w.routes, Hostname(EarlyFields(a, c)), p.domains), p.domains, AppsOf(w'.store, pid)[n],
                    InstanceOf(w.store, pid).value.ip, k);
    }
  }

  // The app as a deployment leaves it.
  function Imaged(a: App, image: string): App {
    if image == "" then a else a.(image := image)
  }

  lemma DeployedStore(w: World, pid: string, n: string, image: string, done: bool)
    requires pid in w.store.projects && n in AppsOf(w.store, pid) && AppsOf(w.store, pid)[n].name == n
    ensures
      var t := DoDeployApp(w, pid, n, image, done).store;
      && OnlyApp(w.store, t, pid, n) && n in AppsOf(t, pid)
      && AppsOf(t, pid)[n] == Imaged(AppsOf(w.store, pid)[n], image)
  {
    PutAppIsOnly(w.store, pid, AppsOf(w.store, pid)[n].(image := image));
  }

  // The deployment gets to the registration of the routes.
  ghost predicate Deploys(s: Store, pid: string, a: App, done: bool) {
    done && InstanceOf(s, pid).Some? && (a.image != "" || (a.mode != "" && a.mode != "container"))
  }

  lemma DeployedRoutes(w: World, pid: string, n: string, image: string, done: bool)
    requires StoreInv(w.store) && pid in w.store.projects && n in AppsOf(w.store, pid)
    ensures
      var a := Imaged(AppsOf(w.store, pid)[n], image);
      DoDeployApp(w, pid, n, image, done).routes ==
        if Deploys(w.store, pid, a, done)
        then Register(w.routes, w.store.projects[pid].domains, a, InstanceOf(w.store, pid).value.ip) else w.routes
  {
    InstanceStays(w.store, PutApp(w.store, pid, AppsOf(w.store, pid)[n].(image := image)), pid);
  }

  /** A deployment stores the image it gives, and registers the app if the machine is there, the app
      is not a container without an image, and the deployment succeeds. */
  lemma DeployAppDoes(w: World, key: string, pid: string, n: string, image: string, done: bool, w': World, k: string)
    requires WorldInv(w) && Find(w.store, key) == Some(pid) && n in AppsOf(w.store, pid)
    requires Step(w, DeployApp(key, n, image, done), w')
    ensures OnlyApp(w.store, w'.store, pid, n) && n in AppsOf(w'.store, pid)
    ensures AppsOf(w'.store, pid)[n] == Imaged(AppsOf(w.store, pid)[n], image)
    ensures
      var a, domains := Imaged(AppsOf(w.store, pid)[n], image), w.store.projects[pid].domains;
      if Deploys(w.store, pid, a, done) && a.available != Some(false) && a.ports != [] && SiteAmong(a, domains, k)
      then k in w'.routes && w'.routes[k] == Target(InstanceOf(w.store, pid).value.ip, a.ports[0])
      else Alike(w.routes, w'.routes, k)
  {
    assert HasApp(w.store.apps, pid, n) && AppsOf(w.store, pid)[n].name == n;
    DeployedStore(w, pid, n, image, done);
    DeployedRoutes(w, pid, n, image, done);
    if InstanceOf(w.store, pid).Some? {
      RegisterBinds(w.routes, w.store.projects[pid].domains, Imaged(AppsOf(w.store, pid)[n], image),
                    InstanceOf(w.store, pid).value.ip, k);
    }
  }

  /** A stop that succeeds drops the sites of the app; the store stays. */
  lemma StopAppDoes(w: World, key: string, pid: string, n: string, done: bool, w': World)
    requires WorldInv(w) && Find(w.store, key) == Some(pid) && n in AppsOf(w.store, pid)
    requires Step(w, StopApp(key, n, done), w')
    ensures w'.store == w.store
    ensures if done && InstanceOf(w.store, pid).Some?
            then WithoutSites(w.routes, w'.routes, map[n := AppsOf(w.store, pid)[n]], w.store.projects[pid].domains)
            else w'.routes == w.routes
  {
    DropsKeys(w.routes, n, AppsOf(w.store, pid)[n], w.store.projects[pid].domains);
  }

  /** Deleting an app drops it and its sites. */
  lemma DeleteAppDoes(w: World, key: string, pid: string, n: string, w': World)
    requires WorldInv(w) && Find(w.store, key) == Some(pid) && n in AppsOf(w.store, pid)
    requires Step(w, DeleteApp(key, n), w')
    ensures OnlyApp(w.store, w'.store, pid, n) && n !in AppsOf(w'.store, pid)
    ensures WithoutSites(w.routes, w'.routes, map[n := AppsOf(w.store, pid)[n]], w.store.projects[pid].domains)
  {
    DropAppIsOnly(w.store, pid, n);
    DropsKeys(w.routes, n, AppsOf(w.store, pid)[n], w.store.projects[pid].domains);
  }

  /** A request for a project, or an app, that is not there changes nothing. */
  lemma NotFound(w: World, r: Request, w': World)
    requires WorldInv(w) && Step(w, r, w') && !r.CreateProject? && !r.Touch? && !r.Restart?
    requires Find(w.store, r.key).None?
          || ((r.UpdateApp? || r.DeployApp? || r.StopApp? || r.DeleteApp?)
              && r.name !in AppsOf(w.store, Find(w.store, r.key).value))
    ensures w' == w
  {
  }

  // When a request for a stored project writes the state file.
  ghost predicate Writes(s: Store, pid: string, r: Request) {
    match r
    case DeleteProject(_) => true
    case StartProject(_, done, _) => done && InstanceOf(s, pid).Some?
    case UpdateProject(_, resources, done) => done && resources.Some? && InstanceOf(s, pid).Some?
    case UpdateDomains(_, _) => true
    case CreateApp(_, a, binary) => Creatable(s, pid, a, binary)
    case UpdateApp(_, n, c) =>
      n in AppsOf(s, pid) && c.policy != Some(false) && c != AppChange(None, None, None, None, false, None, None)
    case DeployApp(_, n, image, _) => n in AppsOf(s, pid) && image != ""
    case DeleteApp(_, n) => n in AppsOf(s, pid)
    case _ => false
  }

  predicate Wrote(w: World, w': World) {
    w.saves <= w'.saves && |w'.saves| > |w.saves|
  }

  lemma CreateProjectWrites(w: World, name: string, domains: seq<string>, id: string, vm: Option<Vm>, w': World)
    requires Step(w, CreateProject(name, domains, id, vm), w')
    ensures if SingleComponent(name) && forall q :: q in w.store.projects ==> w.store.projects[q].name != name
            then Wrote(w, w') else w'.saves == w.saves
  {
    ComponentsAreValid(name);
  }

  lemma DeleteProjectWrites(w: World, pid: string)
    requires WorldInv(w) && pid in w.store.projects
    ensures Wrote(w, DoDeleteProject(w, pid))
  {
    if InstanceOf(w.store, pid).Some? {
      var id :| IsInstanceOf(w.store, pid, id) && InstanceOf(w.store, pid).value == w.store.instances[id];
      assert BindingOk(w.store.projects, w.store.instances[id]);
    }
  }

  lemma AppWrites(w: World, pid: string, r: Request)
    requires WorldInv(w) && pid in w.store.projects
    ensures r.CreateApp? ==>
      if Writes(w.store, pid, r) then Wrote(w, DoCreateApp(w, pid, r.app, r.binary)) else DoCreateApp(w, pid, r.app, r.binary) == w
    ensures r.UpdateApp? && r.name in AppsOf(w.store, pid) ==>
      if Writes(w.store, pid, r) then Wrote(w, DoUpdateApp(w, pid, r.name, r.change))
      else DoUpdateApp(w, pid, r.name, r.change).saves == w.saves
    ensures r.DeployApp? && r.name in AppsOf(w.store, pid) ==>
      if Writes(w.store, pid, r) then Wrote(w, DoDeployApp(w, pid, r.name, r.image, r.done))
      else DoDeployApp(w, pid, r.name, r.image, r.done).saves == w.saves
  {
    if r.CreateApp? {
      ComponentsAreValid(r.app.name);
    } else if (r.UpdateApp? || r.DeployApp?) && r.name in AppsOf(w.store, pid) {
      assert HasApp(w.store.apps, pid, r.name);
    }
  }

  /** A request for a stored project writes the state file if and only if it is accepted and could
      have changed something in it. */
  lemma WritesWhen(w: World, pid: string, r: Request, w': World)
    requires WorldInv(w) && Step(w, r, w') && !r.CreateProject? && !r.Touch? && !r.Restart?
    requires Find(w.store, r.key) == Some(pid)
    ensures if Writes(w.store, pid, r) then Wrote(w, w') else w'.saves == w.saves
  {
    if r.DeleteProject? {
      DeleteProjectWrites(w, pid);
    } else if r.CreateApp? || r.UpdateApp? || r.DeployApp? {
      AppWrites(w, pid, r);
    } else {
      OtherWrites(w, pid, r, w');
    }
  }

  lemma OtherWrites(w: World, pid: string, r: Request, w': World)
    requires WorldInv(w) && Step(w, r, w') && !r.CreateProject? && !r.Touch? && !r.Restart?
    requires Find(w.store, r.key) == Some(pid)
    requires !r.DeleteProject? && !r.CreateApp? && !r.UpdateApp? && !r.DeployApp?
    ensures if Writes(w.store, pid, r) then Wrote(w, w') else w'.saves == w.saves
  {
  }

  /** A request that changes nothing modelled writes the store as it is. */
  lemma TouchWrites(w: World, w': World)
    requires Step(w, Touch, w')
    ensures w'.store == w.store && w'.routes == w.routes && w'.saves == w.saves + [w.store]
  {
  }

  /** A restart brings back what was saved last, with the derived routes. */
  lemma RestartDoes(w: World, w': World)
    requires WorldInv(w) && Step(w, Restart, w')
    ensures w'.store == (if w.saves == [] then Empty else w.saves[|w.saves| - 1]) && w'.saves == w.saves
    ensures NoCollision(w'.store) ==> forall k, t :: (k in w'.routes && w'.routes[k] == t) <==> DerivedRoute(w'.store, k, t)
  {
    if NoCollision(w'.store) {
      RebuildIsDerived(w'.store, w'.routes);
    }
  }

  // ---------------------------------------------------------------- a run with hostnames

  function Named(hostname: string): App {
    App("web", "container", "x", hostname, None, [80])
  }

  function WithWeb(hostname: string): Store {
    WithApps(map["1" := map["web" := Named(hostname)]])
  }

  const RENAMES := AppChange(None, None, None, None, false, Some("api"), None)
  const CREATE_WEB := CreateApp("1", Named("www"), "")
  const DEPLOY_WEB := DeployApp("1", "web", "", true)
  const RENAME_WEB := UpdateApp("1", "web", RENAMES)

  lemma CreatesWeb(w: World) returns (w': World)
    requires w.store == NoApp && w.routes == map[]
    ensures Answers(w, CREATE_WEB, w', WithWeb("www"), map[])
  {
    FoundOne(map[]);
    w' := DoCreateApp(w, "1", Named("www"), "");
    assert w'.store == WithWeb("www");
  }

  lemma SitesOfWeb(hostname: string)
    requires hostname != ""
    ensures Keys(Hostname(Named(hostname)), ["d"]) == {hostname + "." + "d"}
  {
    assert Key(hostname, "d") == hostname + "." + "d";
  }

  lemma DeploysWeb(w: World) returns (w': World)
    requires w.store == WithWeb("www") && w.routes == map[]
    ensures Answers(w, DEPLOY_WEB, w', WithWeb("www"), map["www.d" := T])
  {
    FoundOne(WithWeb("www").apps);
    SitesOfWeb("www");
    assert "www" + "." + "d" == "www.d";
    w' := DoDeployApp(w, "1", "web", "", true);
    assert w'.routes == map["www.d" := T];
  }

  lemma StoresName(w: World)
    requires w.store == WithWeb("www")
    ensures PutApp(w.store, "1", Named("api")) == WithWeb("api")
    ensures LateFields(EarlyFields(Named("www"), RENAMES), RENAMES) == Named("api")
    ensures ValidComponent("web")
  {
    assert WithWeb("www").apps["1"]["web" := Named("api")] == WithWeb("api").apps["1"];
  }

  lemma MovesRoute()
    ensures
      Register(Unregister(map["www.d" := T], "www", ["d"]), ["d"], Named("api"), "10.0.0.1") == map["api.d" := T]
  {
    SitesOfWeb("www");
    SitesOfWeb("api");
    assert "www" + "." + "d" == "www.d" && "api" + "." + "d" == "api.d";
    assert Unregister(map["www.d" := T], "www", ["d"]) == map[];
  }

  lemma RenamesWeb(w: World) returns (w': World)
    requires w.store == WithWeb("www") && w.routes == map["www.d" := T]
    ensures Answers(w, RENAME_WEB, w', WithWeb("api"), map["api.d" := T])
  {
    FoundOne(WithWeb("www").apps);
    FoundOne(WithWeb("api").apps);
    StoresName(w);
    MovesRoute();
    w' := DoUpdateApp(w, "1", "web", RENAMES);
  }

  /** A run: an app with a hostname of its own is reached there, and after the hostname has been
      changed at the new one only. */
  lemma RenamedAppMoves() returns (ws: seq<World>)
    ensures |ws| == 5 && RunTo(ws[..4], [CREATE_PROJECT, CREATE_WEB, DEPLOY_WEB], WithWeb("www"), map["www.d" := T])
    ensures RunTo(ws, [CREATE_PROJECT, CREATE_WEB, DEPLOY_WEB, RENAME_WEB], WithWeb("api"), map["api.d" := T])
  {
    var w1 := CreatesProject();
    Then([Fresh], [], CREATE_PROJECT, w1, NoApp, map[]);
    var w2 := CreatesWeb(w1);
    Then([Fresh] + [w1], [] + [CREATE_PROJECT], CREATE_WEB, w2, WithWeb("www"), map[]);
    var w3 := DeploysWeb(w2);
    var rs := [] + [CREATE_PROJECT] + [CREATE_WEB];
    Then([Fresh] + [w1] + [w2], rs, DEPLOY_WEB, w3, WithWeb("www"), map["www.d" := T]);
    var w4 := RenamesWeb(w3);
    ws := [Fresh] + [w1] + [w2] + [w3];
    Then(ws, rs + [DEPLOY_WEB], RENAME_WEB, w4, WithWeb("api"), map["api.d" := T]);
    assert rs + [DEPLOY_WEB] == [CREATE_PROJECT, CREATE_WEB, DEPLOY_WEB];
    assert rs + [DEPLOY_WEB] + [RENAME_WEB] == [CREATE_PROJECT, CREATE_WEB, DEPLOY_WEB, RENAME_WEB];
    assert (ws + [w4])[..4] == ws;
    ws := ws + [w4];
  }
}
