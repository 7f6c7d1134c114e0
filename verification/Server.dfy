/** The API server as an object: store maps and route table change in place, loops visit the maps
    in an arbitrary order. Each handler is the step of Routes that models it. */
module Servers {
  import opened Options
  import opened Paths
  import opened Stores
  import opened Routes
  import opened RouteProperties

  function Restrict(apps: map<string, App>, names: set<string>): map<string, App> {
    map n | n in apps && n in names :: apps[n]
  }

  lemma RemoveOneMore(routes: Table, apps: map<string, App>, seen: set<string>, n: string, domains: seq<string>)
    requires n in apps
    ensures Unregister(routes - AllKeys(Restrict(apps, seen), domains), Hostname(apps[n]), domains)
         == routes - AllKeys(Restrict(apps, seen + {n}), domains)
  {
    var less, more := Restrict(apps, seen), Restrict(apps, seen + {n});
    forall k ensures k in AllKeys(more, domains) <==> k in AllKeys(less, domains) || k in Keys(Hostname(apps[n]), domains) {
      if k in Keys(Hostname(apps[n]), domains) {
        var d :| d in domains && k == Key(Hostname(apps[n]), d);
        assert n in more;
      } else if k in AllKeys(less, domains) {
        var m, d :| m in less && d in domains && k == Key(Hostname(less[m]), d);
        assert m in more;
      }
    }
  }

  // The entry of one key after some apps of a project have been registered.
  ghost predicate RegisteredKey(before: Table, after: Table, apps: map<string, App>, domains: seq<string>, ip: string, k: string) {
    if exists n :: Serves(apps, domains, n, k)
    then k in after && exists n :: Serves(apps, domains, n, k) && after[k] == Target(ip, apps[n].ports[0])
    else (k in after <==> k in before) && (k in before ==> after[k] == before[k])
  }

  lemma ServedAlike(apps: map<string, App>, seen: set<string>, n: string, domains: seq<string>, m: string, k: string)
    requires n in apps && !Serves(apps, domains, n, k)
    ensures Serves(Restrict(apps, seen + {n}), domains, m, k) <==> Serves(Restrict(apps, seen), domains, m, k)
  {
  }

  lemma RegisterOneMoreKey(before: Table, mid: Table, apps: map<string, App>, seen: set<string>, n: string,
                           domains: seq<string>, ip: string, k: string)
    requires n in apps && RegisteredKey(before, mid, Restrict(apps, seen), domains, ip, k)
    ensures RegisteredKey(before, Register(mid, domains, apps[n], ip), Restrict(apps, seen + {n}), domains, ip, k)
  {
    var after, more := Register(mid, domains, apps[n], ip), Restrict(apps, seen + {n});
    if Serves(apps, domains, n, k) {
      assert Serves(more, domains, n, k) && after[k] == Target(ip, more[n].ports[0]);
    } else {
      forall m ensures Serves(more, domains, m, k) <==> Serves(Restrict(apps, seen), domains, m, k) {
        ServedAlike(apps, seen, n, domains, m, k);
      }
    }
  }

  lemma RegisterOneMore(before: Table, mid: Table, apps: map<string, App>, seen: set<string>, n: string,
                        domains: seq<string>, ip: string)
    requires n in apps && RegisteredAll(before, mid, Restrict(apps, seen), domains, ip)
    ensures RegisteredAll(before, Register(mid, domains, apps[n], ip), Restrict(apps, seen + {n}), domains, ip)
  {
    var after, more := Register(mid, domains, apps[n], ip), Restrict(apps, seen + {n});
    forall k
      ensures
        if exists m :: Serves(more, domains, m, k)
        then k in after && exists m :: Serves(more, domains, m, k) && after[k] == Target(ip, more[m].ports[0])
        else (k in after <==> k in before) && (k in before ==> after[k] == before[k])
    {
      assert RegisteredKey(before, mid, Restrict(apps, seen), domains, ip, k);
      RegisterOneMoreKey(before, mid, apps, seen, n, domains, ip, k);
    }
  }

  // The entry of one key after some of the projects have been registered.
  ghost predicate RebuiltKey(before: Table, after: Table, s: Store, seen: set<string>, k: string) {
    if exists pid, n, t :: pid in seen && Derives(s, pid, n, k, t)
    then k in after && exists pid, n :: pid in seen && Derives(s, pid, n, k, after[k])
    else (k in after <==> k in before) && (k in before ==> after[k] == before[k])
  }

  ghost predicate RebuiltFrom(before: Table, after: Table, s: Store, seen: set<string>) {
    forall k :: RebuiltKey(before, after, s, seen, k)
  }

  // What handling one project does to the entry of one key.
  ghost predicate ProjectRegistered(mid: Table, after: Table, s: Store, pid: string)
    requires pid in s.projects
  {
    var i := InstanceOf(s, pid);
    if s.projects[pid].domains == [] || i.None? || i.value.ip == "" then after == mid
    else RegisteredAll(mid, after, AppsOf(s, pid), s.projects[pid].domains, i.value.ip)
  }

  lemma ProjectKey(mid: Table, after: Table, s: Store, pid: string, k: string)
    requires pid in s.projects && ProjectRegistered(mid, after, s, pid)
    ensures
      if exists n, t :: Derives(s, pid, n, k, t) then k in after && exists n :: Derives(s, pid, n, k, after[k])
      else (k in after <==> k in mid) && (k in mid ==> after[k] == mid[k])
  {
    var apps, domains, i := AppsOf(s, pid), s.projects[pid].domains, InstanceOf(s, pid);
    if n, t :| Derives(s, pid, n, k, t) {
      var d :| d in domains && k == Key(Hostname(apps[n]), d);
      var m :| Serves(apps, domains, m, k) && after[k] == Target(i.value.ip, apps[m].ports[0]);
      assert Derives(s, pid, m, k, after[k]);
    } else if i.Some? && i.value.ip != "" {
      forall n ensures !Serves(apps, domains, n, k) {
        if Serves(apps, domains, n, k) {
          assert Derives(s, pid, n, k, Target(i.value.ip, apps[n].ports[0]));
        }
      }
    }
  }

  lemma RebuildOneMoreKey(before: Table, mid: Table, after: Table, s: Store, seen: set<string>, pid: string, k: string)
    requires pid in s.projects && RebuiltKey(before, mid, s, seen, k) && ProjectRegistered(mid, after, s, pid)
    ensures RebuiltKey(before, after, s, seen + {pid}, k)
  {
    ProjectKey(mid, after, s, pid, k);
    if n, t :| Derives(s, pid, n, k, t) {
      var m :| Derives(s, pid, m, k, after[k]);
      assert pid in seen + {pid};
    } else if q, n, t :| q in seen && Derives(s, q, n, k, t) {
      var r, m :| r in seen && Derives(s, r, m, k, mid[k]);
      assert r in seen + {pid};
    }
  }

  lemma RebuildOneMore(before: Table, mid: Table, after: Table, s: Store, seen: set<string>, pid: string)
    requires pid in s.projects && RebuiltFrom(before, mid, s, seen) && ProjectRegistered(mid, after, s, pid)
    ensures RebuiltFrom(before, after, s, seen + {pid})
  {
    forall k ensures RebuiltKey(before, after, s, seen + {pid}, k) {
      RebuildOneMoreKey(before, mid, after, s, seen, pid, k);
    }
  }

  lemma RebuiltFromAll(before: Table, after: Table, s: Store)
    requires RebuiltFrom(before, after, s, s.projects.Keys)
    ensures Rebuilt(before, after, s)
  {
    forall k
      ensures
        if DerivedKey(s, k) then k in after && DerivedRoute(s, k, after[k])
        else (k in after <==> k in before) && (k in before ==> after[k] == before[k])
    {
      assert RebuiltKey(before, after, s, s.projects.Keys, k);
      if DerivedKey(s, k) {
        var pid, n, t :| Derives(s, pid, n, k, t);
        assert pid in s.projects.Keys;
      }
    }
  }

  // What the daemon finds on disk satisfies the invariant of the store.
  lemma SavedLoads(w: World, disk: Store)
    requires WorldInv(w) && disk == if w.saves == [] then Empty else w.saves[|w.saves| - 1]
    ensures StoreInv(disk) && LoadAccepts(disk)
  {
    InvLoads(disk);
  }

  class Server {
    var projects: map<string, Project>
    var instances: map<string, Instance>
    var apps: map<string, map<string, App>>
    var routes: Table
    ghost var saves: seq<Store>

    function State(): Store
      reads this
    {
      Store(projects, instances, apps)
    }

    ghost function View(): World
      reads this
    {
      World(State(), routes, saves)
    }

    constructor ()
      ensures View() == Fresh
    {
      projects, instances, apps, routes, saves := map[], map[], map[], map[], [];
    }

    // ------------------------------------------------------------ lookups

    method GetProject(key: string) returns (r: Option<string>)
      requires StoreInv(State())
      ensures r == Find(State(), key)
    {
      if key in projects {
        LookupsDetermined(State(), key, key, "");
        return Some(key);
      }
      var todo := projects.Keys;
      while todo != {}
        invariant todo <= projects.Keys
        invariant forall id :: id in projects && id !in todo ==> projects[id].name != key
      {
        var id :| id in todo;
        if projects[id].name == key {
          LookupsDetermined(State(), key, id, "");
          return Some(id);
        }
        todo := todo - {id};
      }
      return None;
    }

    method GetInstance(pid: string) returns (r: Option<Instance>)
      requires StoreInv(State())
      ensures r == InstanceOf(State(), pid)
    {
      var todo := instances.Keys;
      while todo != {}
        invariant todo <= instances.Keys
        invariant forall id :: id in instances && id !in todo ==> instances[id].projectID != pid
      {
        var id :| id in todo;
        if instances[id].projectID == pid {
          LookupsDetermined(State(), "", pid, id);
          return Some(instances[id]);
        }
        todo := todo - {id};
      }
      assert forall id :: !IsInstanceOf(State(), pid, id);
      return None;
    }

    function Apps(pid: string): map<string, App>
      reads this
    {
      if pid in apps then apps[pid] else map[]
    }

    // ------------------------------------------------------------ routes

    method RegisterAppRoutes(domains: seq<string>, a: App, ip: string)
      modifies this`routes
      ensures routes == Register(old(routes), domains, a, ip)
    {
      if !Available(a) || |domains| == 0 || |a.ports| == 0 {
        return;
      }
      var target, hostname := Target(ip, a.ports[0]), Hostname(a);
      for i := 0 to |domains|
        invariant routes == old(routes) + map k | k in Keys(hostname, domains[..i]) :: target
      {
        assert domains[..i + 1] == domains[..i] + [domains[i]];
        routes := routes[Key(hostname, domains[i]) := target];
      }
      assert domains[..|domains|] == domains;
    }

    method RemoveAppRoutes(domains: seq<string>, hostname: string)
      modifies this`routes
      ensures routes == Unregister(old(routes), hostname, domains)
    {
      for i := 0 to |domains|
        invariant routes == old(routes) - Keys(hostname, domains[..i])
      {
        assert domains[..i + 1] == domains[..i] + [domains[i]];
        routes := routes - {Key(hostname, domains[i])};
      }
      assert domains[..|domains|] == domains;
    }

    // removeAppRoutes for every app of a project, in any order
    method RemoveProjectRoutes(pid: string, domains: seq<string>)
      modifies this`routes
      ensures routes == old(routes) - AllKeys(Apps(pid), domains)
    {
      var all := Apps(pid);
      var todo, seen := all.Keys, {};
      assert AllKeys(Restrict(all, seen), domains) == {};
      while todo != {}
        invariant todo <= all.Keys && seen == all.Keys - todo
        invariant routes == old(routes) - AllKeys(Restrict(all, seen), domains)
        decreases todo
      {
        var n :| n in todo;
        RemoveOneMore(old(routes), all, seen, n, domains);
        RemoveAppRoutes(domains, Hostname(all[n]));
        todo, seen := todo - {n}, seen + {n};
      }
      assert Restrict(all, seen) == all;
    }

    method RegisterProjectRoutes(pid: string, domains: seq<string>, ip: string)
      modifies this`routes
      ensures RegisteredAll(old(routes), routes, Apps(pid), domains, ip)
    {
      var all := Apps(pid);
      var todo, seen := all.Keys, {};
      while todo != {}
        invariant todo <= all.Keys && seen == all.Keys - todo
        invariant RegisteredAll(old(routes), routes, Restrict(all, seen), domains, ip)
        decreases todo
      {
        var n :| n in todo;
        RegisterOneMore(old(routes), routes, all, seen, n, domains, ip);
        RegisterAppRoutes(domains, all[n], ip);
        todo, seen := todo - {n}, seen + {n};
      }
      assert Restrict(all, seen) == all;
    }

    method ReconcileAppRoutes(pid: string, a: App, oldHostname: string)
      requires StoreInv(State()) && pid in projects
      modifies this`routes
      ensures routes == Reconcile(State(), old(routes), projects[pid], a, oldHostname)
    {
      if |projects[pid].domains| == 0 {
        return;
      }
      RemoveAppRoutes(projects[pid].domains, oldHostname);
      var i := GetInstance(pid);
      if i.None? || i.value.ip == "" {
        return;
      }
      RegisterAppRoutes(projects[pid].domains, a, i.value.ip);
    }

    method ReconcileRoutesOnDomainChange(pid: string, oldDomains: seq<string>)
      requires StoreInv(State()) && pid in projects
      modifies this`routes
      ensures
        var removed, i := old(routes) - AllKeys(Apps(pid), oldDomains), InstanceOf(State(), pid);
        if i.None? || i.value.ip == "" then routes == removed
        else RegisteredAll(removed, routes, Apps(pid), projects[pid].domains, i.value.ip)
    {
      RemoveProjectRoutes(pid, oldDomains);
      var i := GetInstance(pid);
      if i.Some? && i.value.ip != "" {
        RegisterProjectRoutes(pid, projects[pid].domains, i.value.ip);
      }
    }

    /** Registers the routes of every project with domains and an address, in any order. */
    method RebuildRoutes()
      requires StoreInv(State())
      modifies this`routes
      ensures Rebuilt(old(routes), routes, State())
    {
      var todo, seen := projects.Keys, {};
      while todo != {}
        invariant todo <= projects.Keys && seen == projects.Keys - todo
        invariant RebuiltFrom(old(routes), routes, State(), seen)
        decreases todo
      {
        var pid :| pid in todo;
        todo := todo - {pid};
        ghost var mid := routes;
        var i := GetInstance(pid);
        if |projects[pid].domains| != 0 && i.Some? && i.value.ip != "" {
          RegisterProjectRoutes(pid, projects[pid].domains, i.value.ip);
        }
        RebuildOneMore(old(routes), mid, routes, State(), seen, pid);
        seen := seen + {pid};
      }
      assert seen == projects.Keys;
      RebuiltFromAll(old(routes), routes, State());
    }

    // ------------------------------------------------------------ the store

    method Write(s: Store)
      modifies this
      ensures View() == Put(old(View()), s)
    {
      projects, instances, apps := s.projects, s.instances, s.apps;
      saves := saves + [State()];
    }

    method HasName(name: string) returns (taken: bool)
      ensures taken <==> NameTaken(State(), name)
    {
      var todo := projects.Keys;
      while todo != {}
        invariant todo <= projects.Keys
        invariant forall id :: id in projects && id !in todo ==> projects[id].name != name
      {
        var id :| id in todo;
        if projects[id].name == name {
          return true;
        }
        todo := todo - {id};
      }
      return false;
    }

    // The checks of load over a parsed state file.
    method Accepts(s: Store) returns (ok: bool)
      ensures ok <==> LoadAccepts(s)
    {
      var ids := s.projects.Keys;
      while ids != {}
        invariant ids <= s.projects.Keys
        invariant forall id :: id in s.projects && id !in ids ==> ValidComponent(s.projects[id].name)
      {
        var id :| id in ids;
        if !ValidComponent(s.projects[id].name) {
          return false;
        }
        ids := ids - {id};
      }
      var pids := s.apps.Keys;
      while pids != {}
        invariant pids <= s.apps.Keys
        invariant forall pid, n :: HasApp(s.apps, pid, n) && pid !in pids ==> ValidComponent(s.apps[pid][n].name)
      {
        var pid :| pid in pids;
        var names := s.apps[pid].Keys;
        while names != {}
          invariant names <= s.apps[pid].Keys
          invariant forall n :: HasApp(s.apps, pid, n) && n !in names ==> ValidComponent(s.apps[pid][n].name)
        {
          var n :| n in names;
          assert HasApp(s.apps, pid, n);
          if !ValidComponent(s.apps[pid][n].name) {
            return false;
          }
          names := names - {n};
        }
        pids := pids - {pid};
      }
      ids := s.instances.Keys;
      while ids != {}
        invariant ids <= s.instances.Keys
        invariant forall id :: id in s.instances && id !in ids ==> BindingOk(s.projects, s.instances[id])
      {
        var id :| id in ids;
        if !BindingOk(s.projects, s.instances[id]) {
          return false;
        }
        ids := ids - {id};
      }
      return true;
    }

    // The accepted state replaces what there was, and the table starts empty.
    method TakeOver(disk: Store)
      requires StoreInv(disk)
      modifies this
      ensures State() == disk && saves == old(saves) && Rebuilt(map[], routes, disk)
    {
      projects, instances, apps := disk.projects, disk.instances, disk.apps;
      routes := map[];
      RebuildRoutes();
    }

    /** A restart on the content of the state file never fails, and comes up with sound routes. */
    method Reopen(disk: Store) returns (ok: bool)
      requires WorldInv(View())
      requires disk == if saves == [] then Empty else saves[|saves| - 1]
      modifies this
      ensures ok && Step(old(View()), Restart, View()) && WorldInv(View())
    {
      ghost var w := View();
      SavedLoads(w, disk);
      ok := Accepts(disk);
      if ok {
        TakeOver(disk);
        RouteProperties.StepKeepsInv(w, Restart, View());
      }
    }

    // ------------------------------------------------------------ the handlers

    method HandleProjectCreate(name: string, domains: seq<string>, id: string, vm: Option<Vm>)
      requires WorldInv(View()) && Admissible(View(), CreateProject(name, domains, id, vm))
      modifies this
      ensures Step(old(View()), CreateProject(name, domains, id, vm), View()) && WorldInv(View())
    {
      ghost var w := View();
      if ValidComponent(name) {
        var taken := HasName(name);
        if !taken {
          Write(PutProject(State(), Project(id, name, [])));
          if |domains| > 0 {
            Write(PutProject(State(), Project(id, name, domains)));
          }
          if vm.None? {
            Write(DropProject(State(), id));
          } else {
            var i := Instance(vm.value.id, id, vm.value.domainName, vm.value.ip);
            saves := saves + [State()];
            if BindingOk(projects, i) {
              Write(PutInstance(State(), i));
            }
          }
        }
      }
      RouteProperties.StepKeepsInv(w, CreateProject(name, domains, id, vm), View());
    }

    method HandleProjectDelete(key: string)
      requires WorldInv(View())
      modifies this
      ensures Step(old(View()), DeleteProject(key), View()) && WorldInv(View())
    {
      ghost var w := View();
      var found := GetProject(key);
      if found.Some? {
        var pid := found.value;
        var i := GetInstance(pid);
        if i.None? || Bound(projects[pid], i.value) {
          RemoveProjectRoutes(pid, projects[pid].domains);
          if i.Some? {
            Write(DropInstance(State(), i.value.id));
          }
          Write(DropProject(State(), pid));
        }
      }
      RouteProperties.StepKeepsInv(w, DeleteProject(key), View());
    }

    method HandleProjectStart(key: string, done: bool, ip: string)
      requires WorldInv(View())
      modifies this
      ensures Step(old(View()), StartProject(key, done, ip), View()) && WorldInv(View())
    {
      ghost var w := View();
      var found := GetProject(key);
      if found.Some? {
        var i := GetInstance(found.value);
        if i.Some? && done {
          Write(PutInstance(State(), i.value.(ip := ip)));
          saves := saves + [State()];
        }
      }
      RouteProperties.StepKeepsInv(w, StartProject(key, done, ip), View());
    }

    method HandleProjectUpdate(key: string, resources: Option<string>, done: bool)
      requires WorldInv(View())
      modifies this
      ensures Step(old(View()), UpdateProject(key, resources, done), View()) && WorldInv(View())
    {
      ghost var w := View();
      var found := GetProject(key);
      if found.Some? {
        var pid := found.value;
        var i := GetInstance(pid);
        if i.Some? && resources.Some? {
          projects := projects[pid := projects[pid].(resources := resources.value)];
          if done {
            saves := saves + [State()];
          }
        }
      }
      RouteProperties.StepKeepsInv(w, UpdateProject(key, resources, done), View());
    }

    // The environment itself is not modelled; the whole state is saved with it. `accepted` says
    // whether the request is well-formed, names a variable, and the vault encrypts what is secret.
    method HandleEnvSet(key: string, accepted: bool)
      requires WorldInv(View())
      modifies this
      ensures if Find(old(State()), key).Some? && accepted then Step(old(View()), Touch, View()) else View() == old(View())
      ensures WorldInv(View())
    {
      ghost var w := View();
      var found := GetProject(key);
      if found.Some? && accepted {
        saves := saves + [State()];
        RouteProperties.StepKeepsInv(w, Touch, View());
      }
    }

    method HandleDomainsUpdate(key: string, domains: seq<string>)
      requires WorldInv(View())
      modifies this
      ensures Step(old(View()), UpdateDomains(key, domains), View()) && WorldInv(View())
    {
      ghost var w := View();
      var found := GetProject(key);
      if found.Some? {
        var pid := found.value;
        var oldDomains := projects[pid].domains;
        PutProjectKeeps(State(), projects[pid].(domains := domains));
        Write(PutProject(State(), projects[pid].(domains := domains)));
        ReconcileRoutesOnDomainChange(pid, oldDomains);
      }
      RouteProperties.StepKeepsInv(w, UpdateDomains(key, domains), View());
    }

    method HandleAppCreate(key: string, a: App, binary: string)
      requires WorldInv(View())
      modifies this
      ensures Step(old(View()), CreateApp(key, a, binary), View()) && WorldInv(View())
    {
      ghost var w := View();
      var found := GetProject(key);
      if found.Some? && ValidComponent(a.name) {
        var mode := if a.mode == "" then "container" else a.mode;
        var refused := (mode != "container" && mode != "process")
          || (mode == "process" && binary == "") || (mode == "container" && |a.ports| == 0);
        if !refused && a.name !in Apps(found.value) {
          Write(PutApp(State(), found.value, a.(mode := mode)));
        }
      }
      RouteProperties.StepKeepsInv(w, CreateApp(key, a, binary), View());
    }

    // The fields of a tracked app are written one by one; the restart policy is checked in between.
    method UpdateTracked(pid: string, name: string, c: AppChange)
      requires WorldInv(View()) && pid in projects && name in Apps(pid)
      modifies this
      ensures View() == DoUpdateApp(old(View()), pid, name, c)
    {
      assert HasApp(apps, pid, name);
      var a := Apps(pid)[name];
      if c.image.Some? {
        a := a.(image := c.image.value);
      }
      if c.ports.Some? {
        a := a.(ports := c.ports.value);
      }
      if c.meta.Some? {
        a := a.(meta := c.meta.value);
      }
      if c.policy == Some(false) {
        apps := PutApp(State(), pid, a).apps;
        return;
      }
      var oldHostname := Hostname(a);
      if c.hostname.Some? {
        a := a.(hostname := c.hostname.value);
      }
      if c.available.Some? {
        a := a.(available := c.available);
      }
      if !NoChange(c) {
        PutAppKeeps(State(), pid, a);
        Write(PutApp(State(), pid, a));
        if c.hostname.Some? || c.available.Some? {
          ReconcileAppRoutes(pid, a, oldHostname);
        }
      }
    }

    method HandleAppUpdate(key: string, name: string, c: AppChange)
      requires WorldInv(View())
      modifies this
      ensures Step(old(View()), UpdateApp(key, name, c), View()) && WorldInv(View())
    {
      ghost var w := View();
      var found := GetProject(key);
      if found.Some? && name in Apps(found.value) {
        UpdateTracked(found.value, name, c);
      }
      RouteProperties.StepKeepsInv(w, UpdateApp(key, name, c), View());
    }

    method DeployTracked(pid: string, name: string, image: string, done: bool)
      requires WorldInv(View()) && pid in projects && name in Apps(pid)
      modifies this
      ensures View() == DoDeployApp(old(View()), pid, name, image, done)
    {
      assert HasApp(apps, pid, name);
      var a := Apps(pid)[name];
      if image != "" {
        a := a.(image := image);
        PutAppKeeps(State(), pid, a);
        Write(PutApp(State(), pid, a));
      }
      if (a.mode == "" || a.mode == "container") && a.image == "" {
        return;
      }
      var i := GetInstance(pid);
      if i.Some? && done {
        RegisterAppRoutes(projects[pid].domains, a, i.value.ip);
      }
    }

    method HandleAppDeploy(key: string, name: string, image: string, done: bool)
      requires WorldInv(View())
      modifies this
      ensures Step(old(View()), DeployApp(key, name, image, done), View()) && WorldInv(View())
    {
      ghost var w := View();
      var found := GetProject(key);
      if found.Some? && name in Apps(found.value) {
        DeployTracked(found.value, name, image, done);
      }
      RouteProperties.StepKeepsInv(w, DeployApp(key, name, image, done), View());
    }

    method HandleAppStop(key: string, name: string, done: bool)
      requires WorldInv(View())
      modifies this
      ensures Step(old(View()), StopApp(key, name, done), View()) && WorldInv(View())
    {
      ghost var w := View();
      var found := GetProject(key);
      if found.Some? && name in Apps(found.value) {
        var i := GetInstance(found.value);
        if i.Some? && done {
          RemoveAppRoutes(projects[found.value].domains, Hostname(Apps(found.value)[name]));
        }
      }
      RouteProperties.StepKeepsInv(w, StopApp(key, name, done), View());
    }

    method HandleAppDelete(key: string, name: string)
      requires WorldInv(View())
      modifies this
      ensures Step(old(View()), DeleteApp(key, name), View()) && WorldInv(View())
    {
      ghost var w := View();
      var found := GetProject(key);
      if found.Some? && name in Apps(found.value) {
        RemoveAppRoutes(projects[found.value].domains, Hostname(Apps(found.value)[name]));
        Write(DropApp(State(), found.value, name));
      }
      RouteProperties.StepKeepsInv(w, DeleteApp(key, name), View());
    }
  }
}
