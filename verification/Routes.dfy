/** The API handlers as steps on the state store, the proxy route table and the state file.

    A handler runs without interruption and its saves succeed. The maps of the source are visited
    in any order; where that order could show, the step is a relation. */
module Routes {
  import opened Options
  import opened Paths
  import opened Stores

  datatype Target = Target(ip: string, port: int)
  type Table = map<string, Target>

  // `saves` is everything ever written to state.json, the present content last.
  datatype World = World(store: Store, routes: Table, saves: seq<Store>)

  function Key(hostname: string, domain: string): string {
    hostname + "." + domain
  }

  function Keys(hostname: string, domains: seq<string>): set<string> {
    set d | d in domains :: Key(hostname, d)
  }

  // ---------------------------------------------------------------- route maintenance

  // registerAppRoutes
  function Register(routes: Table, domains: seq<string>, a: App, ip: string): Table {
    if !Available(a) || domains == [] || a.ports == [] then routes
    else routes + map k | k in Keys(Hostname(a), domains) :: Target(ip, a.ports[0])
  }

  // removeAppRoutes, and the first loop of the two reconcile functions
  function Unregister(routes: Table, hostname: string, domains: seq<string>): Table {
    routes - Keys(hostname, domains)
  }

  // The keys of all apps of a project.
  function AllKeys(apps: map<string, App>, domains: seq<string>): set<string> {
    set n, d | n in apps && d in domains :: Key(Hostname(apps[n]), d)
  }

  // reconcileAppRoutes
  ghost function Reconcile(s: Store, routes: Table, p: Project, a: App, oldHostname: string): Table {
    if p.domains == [] then routes else
    var removed := Unregister(routes, oldHostname, p.domains);
    var i := InstanceOf(s, p.id);
    if i.None? || i.value.ip == "" then removed else Register(removed, p.domains, a, i.value.ip)
  }

  // App n of the project gets key k when it is registered.
  predicate Serves(apps: map<string, App>, domains: seq<string>, n: string, k: string) {
    n in apps && Available(apps[n]) && apps[n].ports != [] && k in Keys(Hostname(apps[n]), domains)
  }

  // The table after registering some apps of one project in any order: a key served by several
  // apps goes to one of them.
  ghost predicate RegisteredAll(before: Table, after: Table, apps: map<string, App>, domains: seq<string>, ip: string) {
    forall k ::
      if exists n :: Serves(apps, domains, n, k)
      then k in after && exists n :: Serves(apps, domains, n, k) && after[k] == Target(ip, apps[n].ports[0])
      else (k in after <==> k in before) && (k in before ==> after[k] == before[k])
  }

  // The route the store implies for app n of a project under key k.
  ghost predicate Derives(s: Store, pid: string, n: string, k: string, t: Target) {
    && pid in s.projects
    && InstanceOf(s, pid).Some? && InstanceOf(s, pid).value.ip != ""
    && Serves(AppsOf(s, pid), s.projects[pid].domains, n, k)
    && t == Target(InstanceOf(s, pid).value.ip, AppsOf(s, pid)[n].ports[0])
  }

  ghost predicate DerivedKey(s: Store, k: string) {
    exists pid, n, t :: Derives(s, pid, n, k, t)
  }

  ghost predicate DerivedRoute(s: Store, k: string, t: Target) {
    exists pid, n :: Derives(s, pid, n, k, t)
  }

  // RebuildRoutes, projects and apps in any order.
  ghost predicate Rebuilt(before: Table, after: Table, s: Store) {
    forall k ::
      if DerivedKey(s, k) then k in after && DerivedRoute(s, k, after[k])
      else (k in after <==> k in before) && (k in before ==> after[k] == before[k])
  }

  // ---------------------------------------------------------------- requests

  // What rt.CreateInstance returned: the instance it reports is bound to the new project.
  datatype Vm = Vm(id: string, domainName: string, ip: string)

  // The optional fields of an update; a restart policy is given and valid, given and not, or absent;
  // `other` says whether CPU or memory is given.
  datatype AppChange = AppChange(image: Option<string>, ports: Option<seq<int>>, meta: Option<string>, policy: Option<bool>,
                                 other: bool, hostname: Option<string>, available: Option<bool>)

  // `id` is the UUID drawn for a new project; `done` says whether the runtime call succeeded, for
  // UpdateProject whether every given size was accepted as well; `resources` is then what the
  // fields have become, if any was written. Touch is a save that changes nothing modelled, as in
  // the handlers that stop a project or change its environment.
  datatype Request =
    | CreateProject(name: string, domains: seq<string>, id: string, vm: Option<Vm>)
    | DeleteProject(key: string)
    | StartProject(key: string, done: bool, ip: string)
    | UpdateProject(key: string, resources: Option<string>, done: bool)
    | UpdateDomains(key: string, domains: seq<string>)
    | CreateApp(key: string, app: App, binary: string)
    | UpdateApp(key: string, name: string, change: AppChange)
    | DeployApp(key: string, name: string, image: string, done: bool)
    | StopApp(key: string, name: string, done: bool)
    | DeleteApp(key: string, name: string)
    | Touch
    | Restart

  // UUIDs are new.
  ghost predicate Admissible(w: World, r: Request) {
    r.CreateProject? ==>
      && r.id !in w.store.projects && r.id !in w.store.apps && r.id !in w.store.instances
      && (r.vm.Some? ==> r.vm.value.id !in w.store.instances)
  }

  function Save(w: World): World {
    w.(saves := w.saves + [w.store])
  }

  function Put(w: World, s: Store): World {
    Save(w.(store := s))
  }

  ghost predicate NameTaken(s: Store, name: string) {
    exists id :: id in s.projects && s.projects[id].name == name
  }

  // The project is saved, then once more with its domains if it has any.
  function RecordProject(w: World, p: Project): World {
    var w1 := Put(w, PutProject(w.store, p.(domains := [])));
    if p.domains == [] then w1 else Put(w1, PutProject(w1.store, p))
  }

  // The VM either fails to come up, and the project is deleted, or its instance is saved.
  function RecordVm(w: World, id: string, vm: Option<Vm>): World {
    match vm
    case None => Put(w, DropProject(w.store, id))
    case Some(v) =>
      var i := Instance(v.id, id, v.domainName, v.ip);
      if BindingOk(w.store.projects, i) then Put(Save(w), PutInstance(w.store, i)) else Save(w)
  }

  ghost function DoCreateProject(w: World, name: string, domains: seq<string>, id: string, vm: Option<Vm>): World {
    if !ValidComponent(name) || NameTaken(w.store, name) then w
    else RecordVm(RecordProject(w, Project(id, name, domains)), id, vm)
  }

  ghost function DoDeleteProject(w: World, pid: string): World
    requires pid in w.store.projects
  {
    var p, i := w.store.projects[pid], InstanceOf(w.store, pid);
    if i.Some? && !Bound(p, i.value) then w else
    var w1 := w.(routes := w.routes - AllKeys(AppsOf(w.store, pid), p.domains));
    var w2 := if i.Some? then Put(w1, DropInstance(w1.store, i.value.id)) else w1;
    Put(w2, DropProject(w2.store, pid))
  }

  // The runtime writes the new address into the shared instance before the handler saves it.
  ghost function DoStartProject(w: World, pid: string, done: bool, ip: string): World
    requires pid in w.store.projects
  {
    var i := InstanceOf(w.store, pid);
    if i.None? || !done then w else
    Save(Put(w, PutInstance(w.store, i.value.(ip := ip))))
  }

  // Resources are written field by field before they are checked; a size that is refused, or a
  // failing resize, leaves what was written in memory, unsaved.
  ghost function DoUpdateProject(w: World, pid: string, resources: Option<string>, done: bool): World
    requires pid in w.store.projects
  {
    if InstanceOf(w.store, pid).None? || resources.None? then w else
    var s := PutProject(w.store, w.store.projects[pid].(resources := resources.value));
    if done && ValidComponent(s.projects[pid].name) then Put(w, s) else w.(store := s)
  }

  function DoCreateApp(w: World, pid: string, a: App, binary: string): World
    requires pid in w.store.projects
  {
    var mode := if a.mode == "" then "container" else a.mode;
    if !ValidComponent(a.name) then w
    else if mode != "container" && mode != "process" then w
    else if mode == "process" && binary == "" then w
    else if mode == "container" && a.ports == [] then w
    else if a.name in AppsOf(w.store, pid) then w
    else Put(w, PutApp(w.store, pid, a.(mode := mode)))
  }

  // The fields written before the restart policy is checked, and those written after.
  function EarlyFields(a: App, c: AppChange): App {
    a.(image := if c.image.Some? then c.image.value else a.image,
       ports := if c.ports.Some? then c.ports.value else a.ports,
       meta := if c.meta.Some? then c.meta.value else a.meta)
  }

  function LateFields(a: App, c: AppChange): App {
    a.(hostname := if c.hostname.Some? then c.hostname.value else a.hostname,
       available := if c.available.Some? then c.available else a.available)
  }

  predicate NoChange(c: AppChange) {
    && c.image.None? && c.ports.None? && c.meta.None? && c.policy.None? && !c.other
    && c.hostname.None? && c.available.None?
  }

  // A refused restart policy leaves the fields written so far in memory, unsaved.
  ghost function DoUpdateApp(w: World, pid: string, name: string, c: AppChange): World
    requires pid in w.store.projects && name in AppsOf(w.store, pid)
  {
    var early := EarlyFields(AppsOf(w.store, pid)[name], c);
    if c.policy == Some(false) then w.(store := PutApp(w.store, pid, early))
    else if NoChange(c) then w
    else
      var a := LateFields(early, c);
      if !ValidComponent(a.name) then w.(store := PutApp(w.store, pid, a)) else
      var w1 := Put(w, PutApp(w.store, pid, a));
      if c.hostname.None? && c.available.None? then w1
      else w1.(routes := Reconcile(w1.store, w1.routes, w1.store.projects[pid], a, Hostname(early)))
  }

  ghost function DoDeployApp(w: World, pid: string, name: string, image: string, done: bool): World
    requires pid in w.store.projects && name in AppsOf(w.store, pid)
  {
    var a := if image != "" then AppsOf(w.store, pid)[name].(image := image) else AppsOf(w.store, pid)[name];
    var w1 := if image != "" then Put(w, PutApp(w.store, pid, a)) else w;
    var i := InstanceOf(w1.store, pid);
    if (a.mode == "" || a.mode == "container") && a.image == "" then w1
    else if i.None? || !done then w1
    else w1.(routes := Register(w1.routes, w1.store.projects[pid].domains, a, i.value.ip))
  }

  ghost function DoStopApp(w: World, pid: string, name: string, done: bool): World
    requires pid in w.store.projects && name in AppsOf(w.store, pid)
  {
    if InstanceOf(w.store, pid).None? || !done then w
    else w.(routes := Unregister(w.routes, Hostname(AppsOf(w.store, pid)[name]), w.store.projects[pid].domains))
  }

  function DoDeleteApp(w: World, pid: string, name: string): World
    requires pid in w.store.projects && name in AppsOf(w.store, pid)
  {
    Put(w.(routes := Unregister(w.routes, Hostname(AppsOf(w.store, pid)[name]), w.store.projects[pid].domains)),
        DropApp(w.store, pid, name))
  }

  // handleDomainsUpdate: save the new domains, drop the keys of the old ones, register again.
  ghost predicate DoUpdateDomains(w: World, pid: string, domains: seq<string>, w': World)
    requires pid in w.store.projects
  {
    var p := w.store.projects[pid];
    if !ValidComponent(p.name) then w' == w.(store := PutProject(w.store, p.(domains := domains))) else
    var w1 := Put(w, PutProject(w.store, p.(domains := domains)));
    var removed := w1.routes - AllKeys(AppsOf(w.store, pid), p.domains);
    var i := InstanceOf(w1.store, pid);
    && w'.store == w1.store && w'.saves == w1.saves
    && if i.None? || i.value.ip == "" then w'.routes == removed
       else RegisteredAll(removed, w'.routes, AppsOf(w1.store, pid), domains, i.value.ip)
  }

  // The daemon starts again: it loads the state file, which must be acceptable, and rebuilds the
  // table from nothing.
  ghost predicate DoRestart(w: World, w': World) {
    && w'.store == (if w.saves == [] then Empty else w.saves[|w.saves| - 1])
    && w'.saves == w.saves
    && Rebuilt(map[], w'.routes, w'.store)
  }

  // One request; a project or app that is not found changes nothing.
  ghost predicate Step(w: World, r: Request, w': World) {
    if r.Restart? then DoRestart(w, w')
    else if r.Touch? then w' == Save(w)
    else if r.CreateProject? then w' == DoCreateProject(w, r.name, r.domains, r.id, r.vm)
    else
      var found := Find(w.store, r.key);
      if found.None? then w' == w else
      var pid := found.value;
      match r
      case DeleteProject(_) => w' == DoDeleteProject(w, pid)
      case StartProject(_, done, ip) => w' == DoStartProject(w, pid, done, ip)
      case UpdateProject(_, resources, done) => w' == DoUpdateProject(w, pid, resources, done)
      case UpdateDomains(_, domains) => DoUpdateDomains(w, pid, domains, w')
      case CreateApp(_, a, binary) => w' == DoCreateApp(w, pid, a, binary)
      case UpdateApp(_, n, c) => w' == if n in AppsOf(w.store, pid) then DoUpdateApp(w, pid, n, c) else w
      case DeployApp(_, n, image, done) => w' == if n in AppsOf(w.store, pid) then DoDeployApp(w, pid, n, image, done) else w
      case StopApp(_, n, done) => w' == if n in AppsOf(w.store, pid) then DoStopApp(w, pid, n, done) else w
      case DeleteApp(_, n) => w' == if n in AppsOf(w.store, pid) then DoDeleteApp(w, pid, n) else w
      case _ => w' == w
  }

  // ---------------------------------------------------------------- the invariant

  ghost predicate Owns(s: Store, k: string, pid: string, n: string, d: string) {
    && pid in s.projects && HasApp(s.apps, pid, n) && d in s.projects[pid].domains
    && k == Key(Hostname(s.apps[pid][n]), d)
  }

  ghost predicate Names(s: Store, k: string, pid: string, n: string, d: string) {
    Owns(s, k, pid, n, d) && Available(s.apps[pid][n])
  }

  // Every key of the table is hostname.domain for a current domain of a project and a current,
  // available app of it.
  ghost predicate Sound(s: Store, routes: Table) {
    forall k :: k in routes ==> exists pid, n, d :: Names(s, k, pid, n, d)
  }

  ghost predicate SavesOk(saves: seq<Store>) {
    forall i :: 0 <= i < |saves| ==> StoreInv(saves[i])
  }

  ghost predicate WorldInv(w: World) {
    StoreInv(w.store) && SavesOk(w.saves) && Sound(w.store, w.routes)
  }

  const Fresh := World(Empty, map[], [])
}
