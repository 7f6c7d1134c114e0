/** The state store: its maps, its operations, and what `load` accepts when the daemon starts. */
module Stores {
  import opened Options
  import opened Paths

  // `resources` stands for CPU, memory and disk.
  datatype Project = Project(id: string, name: string, domains: seq<string>, resources: string := "")

  datatype Instance = Instance(id: string, projectID: string, domainName: string, ip: string)

  // `ports` are the host ports, in order; `available` is a *bool; `meta` stands for binary,
  // environment, description and tags.
  datatype App = App(name: string, mode: string, image: string, hostname: string, available: Option<bool>, ports: seq<int>,
                     meta: string := "")

  datatype Store = Store(projects: map<string, Project>, instances: map<string, Instance>,
                         apps: map<string, map<string, App>>)

  const Empty := Store(map[], map[], map[])

  function Hostname(a: App): string {
    if a.hostname != "" then a.hostname else a.name
  }

  predicate Available(a: App) {
    a.available.None? || a.available.value
  }

  // ValidateProjectInstanceBinding
  predicate Bound(p: Project, i: Instance) {
    i.projectID == p.id && (i.domainName == "" || i.domainName == "goship-" + p.name)
  }

  // validateInstanceBinding
  predicate BindingOk(projects: map<string, Project>, i: Instance) {
    i.projectID in projects && Bound(projects[i.projectID], i)
  }

  ghost predicate HasApp(apps: map<string, map<string, App>>, pid: string, name: string) {
    pid in apps && name in apps[pid]
  }

  /** The checks of `load` on a state file. */
  ghost predicate LoadAccepts(s: Store) {
    && (forall id :: id in s.projects ==> ValidComponent(s.projects[id].name))
    && (forall pid, n :: HasApp(s.apps, pid, n) ==> ValidComponent(s.apps[pid][n].name))
    && (forall id :: id in s.instances ==> BindingOk(s.projects, s.instances[id]))
  }

  // What the operations of the store and the handlers keep.
  ghost predicate ProjectsInv(projects: map<string, Project>) {
    && (forall id :: id in projects ==> projects[id].id == id && ValidComponent(projects[id].name))
    && (forall i, j :: i in projects && j in projects && projects[i].name == projects[j].name ==> i == j)
  }

  ghost predicate AppsInv(projects: map<string, Project>, apps: map<string, map<string, App>>) {
    && apps.Keys <= projects.Keys
    && (forall pid, n :: HasApp(apps, pid, n) ==> apps[pid][n].name == n && ValidComponent(n))
  }

  ghost predicate InstancesInv(projects: map<string, Project>, instances: map<string, Instance>) {
    && (forall id :: id in instances ==> instances[id].id == id && BindingOk(projects, instances[id]))
    && (forall i, j :: i in instances && j in instances && instances[i].projectID == instances[j].projectID ==> i == j)
  }

  ghost predicate StoreInv(s: Store) {
    ProjectsInv(s.projects) && AppsInv(s.projects, s.apps) && InstancesInv(s.projects, s.instances)
  }

  /** Every state with the invariant is one that `load` accepts. */
  lemma InvLoads(s: Store)
    requires StoreInv(s)
    ensures LoadAccepts(s)
  {
    forall pid, n | HasApp(s.apps, pid, n) ensures ValidComponent(s.apps[pid][n].name) {
      assert s.apps[pid][n].name == n;
    }
  }

  // The machine has a name, and it is not that of the project.
  predicate OfAnother(s: Store, i: Instance) {
    i.projectID in s.projects && i.domainName != "" && i.domainName != "goship-" + s.projects[i.projectID].name
  }

  /** `load` refuses a state in which a project or an app has a name that is no path component, or an
      instance belongs to no project or to a machine of another. */
  lemma LoadRefuses(s: Store, id: string, n: string)
    ensures id in s.projects && !SingleComponent(s.projects[id].name) ==> !LoadAccepts(s)
    ensures id in s.apps && n in s.apps[id] && !SingleComponent(s.apps[id][n].name) ==> !LoadAccepts(s)
    ensures id in s.instances && s.instances[id].projectID !in s.projects ==> !LoadAccepts(s)
    ensures id in s.instances && OfAnother(s, s.instances[id]) ==> !LoadAccepts(s)
  {
    if id in s.projects {
      ComponentsAreValid(s.projects[id].name);
    }
    if id in s.apps && n in s.apps[id] {
      ComponentsAreValid(s.apps[id][n].name);
      assert HasApp(s.apps, id, n);
    }
  }

  // ---------------------------------------------------------------- lookups

  // GetProject: by ID first, then by name.
  ghost predicate Finds(s: Store, key: string, pid: string) {
    pid in s.projects && (pid == key || (key !in s.projects && s.projects[pid].name == key))
  }

  ghost function Find(s: Store, key: string): (r: Option<string>)
    ensures r.Some? ==> Finds(s, key, r.value)
    ensures r.None? ==> forall pid :: !Finds(s, key, pid)
  {
    if exists pid :: Finds(s, key, pid) then var pid :| Finds(s, key, pid); Some(pid) else None
  }

  ghost predicate IsInstanceOf(s: Store, pid: string, id: string) {
    id in s.instances && s.instances[id].projectID == pid
  }

  // GetInstance: some instance of the project.
  ghost function InstanceOf(s: Store, pid: string): (r: Option<Instance>)
    ensures r.Some? ==> exists id :: IsInstanceOf(s, pid, id) && s.instances[id] == r.value
    ensures r.None? ==> forall id :: !IsInstanceOf(s, pid, id)
  {
    if exists id :: IsInstanceOf(s, pid, id) then var id :| IsInstanceOf(s, pid, id); Some(s.instances[id]) else None
  }

  function AppsOf(s: Store, pid: string): map<string, App> {
    if pid in s.apps then s.apps[pid] else map[]
  }

  // With unique names and one instance per project the lookups do not depend on map order.
  lemma LookupsDetermined(s: Store, key: string, pid: string, id: string)
    requires StoreInv(s)
    ensures Finds(s, key, pid) ==> Find(s, key) == Some(pid)
    ensures IsInstanceOf(s, pid, id) ==> InstanceOf(s, pid) == Some(s.instances[id])
  {
    if Finds(s, key, pid) {
      assert Find(s, key).Some?;
    }
    if IsInstanceOf(s, pid, id) {
      assert InstanceOf(s, pid).Some?;
    }
  }

  // ---------------------------------------------------------------- updates

  function PutProject(s: Store, p: Project): Store {
    s.(projects := s.projects[p.id := p])
  }

  function PutInstance(s: Store, i: Instance): Store {
    if BindingOk(s.projects, i) then s.(instances := s.instances[i.id := i]) else s
  }

  function DropInstance(s: Store, id: string): Store {
    s.(instances := s.instances - {id})
  }

  // DeleteProject removes the instance stored under the project's own ID, and no other.
  function DropProject(s: Store, pid: string): Store {
    Store(s.projects - {pid}, s.instances - {pid}, s.apps - {pid})
  }

  function PutApp(s: Store, pid: string, a: App): Store {
    s.(apps := s.apps[pid := AppsOf(s, pid)[a.name := a]])
  }

  function DropApp(s: Store, pid: string, name: string): Store {
    if pid in s.apps then s.(apps := s.apps[pid := s.apps[pid] - {name}]) else s
  }

  lemma BindingsFollowNames(projects: map<string, Project>, p: Project, i: Instance)
    requires BindingOk(projects, i) && (p.id in projects ==> projects[p.id].id == p.id && projects[p.id].name == p.name)
    ensures BindingOk(projects[p.id := p], i)
  {
  }

  lemma PutProjectKeeps(s: Store, p: Project)
    requires StoreInv(s) && ValidComponent(p.name)
    requires forall id :: id in s.projects && s.projects[id].name == p.name ==> id == p.id
    requires p.id in s.projects ==> p.name == s.projects[p.id].name
    ensures StoreInv(PutProject(s, p))
  {
    forall id | id in s.instances ensures BindingOk(s.projects[p.id := p], s.instances[id]) {
      BindingsFollowNames(s.projects, p, s.instances[id]);
    }
    assert ProjectsInv(s.projects[p.id := p]);
  }

  lemma PutInstanceKeeps(s: Store, i: Instance)
    requires StoreInv(s)
    requires forall id :: IsInstanceOf(s, i.projectID, id) ==> id == i.id
    ensures StoreInv(PutInstance(s, i))
  {
    var t := PutInstance(s, i);
    forall x, y | x in t.instances && y in t.instances && t.instances[x].projectID == t.instances[y].projectID
      ensures x == y
    {
      assert x != i.id && t.instances[x].projectID == i.projectID ==> IsInstanceOf(s, i.projectID, x);
      assert y != i.id && t.instances[y].projectID == i.projectID ==> IsInstanceOf(s, i.projectID, y);
    }
    assert InstancesInv(t.projects, t.instances);
  }

  lemma DropInstanceKeeps(s: Store, id: string)
    requires StoreInv(s)
    ensures StoreInv(DropInstance(s, id))
  {
    assert InstancesInv(s.projects, s.instances - {id});
  }

  lemma PutAppKeeps(s: Store, pid: string, a: App)
    requires StoreInv(s) && pid in s.projects && ValidComponent(a.name)
    ensures StoreInv(PutApp(s, pid, a))
  {
    var t := PutApp(s, pid, a);
    forall q, n | HasApp(t.apps, q, n) ensures t.apps[q][n].name == n && ValidComponent(n) {
      assert HasApp(s.apps, q, n) || (q == pid && n == a.name);
    }
  }

  lemma DropAppKeeps(s: Store, pid: string, name: string)
    requires StoreInv(s)
    ensures StoreInv(DropApp(s, pid, name))
  {
    var t := DropApp(s, pid, name);
    forall q, n | HasApp(t.apps, q, n) ensures t.apps[q][n].name == n && ValidComponent(n) {
      assert HasApp(s.apps, q, n);
    }
  }

  lemma DropProjectKeepsRest(s: Store, pid: string)
    requires StoreInv(s)
    ensures ProjectsInv(DropProject(s, pid).projects) && AppsInv(DropProject(s, pid).projects, DropProject(s, pid).apps)
  {
    var t := DropProject(s, pid);
    forall q, n | HasApp(t.apps, q, n) ensures t.apps[q][n].name == n && ValidComponent(n) {
      assert HasApp(s.apps, q, n);
    }
  }

  /** Deleting a project on its own leaves a state that `load` accepts, and that keeps the
      invariant, exactly when the project has no instance stored under an ID other than the
      project's. */
  lemma DeleteProjectAlone(s: Store, pid: string)
    requires StoreInv(s) && pid in s.projects
    ensures LoadAccepts(DropProject(s, pid)) <==> forall id :: IsInstanceOf(s, pid, id) ==> id == pid
    ensures StoreInv(DropProject(s, pid)) <==> LoadAccepts(DropProject(s, pid))
  {
    var t := DropProject(s, pid);
    DropProjectKeepsRest(s, pid);
    if id :| IsInstanceOf(s, pid, id) && id != pid {
      assert id in t.instances && !BindingOk(t.projects, t.instances[id]);
    } else {
      forall id | id in t.instances ensures BindingOk(t.projects, t.instances[id]) {
        assert !IsInstanceOf(s, pid, id);
      }
      assert InstancesInv(t.projects, t.instances);
      InvLoads(t);
    }
  }

  /** The delete handler removes the instance first, so its project can always go. */
  lemma InstanceThenProject(s: Store, pid: string)
    requires StoreInv(s) && pid in s.projects
    ensures
      var i := InstanceOf(s, pid);
      var s1 := if i.Some? then DropInstance(s, i.value.id) else s;
      StoreInv(s1) && StoreInv(DropProject(s1, pid))
  {
    var i := InstanceOf(s, pid);
    var s1 := if i.Some? then DropInstance(s, i.value.id) else s;
    DropInstanceKeeps(s, if i.Some? then i.value.id else "");
    forall id ensures !IsInstanceOf(s1, pid, id) {
      if IsInstanceOf(s, pid, id) {
        LookupsDetermined(s, "", pid, id);
      }
    }
    DeleteProjectAlone(s1, pid);
  }
}
