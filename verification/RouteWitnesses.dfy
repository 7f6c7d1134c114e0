/** Runs of a fresh daemon in which a guarantee fails: the maintained table is not the one the store
    implies, or the store could not be loaded. */
module RouteWitnesses {
  import opened Options
  import opened Paths
  import opened Stores
  import opened Routes
  import opened RouteProperties
  import opened DerivedRoutes

  // The run of the requests ends with this store and this table.
  ghost predicate RunTo(ws: seq<World>, rs: seq<Request>, s: Store, routes: Table) {
    Trace(ws, rs) && ws[0] == Fresh && ws[|rs|].store == s && ws[|rs|].routes == routes
  }

  // One more request answered.
  ghost predicate Answers(w: World, r: Request, w': World, s: Store, routes: Table) {
    Admissible(w, r) && Step(w, r, w') && w'.store == s && w'.routes == routes
  }

  lemma Then(ws: seq<World>, rs: seq<Request>, r: Request, w': World, s: Store, routes: Table)
    requires Trace(ws, rs) && ws[0] == Fresh && Answers(ws[|rs|], r, w', s, routes)
    ensures RunTo(ws + [w'], rs + [r], s, routes)
  {
    forall i | 0 <= i < |rs + [r]|
      ensures Admissible((ws + [w'])[i], (rs + [r])[i]) && Step((ws + [w'])[i], (rs + [r])[i], (ws + [w'])[i + 1])
    {
      assert i < |rs| ==> Admissible(ws[i], rs[i]) && Step(ws[i], rs[i], ws[i + 1]);
    }
  }

  // ---------------------------------------------------------------- one project with one app

  function WithApps(apps: map<string, map<string, App>>): Store {
    Store(map["1" := Project("1", "p", ["d"])], map["i" := Instance("i", "1", "", "10.0.0.1")], apps)
  }

  function AppA(ports: seq<int>): App {
    App("a", "container", "x", "", None, ports)
  }

  const NoApp := WithApps(map[])
  const T := Target("10.0.0.1", 80)

  function One(ports: seq<int>): Store {
    WithApps(map["1" := map["a" := AppA(ports)]])
  }

  function NewPorts(ports: seq<int>): AppChange {
    AppChange(None, Some(ports), None, None, false, None, None)
  }

  lemma FoundOne(apps: map<string, map<string, App>>)
    ensures Find(WithApps(apps), "1") == Some("1")
    ensures InstanceOf(WithApps(apps), "1") == Some(Instance("i", "1", "", "10.0.0.1"))
  {
    assert Finds(WithApps(apps), "1", "1") && IsInstanceOf(WithApps(apps), "1", "i");
  }

  const CREATE_PROJECT := CreateProject("p", ["d"], "1", Some(Vm("i", "", "10.0.0.1")))

  lemma CreatesProject() returns (w': World)
    ensures Answers(Fresh, CREATE_PROJECT, w', NoApp, map[])
  {
    w' := DoCreateProject(Fresh, "p", ["d"], "1", Some(Vm("i", "", "10.0.0.1")));
    assert ValidComponent("p");
    assert w'.store == NoApp;
  }

  /** After a create, deleting the project without its instance would leave a state that load refuses. */
  lemma DeleteAloneIsRefused() returns (ws: seq<World>)
    ensures RunTo(ws, [CREATE_PROJECT], NoApp, map[])
    ensures !LoadAccepts(DropProject(NoApp, "1"))
  {
    var w1 := CreatesProject();
    Then([Fresh], [], CREATE_PROJECT, w1, NoApp, map[]);
    assert [] + [CREATE_PROJECT] == [CREATE_PROJECT];
    ws := [Fresh] + [w1];
    assert "i" in DropProject(NoApp, "1").instances;
  }

  lemma CreatesApp(w: World) returns (w': World)
    requires w.store == NoApp && w.routes == map[]
    ensures Answers(w, CreateApp("1", AppA([80]), ""), w', One([80]), map[])
  {
    FoundOne(map[]);
    w' := DoCreateApp(w, "1", AppA([80]), "");
    assert w'.store == One([80]);
  }

  lemma KeysOfA()
    ensures Keys("a", ["d"]) == {"a.d"}
  {
    assert Key("a", "d") == "a.d";
  }

  lemma DeploysApp(w: World) returns (w': World)
    requires w.store == One([80]) && w.routes == map[]
    ensures Answers(w, DeployApp("1", "a", "", true), w', One([80]), map["a.d" := T])
  {
    FoundOne(One([80]).apps);
    KeysOfA();
    w' := DoDeployApp(w, "1", "a", "", true);
    assert w'.routes == map["a.d" := T];
  }

  lemma StopsApp(w: World) returns (w': World)
    requires w.store == One([80]) && w.routes == map["a.d" := T]
    ensures Answers(w, StopApp("1", "a", true), w', One([80]), map[])
  {
    FoundOne(One([80]).apps);
    KeysOfA();
    w' := DoStopApp(w, "1", "a", true);
    assert w'.routes == map[];
  }

  lemma DropsPorts(w: World) returns (w': World)
    requires w.store == One([80]) && w.routes == map["a.d" := T]
    ensures Answers(w, UpdateApp("1", "a", NewPorts([])), w', One([]), map["a.d" := T])
  {
    FoundOne(One([80]).apps);
    w' := DoUpdateApp(w, "1", "a", NewPorts([]));
    assert EarlyFields(AppA([80]), NewPorts([])) == AppA([]);
    assert LateFields(AppA([]), NewPorts([])) == AppA([]);
    assert ValidComponent(AppA([]).name);
    assert w'.store == PutApp(w.store, "1", AppA([]));
    assert One([80]).apps["1"]["a" := AppA([])] == One([]).apps["1"];
    assert PutApp(w.store, "1", AppA([])) == One([]);
  }

  const CREATED := [CREATE_PROJECT, CreateApp("1", AppA([80]), "")]
  const DEPLOYED := CREATED + [DeployApp("1", "a", "", true)]

  lemma AppIsCreated() returns (ws: seq<World>)
    ensures RunTo(ws, CREATED, One([80]), map[])
  {
    var w1 := CreatesProject();
    Then([Fresh], [], CREATE_PROJECT, w1, NoApp, map[]);
    ws := [Fresh] + [w1];
    assert [] + [CREATE_PROJECT] == [CREATE_PROJECT];
    var w2 := CreatesApp(w1);
    Then(ws, [CREATE_PROJECT], CreateApp("1", AppA([80]), ""), w2, One([80]), map[]);
    ws := ws + [w2];
    assert [CREATE_PROJECT] + [CreateApp("1", AppA([80]), "")] == CREATED;
  }

  lemma AppIsUp() returns (ws: seq<World>)
    ensures RunTo(ws, DEPLOYED, One([80]), map["a.d" := T])
  {
    ws := AppIsCreated();
    var w' := DeploysApp(ws[|CREATED|]);
    Then(ws, CREATED, DeployApp("1", "a", "", true), w', One([80]), map["a.d" := T]);
    ws := ws + [w'];
  }

  lemma OneDerives()
    ensures DerivedRoute(One([80]), "a.d", T)
    ensures !DerivedKey(One([]), "a.d")
  {
    FoundOne(One([80]).apps);
    KeysOfA();
    assert Derives(One([80]), "1", "a", "a.d", T);
  }

  /** After a create, a deploy and a stop the store derives a route that the table does not have. */
  lemma DerivedButNotBound() returns (ws: seq<World>)
    ensures RunTo(ws, DEPLOYED + [StopApp("1", "a", true)], One([80]), map[])
    ensures DerivedRoute(One([80]), "a.d", T)
  {
    ws := AppIsUp();
    var w' := StopsApp(ws[|DEPLOYED|]);
    Then(ws, DEPLOYED, StopApp("1", "a", true), w', One([80]), map[]);
    ws := ws + [w'];
    OneDerives();
  }

  /** After a deploy and an edit of the ports the table has a route that the store does not derive. */
  lemma BoundButNotDerived() returns (ws: seq<World>)
    ensures RunTo(ws, DEPLOYED + [UpdateApp("1", "a", NewPorts([]))], One([]), map["a.d" := T])
    ensures !DerivedKey(One([]), "a.d")
  {
    ws := AppIsUp();
    var w' := DropsPorts(ws[|DEPLOYED|]);
    Then(ws, DEPLOYED, UpdateApp("1", "a", NewPorts([])), w', One([]), map["a.d" := T]);
    ws := ws + [w'];
    OneDerives();
  }

  // ---------------------------------------------------------------- two projects whose keys collide

  // Project "1" has app "a.b" under `domains`, project "2" app "a" under "b.c".
  function Two(domains: seq<string>, apps: map<string, map<string, App>>): Store {
    Store(map["1" := Project("1", "p", domains), "2" := Project("2", "q", ["b.c"])],
          map["i" := Instance("i", "1", "", "10.0.0.1"), "j" := Instance("j", "2", "", "10.0.0.2")], apps)
  }

  const AB := App("a.b", "container", "x", "", None, [80])
  const TWO_APPS := map["1" := map["a.b" := AB], "2" := map["a" := AppA([80])]]
  const CREATE_1 := CreateProject("p", ["c"], "1", Some(Vm("i", "", "10.0.0.1")))
  const CREATE_2 := CreateProject("q", ["b.c"], "2", Some(Vm("j", "", "10.0.0.2")))
  const ONLY_1 := Store(map["1" := Project("1", "p", ["c"])], map["i" := Instance("i", "1", "", "10.0.0.1")], map[])

  lemma FoundTwo(domains: seq<string>, apps: map<string, map<string, App>>)
    ensures Find(Two(domains, apps), "1") == Some("1") && Find(Two(domains, apps), "2") == Some("2")
    ensures InstanceOf(Two(domains, apps), "1") == Some(Instance("i", "1", "", "10.0.0.1"))
    ensures InstanceOf(Two(domains, apps), "2") == Some(Instance("j", "2", "", "10.0.0.2"))
  {
    var s := Two(domains, apps);
    assert Finds(s, "1", "1") && Finds(s, "2", "2") && IsInstanceOf(s, "1", "i") && IsInstanceOf(s, "2", "j");
  }

  lemma CreatesFirst() returns (w': World)
    ensures Answers(Fresh, CREATE_1, w', ONLY_1, map[])
  {
    w' := DoCreateProject(Fresh, "p", ["c"], "1", CREATE_1.vm);
    assert ValidComponent("p");
    assert w'.store == ONLY_1;
  }

  lemma CreatesSecond(w: World) returns (w': World)
    requires w.store == ONLY_1 && w.routes == map[]
    ensures Answers(w, CREATE_2, w', Two(["c"], map[]), map[])
  {
    w' := DoCreateProject(w, "q", ["b.c"], "2", CREATE_2.vm);
    assert ValidComponent("q") && !NameTaken(w.store, "q");
    assert w'.store.projects == Two(["c"], map[]).projects;
    assert w'.store.instances == Two(["c"], map[]).instances;
  }

  lemma CreatesAB(w: World) returns (w': World)
    requires w.store == Two(["c"], map[]) && w.routes == map[]
    ensures Answers(w, CreateApp("1", AB, ""), w', Two(["c"], map["1" := map["a.b" := AB]]), map[])
  {
    FoundTwo(["c"], map[]);
    w' := DoCreateApp(w, "1", AB, "");
    assert w'.store == Two(["c"], map["1" := map["a.b" := AB]]);
  }

  lemma CreatesA(w: World) returns (w': World)
    requires w.store == Two(["c"], map["1" := map["a.b" := AB]]) && w.routes == map[]
    ensures Answers(w, CreateApp("2", AppA([80]), ""), w', Two(["c"], TWO_APPS), map[])
  {
    FoundTwo(["c"], map["1" := map["a.b" := AB]]);
    w' := DoCreateApp(w, "2", AppA([80]), "");
    assert w'.store.apps == TWO_APPS;
  }

  lemma DeploysA(w: World) returns (w': World)
    requires w.store == Two(["c"], TWO_APPS) && w.routes == map[]
    ensures Answers(w, DeployApp("2", "a", "", true), w', Two(["c"], TWO_APPS), map["a.b.c" := Target("10.0.0.2", 80)])
  {
    FoundTwo(["c"], TWO_APPS);
    assert Key("a", "b.c") == "a.b.c";
    assert Keys("a", ["b.c"]) == {"a.b.c"};
    w' := DoDeployApp(w, "2", "a", "", true);
    assert w'.routes == map["a.b.c" := Target("10.0.0.2", 80)];
  }

  lemma KeyIsThere(apps: map<string, App>, domains: seq<string>, n: string, d: string)
    requires n in apps && d in domains
    ensures Key(Hostname(apps[n]), d) in AllKeys(apps, domains)
  {
  }

  lemma DropsDomains(w: World) returns (w': World)
    requires w.store == Two(["c"], TWO_APPS) && w.routes == map["a.b.c" := Target("10.0.0.2", 80)]
    ensures Answers(w, UpdateDomains("1", []), w', Two([], TWO_APPS), map[])
  {
    FoundTwo(["c"], TWO_APPS);
    FoundTwo([], TWO_APPS);
    assert ValidComponent("p") && Key("a.b", "c") == "a.b.c";
    var apps, domains := TWO_APPS["1"], ["c"];
    assert domains[0] == "c";
    KeyIsThere(apps, domains, "a.b", "c");
    var s := PutProject(w.store, Project("1", "p", []));
    assert s == Two([], TWO_APPS);
    assert w.routes - AllKeys(apps, domains) == map[];
    w' := World(s, map[], w.saves + [s]);
    assert forall n, k :: !Serves(TWO_APPS["1"], [], n, k);
  }

  const TWO_CREATED := [CREATE_1, CREATE_2, CreateApp("1", AB, ""), CreateApp("2", AppA([80]), "")]
  const CUT := TWO_CREATED + [DeployApp("2", "a", "", true), UpdateDomains("1", [])]

  lemma TwoAreCreated() returns (ws: seq<World>)
    ensures RunTo(ws, TWO_CREATED, Two(["c"], TWO_APPS), map[])
  {
    var w1 := CreatesFirst();
    Then([Fresh], [], CREATE_1, w1, ONLY_1, map[]);
    var w2 := CreatesSecond(w1);
    Then([Fresh] + [w1], [] + [CREATE_1], CREATE_2, w2, Two(["c"], map[]), map[]);
    ws := [Fresh] + [w1] + [w2];
    var rs := [] + [CREATE_1] + [CREATE_2];
    var w3 := CreatesAB(w2);
    Then(ws, rs, CreateApp("1", AB, ""), w3, Two(["c"], map["1" := map["a.b" := AB]]), map[]);
    var w4 := CreatesA(w3);
    Then(ws + [w3], rs + [CreateApp("1", AB, "")], CreateApp("2", AppA([80]), ""), w4, Two(["c"], TWO_APPS), map[]);
    ws := ws + [w3] + [w4];
    assert rs + [CreateApp("1", AB, "")] + [CreateApp("2", AppA([80]), "")] == TWO_CREATED;
  }

  /** An update of the domains of one project cuts the route of an app of another. */
  lemma DomainUpdateCuts() returns (ws: seq<World>)
    ensures RunTo(ws, CUT, Two([], TWO_APPS), map[])
    ensures DerivedRoute(Two([], TWO_APPS), "a.b.c", Target("10.0.0.2", 80))
  {
    ws := TwoAreCreated();
    var w5 := DeploysA(ws[|TWO_CREATED|]);
    Then(ws, TWO_CREATED, DeployApp("2", "a", "", true), w5, Two(["c"], TWO_APPS), map["a.b.c" := Target("10.0.0.2", 80)]);
    var w6 := DropsDomains(w5);
    Then(ws + [w5], TWO_CREATED + [DeployApp("2", "a", "", true)], UpdateDomains("1", []), w6, Two([], TWO_APPS), map[]);
    ws := ws + [w5] + [w6];
    assert TWO_CREATED + [DeployApp("2", "a", "", true)] + [UpdateDomains("1", [])] == CUT;
    FoundTwo([], TWO_APPS);
    assert Key("a", "b.c") == "a.b.c" && "a.b.c" in Keys("a", ["b.c"]);
    assert Derives(Two([], TWO_APPS), "2", "a", "a.b.c", Target("10.0.0.2", 80));
  }
}
