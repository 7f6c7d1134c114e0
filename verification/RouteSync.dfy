/** When the maintained route table is exactly the one the store implies: which requests keep the
    two equal, request by request and over runs. */
module RouteSync {
  import opened Options
  import opened Paths
  import opened Stores
  import opened Routes
  import opened RouteProperties
  import opened DerivedRoutes

  /** The table binds a key to a target if and only if the store derives that route. */
  ghost predicate Synced(w: World) {
    forall k, t :: (k in w.routes && w.routes[k] == t) <==> DerivedRoute(w.store, k, t)
  }

  // ---------------------------------------------------------------- the guard

  // An app that gets a route as soon as it has a port.
  ghost predicate Exposed(s: Store, pid: string, a: App)
    requires pid in s.projects
  {
    Addressed(s, pid) && Available(a) && s.projects[pid].domains != []
  }

  ghost predicate Routed(s: Store, pid: string, a: App)
    requires pid in s.projects
  {
    Exposed(s, pid, a) && a.ports != []
  }

  predicate Routable(s: Store, pid: string)
    requires pid in s.projects
  {
    s.projects[pid].domains != [] && exists n :: n in AppsOf(s, pid) && Available(AppsOf(s, pid)[n]) && AppsOf(s, pid)[n].ports != []
  }

  function FirstPort(ports: seq<int>): Option<int> {
    if ports == [] then None else Some(ports[0])
  }

  // The handler reaches the save of a new app.
  predicate Creates(s: Store, pid: string, a: App, binary: string)
    requires pid in s.projects
  {
    var mode := if a.mode == "" then "container" else a.mode;
    && ValidComponent(a.name) && (mode == "container" || mode == "process")
    && (mode == "process" ==> binary != "") && (mode == "container" ==> a.ports != [])
    && a.name !in AppsOf(s, pid)
  }

  // The handler reaches the registration of the app.
  ghost predicate Registers(s: Store, pid: string, a: App, image: string, done: bool) {
    done && InstanceOf(s, pid).Some? && ((a.mode == "" || a.mode == "container") ==> image != "" || a.image != "")
  }

  // Deleting the project takes along the instance of another one, stored under this project's ID.
  ghost predicate TakesOther(s: Store, pid: string)
    requires pid in s.projects
  {
    && pid in s.instances && s.instances[pid].projectID != pid
    && s.instances[pid].projectID in s.projects && s.instances[pid].ip != "" && Routable(s, s.instances[pid].projectID)
  }

  /** What a request must satisfy so as to keep the table equal to the derived one. */
  ghost predicate KeepsSync(w: World, r: Request) {
    if r.CreateProject? || r.Touch? || r.Restart? || Find(w.store, r.key).None? then true else
    var s, pid := w.store, Find(w.store, r.key).value;
    var apps := AppsOf(s, pid);
    match r
    case DeleteProject(_) => !TakesOther(s, pid)
    case StartProject(_, done, ip) =>
      InstanceOf(s, pid).None? || !done || InstanceOf(s, pid).value.ip == ip || !Routable(s, pid)
    case CreateApp(_, a, binary) => !Creates(s, pid, a, binary) || !Routed(s, pid, a)
    case UpdateApp(_, n, c) =>
      || n !in apps
      || (c.policy != Some(false) && (c.hostname.Some? || c.available.Some?))
      || FirstPort(EarlyFields(apps[n], c).ports) == FirstPort(apps[n].ports)
      || !Exposed(s, pid, apps[n])
    case DeployApp(_, n, image, done) =>
      || n !in apps
      || !Registers(s, pid, apps[n], image, done)
      || InstanceOf(s, pid).value.ip != ""
      || !Available(apps[n]) || apps[n].ports == [] || s.projects[pid].domains == []
    case StopApp(_, n, done) => n !in apps || !done || !Routed(s, pid, apps[n])
    case _ => true
  }

  // ---------------------------------------------------------------- tools

  lemma OwnerDerives(s: Store, k: string, pid: string, n: string, d: string, t: Target)
    requires NoCollision(s) && Owns(s, k, pid, n, d) && DerivedRoute(s, k, t)
    ensures Derives(s, pid, n, k, t)
  {
    var q, m :| Derives(s, q, m, k, t);
    var e := DerivesOwns(s, q, m, k, t);
  }

  // A key at which an app derives a route in one store and not in the other gives it away.
  lemma Betrayed(w: World, w': World, k: string, pid: string, n: string, d: string, t: Target)
    requires NoCollision(w.store) && NoCollision(w'.store) && w'.routes == w.routes
    requires Owns(w.store, k, pid, n, d) && Owns(w'.store, k, pid, n, d)
    requires Derives(w.store, pid, n, k, t) != Derives(w'.store, pid, n, k, t)
    ensures !(Synced(w) && Synced(w'))
  {
    if Synced(w) && Synced(w') {
      assert Derives(w.store, pid, n, k, t) ==> DerivedRoute(w.store, k, t);
      assert Derives(w'.store, pid, n, k, t) ==> DerivedRoute(w'.store, k, t);
      assert DerivedRoute(w.store, k, t) <==> DerivedRoute(w'.store, k, t);
      if DerivedRoute(w.store, k, t) {
        OwnerDerives(w.store, k, pid, n, d, t);
        OwnerDerives(w'.store, k, pid, n, d, t);
      }
    }
  }

  ghost predicate SameAt(s: Store, s': Store, k: string) {
    forall t :: DerivedRoute(s, k, t) <==> DerivedRoute(s', k, t)
  }

  ghost predicate BoundAlike(routes: Table, routes': Table, k: string) {
    (k in routes <==> k in routes') && (k in routes ==> routes'[k] == routes[k])
  }

  // Key by key: nothing changed, or the key is bound to its derived target, or to none.
  lemma StaysSynced(w: World, w': World)
    requires Synced(w)
    requires forall k :: || (BoundAlike(w.routes, w'.routes, k) && SameAt(w.store, w'.store, k))
                         || (forall t :: (k in w'.routes && w'.routes[k] == t) <==> DerivedRoute(w'.store, k, t))
    ensures Synced(w')
  {
    forall k, t ensures (k in w'.routes && w'.routes[k] == t) <==> DerivedRoute(w'.store, k, t) {
      assert BoundAlike(w.routes, w'.routes, k) ==> ((k in w'.routes && w'.routes[k] == t) <==> (k in w.routes && w.routes[k] == t));
      assert SameAt(w.store, w'.store, k) ==> (DerivedRoute(w.store, k, t) <==> DerivedRoute(w'.store, k, t));
    }
  }

  // An app whose routes do not change.
  ghost predicate SameRoutes(s: Store, s': Store, q: string, m: string) {
    forall k, t :: Derives(s, q, m, k, t) <==> Derives(s', q, m, k, t)
  }

  lemma SameEverywhere(s: Store, s': Store, k: string)
    requires forall q, m :: SameRoutes(s, s', q, m)
    ensures SameAt(s, s', k)
  {
    forall t ensures DerivedRoute(s, k, t) <==> DerivedRoute(s', k, t) {
      if DerivedRoute(s, k, t) {
        var q, m :| Derives(s, q, m, k, t);
        assert SameRoutes(s, s', q, m);
      }
      if DerivedRoute(s', k, t) {
        var q, m :| Derives(s', q, m, k, t);
        assert SameRoutes(s, s', q, m);
      }
    }
  }

  // A change of the store that no route depends on.
  lemma NothingMoves(w: World, w': World)
    requires w'.routes == w.routes && forall q, m :: SameRoutes(w.store, w'.store, q, m)
    ensures Synced(w) <==> Synced(w')
  {
    forall k ensures SameAt(w.store, w'.store, k) && SameAt(w'.store, w.store, k) {
      SameEverywhere(w.store, w'.store, k);
    }
    if Synced(w) {
      StaysSynced(w, w');
    }
    if Synced(w') {
      StaysSynced(w', w);
    }
  }

  // ---------------------------------------------------------------- one app changes

  // Writing one app leaves the routes of all other apps alone.
  lemma OtherAppsSame(s: Store, pid: string, a: App, q: string, m: string)
    requires StoreInv(s) && (q, m) != (pid, a.name)
    ensures SameRoutes(s, PutApp(s, pid, a), q, m)
  {
    InstanceStays(s, PutApp(s, pid, a), q);
  }

  lemma SameAppSame(s: Store, pid: string, a: App)
    requires StoreInv(s) && pid in s.projects && a.name in AppsOf(s, pid)
    requires var b := AppsOf(s, pid)[a.name];
      Hostname(b) == Hostname(a) && Available(b) == Available(a)
      && (FirstPort(b.ports) == FirstPort(a.ports) || !Exposed(s, pid, b))
    ensures SameRoutes(s, PutApp(s, pid, a), pid, a.name)
  {
    InstanceStays(s, PutApp(s, pid, a), pid);
  }

  lemma AppOwnsKey(s: Store, pid: string, n: string) returns (k: string, d: string)
    requires pid in s.projects && n in AppsOf(s, pid) && s.projects[pid].domains != []
    ensures Owns(s, k, pid, n, d) && k in Keys(Hostname(AppsOf(s, pid)[n]), s.projects[pid].domains)
  {
    d := s.projects[pid].domains[0];
    k := Key(Hostname(AppsOf(s, pid)[n]), d);
  }

  lemma RoutedDerives(s: Store, pid: string, n: string, k: string, t: Target)
    requires pid in s.projects && n in AppsOf(s, pid)
    requires k in Keys(Hostname(AppsOf(s, pid)[n]), s.projects[pid].domains)
    ensures Derives(s, pid, n, k, t) <==>
      Routed(s, pid, AppsOf(s, pid)[n]) && t == Target(InstanceOf(s, pid).value.ip, AppsOf(s, pid)[n].ports[0])
  {
  }

  // A rewritten app with the same hostname and availability, its routes left alone.
  lemma RewriteSync(w: World, pid: string, a: App, w': World)
    requires StoreInv(w.store) && NoCollision(w.store) && NoCollision(w'.store) && Synced(w)
    requires pid in w.store.projects && a.name in AppsOf(w.store, pid)
    requires var b := AppsOf(w.store, pid)[a.name]; Hostname(b) == Hostname(a) && Available(b) == Available(a)
    requires w'.store == PutApp(w.store, pid, a) && w'.routes == w.routes
    ensures Synced(w') <==>
      var b := AppsOf(w.store, pid)[a.name];
      FirstPort(a.ports) == FirstPort(b.ports) || !Exposed(w.store, pid, b)
  {
    var s, b := w.store, AppsOf(w.store, pid)[a.name];
    if FirstPort(a.ports) == FirstPort(b.ports) || !Exposed(s, pid, b) {
      forall q, m ensures SameRoutes(s, w'.store, q, m) {
        if (q, m) == (pid, a.name) {
          SameAppSame(s, pid, a);
        } else {
          OtherAppsSame(s, pid, a, q, m);
        }
      }
      NothingMoves(w, w');
    } else {
      var k, d := AppOwnsKey(s, pid, a.name);
      InstanceStays(s, w'.store, pid);
      var ip := InstanceOf(s, pid).value.ip;
      var t := Target(ip, if b.ports != [] then b.ports[0] else a.ports[0]);
      RoutedDerives(s, pid, a.name, k, t);
      RoutedDerives(w'.store, pid, a.name, k, t);
      assert Owns(w'.store, k, pid, a.name, d);
      Betrayed(w, w', k, pid, a.name, d, t);
    }
  }

  lemma CreateAppSync(w: World, pid: string, a: App, binary: string)
    requires WorldInv(w) && NoCollision(w.store) && Synced(w) && pid in w.store.projects
    requires NoCollision(DoCreateApp(w, pid, a, binary).store)
    ensures Synced(DoCreateApp(w, pid, a, binary)) <==> !Creates(w.store, pid, a, binary) || !Routed(w.store, pid, a)
  {
    var w' := DoCreateApp(w, pid, a, binary);
    if Creates(w.store, pid, a, binary) {
      NewAppSync(w, pid, a.(mode := if a.mode == "" then "container" else a.mode), w');
    }
  }

  // An app that was not there before.
  lemma NewAppSync(w: World, pid: string, a: App, w': World)
    requires StoreInv(w.store) && NoCollision(w'.store) && Synced(w)
    requires pid in w.store.projects && a.name !in AppsOf(w.store, pid)
    requires w'.store == PutApp(w.store, pid, a) && w'.routes == w.routes
    ensures Synced(w') <==> !Routed(w.store, pid, a)
  {
    var s, s' := w.store, w'.store;
    InstanceStays(s, s', pid);
    if Routed(s, pid, a) {
      var k, d := AppOwnsKey(s', pid, a.name);
      var t := Target(InstanceOf(s, pid).value.ip, a.ports[0]);
      RoutedDerives(s', pid, a.name, k, t);
      assert DerivedRoute(s', k, t);
      if DerivedRoute(s, k, t) {
        var q, m :| Derives(s, q, m, k, t);
        OtherAppsSame(s, pid, a, q, m);
        var e := DerivesOwns(s', q, m, k, t);
      }
    } else {
      forall q, m ensures SameRoutes(s, s', q, m) {
        if (q, m) != (pid, a.name) {
          OtherAppsSame(s, pid, a, q, m);
        }
      }
      NothingMoves(w, w');
    }
  }

  // The keys of an app that derives nothing are not in a synced table.
  lemma UnroutedIsUnbound(w: World, pid: string, n: string)
    requires NoCollision(w.store) && Synced(w) && pid in w.store.projects && n in AppsOf(w.store, pid)
    requires !Routed(w.store, pid, AppsOf(w.store, pid)[n])
    ensures Unregister(w.routes, Hostname(AppsOf(w.store, pid)[n]), w.store.projects[pid].domains) == w.routes
  {
    var a, domains := AppsOf(w.store, pid)[n], w.store.projects[pid].domains;
    forall k | k in Keys(Hostname(a), domains) ensures k !in w.routes {
      if k in w.routes {
        var d :| d in domains && k == Key(Hostname(a), d);
        OwnerDerives(w.store, k, pid, n, d, w.routes[k]);
      }
    }
  }

  lemma StopAppSync(w: World, pid: string, n: string, done: bool)
    requires NoCollision(w.store) && Synced(w) && pid in w.store.projects && n in AppsOf(w.store, pid)
    ensures Synced(DoStopApp(w, pid, n, done)) <==> !done || !Routed(w.store, pid, AppsOf(w.store, pid)[n])
  {
    var w', a := DoStopApp(w, pid, n, done), AppsOf(w.store, pid)[n];
    if done {
      if Routed(w.store, pid, a) {
        var k, d := AppOwnsKey(w.store, pid, n);
        var t := Target(InstanceOf(w.store, pid).value.ip, a.ports[0]);
        RoutedDerives(w.store, pid, n, k, t);
        assert DerivedRoute(w'.store, k, t) && k !in w'.routes;
      } else {
        UnroutedIsUnbound(w, pid, n);
        assert w' == w;
      }
    }
  }

  // Registering what is derived changes nothing.
  lemma DerivedIsRegistered(w: World, pid: string, n: string)
    requires Synced(w) && pid in w.store.projects && n in AppsOf(w.store, pid) && Addressed(w.store, pid)
    ensures Register(w.routes, w.store.projects[pid].domains, AppsOf(w.store, pid)[n], InstanceOf(w.store, pid).value.ip)
         == w.routes
  {
    var a, domains := AppsOf(w.store, pid)[n], w.store.projects[pid].domains;
    var ip := InstanceOf(w.store, pid).value.ip;
    if Available(a) && a.ports != [] {
      forall k | k in Keys(Hostname(a), domains) ensures k in w.routes && w.routes[k] == Target(ip, a.ports[0]) {
        RoutedDerives(w.store, pid, n, k, Target(ip, a.ports[0]));
        assert DerivedRoute(w.store, k, Target(ip, a.ports[0]));
      }
    }
  }

  // A route to an instance without an address is derived by nobody.
  lemma EmptyAddressShows(w: World, pid: string, n: string, w': World)
    requires NoCollision(w.store) && pid in w.store.projects && n in AppsOf(w.store, pid) && w'.store == w.store
    requires InstanceOf(w.store, pid).Some? && InstanceOf(w.store, pid).value.ip == ""
    requires Available(AppsOf(w.store, pid)[n]) && AppsOf(w.store, pid)[n].ports != []
    requires w.store.projects[pid].domains != []
    requires w'.routes == Register(w.routes, w.store.projects[pid].domains, AppsOf(w.store, pid)[n], "")
    ensures !Synced(w')
  {
    var k, d := AppOwnsKey(w.store, pid, n);
    assert k in w'.routes;
    if DerivedRoute(w.store, k, w'.routes[k]) {
      OwnerDerives(w.store, k, pid, n, d, w'.routes[k]);
    }
  }

  lemma DeployAppSync(w: World, pid: string, n: string, image: string, done: bool)
    requires WorldInv(w) && NoCollision(w.store) && Synced(w) && pid in w.store.projects && n in AppsOf(w.store, pid)
    requires NoCollision(DoDeployApp(w, pid, n, image, done).store)
    ensures Synced(DoDeployApp(w, pid, n, image, done)) <==>
      var a := AppsOf(w.store, pid)[n];
      || !Registers(w.store, pid, a, image, done) || InstanceOf(w.store, pid).value.ip != ""
      || !Available(a) || a.ports == [] || w.store.projects[pid].domains == []
  {
    assert HasApp(w.store.apps, pid, n);
    var was := AppsOf(w.store, pid)[n];
    var a := if image != "" then was.(image := image) else was;
    var w1 := if image != "" then Put(w, PutApp(w.store, pid, a)) else w;
    if image != "" {
      RewriteSync(w, pid, a, w1);
      InstanceStays(w.store, w1.store, pid);
    }
    assert AppsOf(w1.store, pid)[n] == a;
    var w' := DoDeployApp(w, pid, n, image, done);
    if Registers(w.store, pid, was, image, done) {
      if Addressed(w.store, pid) {
        DerivedIsRegistered(w1, pid, n);
        assert w' == w1;
      } else if Available(a) && a.ports != [] && w.store.projects[pid].domains != [] {
        EmptyAddressShows(w1, pid, n, w');
      } else {
        assert w' == w1;
      }
    } else {
      assert w' == w1;
    }
  }

  // ---------------------------------------------------------------- keys move

  // A key of the app in one store that the app does not derive in the other is derived by nobody.
  lemma NobodyElseDerives(s: Store, s': Store, k: string, pid: string, n: string, d: string)
    requires NoCollision(s) && Owns(s, k, pid, n, d)
    requires forall q, m :: (q, m) != (pid, n) ==> SameRoutes(s, s', q, m)
    requires forall t :: !Derives(s', pid, n, k, t)
    ensures forall t :: !DerivedRoute(s', k, t)
  {
    forall t ensures !DerivedRoute(s', k, t) {
      if DerivedRoute(s', k, t) {
        var q, m :| Derives(s', q, m, k, t);
        assert SameRoutes(s, s', q, m) && Derives(s, q, m, k, t);
        var e := DerivesOwns(s, q, m, k, t);
      }
    }
  }

  // At a key that the app derives in neither store nothing changes.
  lemma AppAside(s: Store, s': Store, k: string, pid: string, n: string)
    requires forall q, m :: (q, m) != (pid, n) ==> SameRoutes(s, s', q, m)
    requires forall t :: !Derives(s, pid, n, k, t) && !Derives(s', pid, n, k, t)
    ensures SameAt(s, s', k)
  {
    forall t ensures DerivedRoute(s, k, t) <==> DerivedRoute(s', k, t) {
      if DerivedRoute(s, k, t) {
        var q, m :| Derives(s, q, m, k, t);
        assert SameRoutes(s, s', q, m);
      }
      if DerivedRoute(s', k, t) {
        var q, m :| Derives(s', q, m, k, t);
        assert SameRoutes(s, s', q, m);
      }
    }
  }

  lemma BoundToDerived(s: Store, routes: Table, pid: string, n: string, k: string)
    requires NoCollision(s) && k in routes && Derives(s, pid, n, k, routes[k])
    ensures forall t :: (k in routes && routes[k] == t) <==> DerivedRoute(s, k, t)
  {
    var d := DerivesOwns(s, pid, n, k, routes[k]);
    forall t ensures (k in routes && routes[k] == t) <==> DerivedRoute(s, k, t) {
      if DerivedRoute(s, k, t) {
        OwnerDerives(s, k, pid, n, d, t);
      }
    }
  }

  // Reconciling or deleting one app: its keys go, and those it now derives are bound.
  lemma AppMoves(w: World, w': World, pid: string, n: string)
    requires NoCollision(w.store) && NoCollision(w'.store) && Synced(w)
    requires pid in w.store.projects && n in AppsOf(w.store, pid)
    requires forall q, m :: (q, m) != (pid, n) ==> SameRoutes(w.store, w'.store, q, m)
    requires forall k ::
      var former := k in Keys(Hostname(AppsOf(w.store, pid)[n]), w.store.projects[pid].domains);
      if exists t :: Derives(w'.store, pid, n, k, t) then k in w'.routes && Derives(w'.store, pid, n, k, w'.routes[k])
      else if former then k !in w'.routes else BoundAlike(w.routes, w'.routes, k)
    ensures Synced(w')
  {
    var keys := Keys(Hostname(AppsOf(w.store, pid)[n]), w.store.projects[pid].domains);
    forall k ensures || (BoundAlike(w.routes, w'.routes, k) && SameAt(w.store, w'.store, k))
                     || (forall t :: (k in w'.routes && w'.routes[k] == t) <==> DerivedRoute(w'.store, k, t))
    {
      if t :| Derives(w'.store, pid, n, k, t) {
        BoundToDerived(w'.store, w'.routes, pid, n, k);
      } else if k in keys {
        var d :| d in w.store.projects[pid].domains && k == Key(Hostname(AppsOf(w.store, pid)[n]), d);
        NobodyElseDerives(w.store, w'.store, k, pid, n, d);
      } else {
        AppAside(w.store, w'.store, k, pid, n);
      }
    }
    StaysSynced(w, w');
  }

  lemma ReconcileSync(w: World, pid: string, a: App, w': World)
    requires WorldInv(w) && NoCollision(w.store) && NoCollision(w'.store) && Synced(w)
    requires pid in w.store.projects && a.name in AppsOf(w.store, pid)
    requires w'.store == PutApp(w.store, pid, a)
    requires w'.routes == Reconcile(w'.store, w.routes, w.store.projects[pid], a, Hostname(AppsOf(w.store, pid)[a.name]))
    ensures Synced(w')
  {
    var s, s', n := w.store, w'.store, a.name;
    InstanceStays(s, s', pid);
    forall q, m | (q, m) != (pid, n) ensures SameRoutes(s, s', q, m) {
      OtherAppsSame(s, pid, a, q, m);
    }
    forall k
      ensures
        var former := k in Keys(Hostname(AppsOf(s, pid)[n]), s.projects[pid].domains);
        if exists t :: Derives(s', pid, n, k, t) then k in w'.routes && Derives(s', pid, n, k, w'.routes[k])
        else if former then k !in w'.routes else BoundAlike(w.routes, w'.routes, k)
    {
      ReconciledKey(w, pid, a, w', k);
    }
    AppMoves(w, w', pid, n);
  }

  // What reconciling does at one key.
  lemma ReconcileAt(s: Store, routes: Table, p: Project, a: App, former: string, k: string)
    requires p.id in s.projects && s.projects[p.id] == p
    ensures
      var after := Reconcile(s, routes, p, a, former);
      if k in Keys(Hostname(a), p.domains) && Routed(s, p.id, a)
      then k in after && after[k] == Target(InstanceOf(s, p.id).value.ip, a.ports[0])
      else if k in Keys(former, p.domains) then k !in after else BoundAlike(routes, after, k)
  {
  }

  lemma ReconciledKey(w: World, pid: string, a: App, w': World, k: string)
    requires pid in w.store.projects && w.store.projects[pid].id == pid && a.name in AppsOf(w.store, pid)
    requires w'.store == PutApp(w.store, pid, a)
    requires w'.routes == Reconcile(w'.store, w.routes, w.store.projects[pid], a, Hostname(AppsOf(w.store, pid)[a.name]))
    ensures
      var former := k in Keys(Hostname(AppsOf(w.store, pid)[a.name]), w.store.projects[pid].domains);
      if exists t :: Derives(w'.store, pid, a.name, k, t)
      then k in w'.routes && Derives(w'.store, pid, a.name, k, w'.routes[k])
      else if former then k !in w'.routes else BoundAlike(w.routes, w'.routes, k)
  {
    var s', p := w'.store, w.store.projects[pid];
    ReconcileAt(s', w.routes, p, a, Hostname(AppsOf(w.store, pid)[a.name]), k);
    assert AppsOf(s', pid)[a.name] == a;
    if k in Keys(Hostname(a), p.domains) && Routed(s', pid, a) {
      RoutedDerives(s', pid, a.name, k, w'.routes[k]);
    } else {
      forall t ensures !Derives(s', pid, a.name, k, t) {
        if k in Keys(Hostname(a), p.domains) {
          RoutedDerives(s', pid, a.name, k, t);
        }
      }
    }
  }

  lemma UpdateAppSync(w: World, pid: string, n: string, c: AppChange)
    requires WorldInv(w) && NoCollision(w.store) && Synced(w) && pid in w.store.projects && n in AppsOf(w.store, pid)
    requires NoCollision(DoUpdateApp(w, pid, n, c).store)
    ensures Synced(DoUpdateApp(w, pid, n, c)) <==>
      var a := AppsOf(w.store, pid)[n];
      || (c.policy != Some(false) && (c.hostname.Some? || c.available.Some?))
      || FirstPort(EarlyFields(a, c).ports) == FirstPort(a.ports)
      || !Exposed(w.store, pid, a)
  {
    assert HasApp(w.store.apps, pid, n);
    var was := AppsOf(w.store, pid)[n];
    var early := EarlyFields(was, c);
    var a := LateFields(early, c);
    var w' := DoUpdateApp(w, pid, n, c);
    if c.policy == Some(false) {
      RewriteSync(w, pid, early, w');
    } else if NoChange(c) {
      assert w' == w;
    } else if c.hostname.None? && c.available.None? {
      RewriteSync(w, pid, a, w');
    } else {
      ReconcileSync(w, pid, a, w');
    }
  }

  lemma DroppedAppElsewhere(s: Store, pid: string, n: string, q: string, m: string)
    requires StoreInv(s) && (q, m) != (pid, n)
    ensures SameRoutes(s, DropApp(s, pid, n), q, m)
  {
    InstanceStays(s, DropApp(s, pid, n), q);
  }

  lemma DeleteAppSync(w: World, pid: string, n: string)
    requires WorldInv(w) && NoCollision(w.store) && Synced(w) && pid in w.store.projects && n in AppsOf(w.store, pid)
    requires NoCollision(DoDeleteApp(w, pid, n).store)
    ensures Synced(DoDeleteApp(w, pid, n))
  {
    var w' := DoDeleteApp(w, pid, n);
    forall q, m | (q, m) != (pid, n) ensures SameRoutes(w.store, w'.store, q, m) {
      DroppedAppElsewhere(w.store, pid, n, q, m);
    }
    assert forall k, t :: !Derives(w'.store, pid, n, k, t);
    AppMoves(w, w', pid, n);
  }

  // ---------------------------------------------------------------- whole projects

  lemma SameDomainsSame(s: Store, p: Project, q: string, m: string)
    requires StoreInv(s) && p.id in s.projects && p.domains == s.projects[p.id].domains
    ensures SameRoutes(s, PutProject(s, p), q, m)
  {
    InstanceStays(s, PutProject(s, p), q);
  }

  lemma UpdateProjectSync(w: World, pid: string, resources: Option<string>, done: bool)
    requires WorldInv(w) && Synced(w) && pid in w.store.projects
    ensures Synced(DoUpdateProject(w, pid, resources, done))
  {
    var w' := DoUpdateProject(w, pid, resources, done);
    if InstanceOf(w.store, pid).Some? && resources.Some? {
      forall q, m ensures SameRoutes(w.store, w'.store, q, m) {
        SameDomainsSame(w.store, w.store.projects[pid].(resources := resources.value), q, m);
      }
      NothingMoves(w, w');
    }
  }

  // A project that is new has no apps, so the routes of a store that differs only in it are the same.
  lemma NewProjectSame(s: Store, p: Project, q: string, m: string)
    requires StoreInv(s) && p.id !in s.projects && p.id !in s.apps
    ensures SameRoutes(s, PutProject(s, p), q, m)
  {
    InstanceStays(s, PutProject(s, p), q);
  }

  lemma NewInstanceSame(s: Store, i: Instance, q: string, m: string)
    requires StoreInv(s) && i.id !in s.instances && AppsOf(s, i.projectID) == map[]
    ensures SameRoutes(s, s.(instances := s.instances[i.id := i]), q, m)
  {
    var s' := s.(instances := s.instances[i.id := i]);
    if q != i.projectID {
      forall id ensures IsInstanceOf(s, q, id) <==> IsInstanceOf(s', q, id) {
      }
      SameInstance(s, s', q);
    }
  }

  // One instance at most in the first store, and the same ones in both.
  lemma SameInstance(s: Store, s': Store, q: string)
    requires StoreInv(s)
    requires forall id :: IsInstanceOf(s, q, id) <==> IsInstanceOf(s', q, id)
    requires forall id :: IsInstanceOf(s, q, id) && id in s'.instances ==> s'.instances[id] == s.instances[id]
    ensures InstanceOf(s', q) == InstanceOf(s, q)
  {
    if InstanceOf(s', q).Some? {
      var id :| IsInstanceOf(s', q, id) && s'.instances[id] == InstanceOf(s', q).value;
      LookupsDetermined(s, "", q, id);
    } else {
      assert forall id :: !IsInstanceOf(s, q, id);
    }
  }

  lemma NewProjectSync(w: World, p: Project, w': World)
    requires StoreInv(w.store) && p.id !in w.store.projects && p.id !in w.store.apps
    requires w'.store == PutProject(w.store, p) && w'.routes == w.routes
    ensures Synced(w) <==> Synced(w')
  {
    forall q, m ensures SameRoutes(w.store, w'.store, q, m) {
      NewProjectSame(w.store, p, q, m);
    }
    NothingMoves(w, w');
  }

  lemma NewInstanceSync(w: World, i: Instance, w': World)
    requires StoreInv(w.store) && i.id !in w.store.instances && AppsOf(w.store, i.projectID) == map[]
    requires w'.store == w.store.(instances := w.store.instances[i.id := i]) && w'.routes == w.routes
    ensures Synced(w) <==> Synced(w')
  {
    forall q, m ensures SameRoutes(w.store, w'.store, q, m) {
      NewInstanceSame(w.store, i, q, m);
    }
    NothingMoves(w, w');
  }

  lemma RecordedProject(w: World, p: Project)
    ensures RecordProject(w, p).store == PutProject(w.store, p) && RecordProject(w, p).routes == w.routes
  {
    PutTwice(w.store, p);
    assert p.domains == [] ==> p.(domains := []) == p;
  }

  // The three stores a creation can end with.
  lemma RecordedVm(w: World, s: Store, p: Project, vm: Option<Vm>)
    requires w.store == PutProject(s, p) && p.id !in s.projects && p.id !in s.instances && p.id !in s.apps
    ensures
      var w' := RecordVm(w, p.id, vm);
      && w'.routes == w.routes
      && (w'.store == s || w'.store == w.store
          || (vm.Some? && w'.store == w.store.(instances := s.instances[vm.value.id := NewInstance(p, vm.value)])))
  {
    if vm.None? {
      FailedCreateLeavesNoTrace(s, p);
    }
  }

  function NewInstance(p: Project, v: Vm): Instance {
    Instance(v.id, p.id, v.domainName, v.ip)
  }

  lemma CreateProjectSync(w: World, r: Request)
    requires WorldInv(w) && Synced(w) && r.CreateProject? && Admissible(w, r)
    ensures Synced(DoCreateProject(w, r.name, r.domains, r.id, r.vm))
  {
    var w', p := DoCreateProject(w, r.name, r.domains, r.id, r.vm), Project(r.id, r.name, r.domains);
    if ValidComponent(r.name) && !NameTaken(w.store, r.name) {
      var w1 := RecordProject(w, p);
      RecordedProject(w, p);
      RecordedVm(w1, w.store, p, r.vm);
      NewProjectKeepsStore(w.store, p);
      NewProjectSync(w, p, w1);
      if w'.store == w.store {
        NothingMoves(w, w');
      } else if w'.store == w1.store {
        NothingMoves(w1, w');
      } else {
        NewInstanceSync(w1, NewInstance(p, r.vm.value), w');
      }
    }
  }

  // ---------------------------------------------------------------- a new address

  lemma OwnNewAddress(s: Store, pid: string, ip: string)
    requires StoreInv(s) && InstanceOf(s, pid).Some?
    ensures
      var i := InstanceOf(s, pid).value.(ip := ip);
      InstanceOf(PutInstance(s, i), pid) == Some(i)
  {
    var id :| IsInstanceOf(s, pid, id) && s.instances[id] == InstanceOf(s, pid).value;
    var i := s.instances[id].(ip := ip);
    LookupsDetermined(s, "", pid, id);
    assert BindingOk(s.projects, s.instances[id]) && i.id == id;
    PutInstanceKeeps(s, i);
    LookupsDetermined(PutInstance(s, i), "", pid, id);
  }

  lemma NewAddressElsewhere(s: Store, pid: string, ip: string, q: string)
    requires StoreInv(s) && InstanceOf(s, pid).Some? && q != pid
    ensures InstanceOf(PutInstance(s, InstanceOf(s, pid).value.(ip := ip)), q) == InstanceOf(s, q)
  {
    var id :| IsInstanceOf(s, pid, id) && s.instances[id] == InstanceOf(s, pid).value;
    SameInstance(s, PutInstance(s, s.instances[id].(ip := ip)), q);
  }

  lemma NewAddress(s: Store, pid: string, ip: string)
    requires StoreInv(s) && InstanceOf(s, pid).Some?
    ensures
      var s' := PutInstance(s, InstanceOf(s, pid).value.(ip := ip));
      && InstanceOf(s', pid) == Some(InstanceOf(s, pid).value.(ip := ip))
      && s'.projects == s.projects && s'.apps == s.apps
      && (forall q :: q != pid ==> InstanceOf(s', q) == InstanceOf(s, q))
  {
    OwnNewAddress(s, pid, ip);
    forall q | q != pid
      ensures InstanceOf(PutInstance(s, InstanceOf(s, pid).value.(ip := ip)), q) == InstanceOf(s, q)
    {
      NewAddressElsewhere(s, pid, ip, q);
    }
  }

  // An address that changes nothing: it is the same, or there is no app to route to.
  lemma IdleAddress(s: Store, pid: string, ip: string, q: string, m: string)
    requires StoreInv(s) && pid in s.projects && InstanceOf(s, pid).Some?
    requires InstanceOf(s, pid).value.ip == ip || !Routable(s, pid)
    ensures SameRoutes(s, PutInstance(s, InstanceOf(s, pid).value.(ip := ip)), q, m)
  {
    NewAddress(s, pid, ip);
  }

  lemma MovedAddress(w: World, pid: string, ip: string, w': World)
    requires StoreInv(w.store) && NoCollision(w.store) && NoCollision(w'.store) && pid in w.store.projects
    requires InstanceOf(w.store, pid).Some? && InstanceOf(w.store, pid).value.ip != ip && Routable(w.store, pid)
    requires w'.store == PutInstance(w.store, InstanceOf(w.store, pid).value.(ip := ip)) && w'.routes == w.routes
    ensures !(Synced(w) && Synced(w'))
  {
    var s, s', was := w.store, w'.store, InstanceOf(w.store, pid).value.ip;
    NewAddress(s, pid, ip);
    var n :| n in AppsOf(s, pid) && Available(AppsOf(s, pid)[n]) && AppsOf(s, pid)[n].ports != [];
    var k, d := AppOwnsKey(s, pid, n);
    var t := Target(if was != "" then was else ip, AppsOf(s, pid)[n].ports[0]);
    RoutedDerives(s, pid, n, k, t);
    RoutedDerives(s', pid, n, k, t);
    assert Owns(s', k, pid, n, d);
    Betrayed(w, w', k, pid, n, d, t);
  }

  lemma StartProjectSync(w: World, pid: string, done: bool, ip: string)
    requires WorldInv(w) && NoCollision(w.store) && Synced(w) && pid in w.store.projects
    requires NoCollision(DoStartProject(w, pid, done, ip).store)
    ensures Synced(DoStartProject(w, pid, done, ip)) <==>
      InstanceOf(w.store, pid).None? || !done || InstanceOf(w.store, pid).value.ip == ip || !Routable(w.store, pid)
  {
    var w' := DoStartProject(w, pid, done, ip);
    if InstanceOf(w.store, pid).Some? && done {
      if InstanceOf(w.store, pid).value.ip == ip || !Routable(w.store, pid) {
        forall q, m ensures SameRoutes(w.store, w'.store, q, m) {
          IdleAddress(w.store, pid, ip, q, m);
        }
        NothingMoves(w, w');
      } else {
        MovedAddress(w, pid, ip, w');
      }
    }
  }

  // ---------------------------------------------------------------- new domains

  lemma ExactlyBound(s: Store, routes: Table, k: string)
    requires NoCollision(s) && (k in routes <==> DerivedKey(s, k)) && (k in routes ==> DerivedRoute(s, k, routes[k]))
    ensures forall t :: (k in routes && routes[k] == t) <==> DerivedRoute(s, k, t)
  {
    DerivedKeyHasRoute(s, k);
    forall t ensures (k in routes && routes[k] == t) <==> DerivedRoute(s, k, t) {
      if DerivedRoute(s, k, t) {
        DerivedUnique(s, k, t, routes[k]);
      }
    }
  }

  // At a key the project owns in neither store, nothing changes.
  lemma ProjectAside(s: Store, s': Store, k: string, pid: string)
    requires forall q, m :: q != pid ==> SameRoutes(s, s', q, m)
    requires !OwnedBy(s, k, pid) && !OwnedBy(s', k, pid)
    ensures SameAt(s, s', k)
  {
    forall n, t ensures !Derives(s, pid, n, k, t) && !Derives(s', pid, n, k, t) {
      if Derives(s, pid, n, k, t) {
        var d := DerivesOwns(s, pid, n, k, t);
      }
      if Derives(s', pid, n, k, t) {
        var d := DerivesOwns(s', pid, n, k, t);
      }
    }
    forall t ensures DerivedRoute(s, k, t) <==> DerivedRoute(s', k, t) {
      if DerivedRoute(s, k, t) {
        var q, m :| Derives(s, q, m, k, t);
        assert SameRoutes(s, s', q, m);
      }
      if DerivedRoute(s', k, t) {
        var q, m :| Derives(s', q, m, k, t);
        assert SameRoutes(s, s', q, m);
      }
    }
  }

  // A key of the project, old or new, is derived by nobody if the project derives nothing.
  lemma NobodyDerives(s: Store, s': Store, k: string, pid: string)
    requires NoCollision(s) && NoCollision(s') && (OwnedBy(s, k, pid) || OwnedBy(s', k, pid))
    requires forall q, m :: q != pid ==> SameRoutes(s, s', q, m)
    requires forall n, t :: !Derives(s', pid, n, k, t)
    ensures forall t :: !DerivedRoute(s', k, t)
    ensures !DerivedKey(s', k)
  {
    forall q, m, t ensures !Derives(s', q, m, k, t) {
      if Derives(s', q, m, k, t) && q != pid {
        assert SameRoutes(s, s', q, m);
        var d := DerivesOwns(s, q, m, k, t);
        var e := DerivesOwns(s', q, m, k, t);
      }
    }
  }

  lemma NewDomainsElsewhere(s: Store, p: Project, q: string, m: string)
    requires StoreInv(s) && q != p.id
    ensures SameRoutes(s, PutProject(s, p), q, m)
  {
    InstanceStays(s, PutProject(s, p), q);
  }

  // What a domain update does to one key.
  lemma UpdatedKey(w: World, pid: string, domains: seq<string>, w': World, k: string)
    requires WorldInv(w) && NoCollision(w.store) && NoCollision(w'.store)
    requires pid in w.store.projects && DoUpdateDomains(w, pid, domains, w')
    requires forall q, m :: q != pid ==> SameRoutes(w.store, w'.store, q, m)
    ensures || (BoundAlike(w.routes, w'.routes, k) && SameAt(w.store, w'.store, k))
            || (forall t :: (k in w'.routes && w'.routes[k] == t) <==> DerivedRoute(w'.store, k, t))
  {
    if !OwnedBy(w.store, k, pid) && !OwnedBy(w'.store, k, pid) {
      OthersUntouched(w, pid, domains, w', k);
      ProjectAside(w.store, w'.store, k, pid);
    } else {
      DomainUpdateIsExact(w, pid, domains, w', k);
      ExactlyBound(w'.store, w'.routes, k);
    }
  }

  lemma UpdateDomainsSync(w: World, pid: string, domains: seq<string>, w': World)
    requires WorldInv(w) && NoCollision(w.store) && NoCollision(w'.store) && Synced(w)
    requires pid in w.store.projects && DoUpdateDomains(w, pid, domains, w')
    ensures Synced(w')
  {
    forall q, m | q != pid ensures SameRoutes(w.store, w'.store, q, m) {
      NewDomainsElsewhere(w.store, w.store.projects[pid].(domains := domains), q, m);
    }
    forall k ensures || (BoundAlike(w.routes, w'.routes, k) && SameAt(w.store, w'.store, k))
                     || (forall t :: (k in w'.routes && w'.routes[k] == t) <==> DerivedRoute(w'.store, k, t))
    {
      UpdatedKey(w, pid, domains, w', k);
    }
    StaysSynced(w, w');
  }

  // ---------------------------------------------------------------- a project goes

  // What is left of the store once a project and the instances stored under two IDs are gone.
  lemma GoneElsewhere(s: Store, pid: string, s': Store, q: string, m: string)
    requires StoreInv(s) && q != pid && s'.projects == s.projects - {pid} && s'.apps == s.apps - {pid}
    requires InstanceOf(s', q) == InstanceOf(s, q) || !Addressed(s, q) || (q in s.projects && !Routable(s, q))
    requires Addressed(s', q) ==> Addressed(s, q)
    ensures SameRoutes(s, s', q, m)
  {
  }

  // Instances go, except perhaps the one of q.
  lemma LeftInstance(s: Store, s': Store, q: string)
    requires StoreInv(s)
    requires forall id :: id in s'.instances ==> id in s.instances && s'.instances[id] == s.instances[id]
    ensures InstanceOf(s', q) == InstanceOf(s, q) || InstanceOf(s', q).None?
    ensures (forall id :: IsInstanceOf(s, q, id) ==> id in s'.instances) ==> InstanceOf(s', q) == InstanceOf(s, q)
  {
    if InstanceOf(s', q).Some? {
      var id :| IsInstanceOf(s', q, id) && s'.instances[id] == InstanceOf(s', q).value;
      LookupsDetermined(s, "", q, id);
    } else if forall id :: IsInstanceOf(s, q, id) ==> id in s'.instances {
      assert forall id :: IsInstanceOf(s, q, id) ==> IsInstanceOf(s', q, id);
    }
  }

  // The deleted project's instance goes, and whatever is stored under the project's own ID.
  ghost function Deleted(s: Store, pid: string): Store {
    DropProject(if InstanceOf(s, pid).Some? then DropInstance(s, InstanceOf(s, pid).value.id) else s, pid)
  }

  lemma DeletedElsewhere(s: Store, pid: string, q: string, m: string)
    requires StoreInv(s) && pid in s.projects && q != pid
    requires !(pid in s.instances && s.instances[pid].projectID == q) || !Addressed(s, q) || (q in s.projects && !Routable(s, q))
    ensures SameRoutes(s, Deleted(s, pid), q, m)
  {
    var s' := Deleted(s, pid);
    LeftInstance(s, s', q);
    if !(pid in s.instances && s.instances[pid].projectID == q) {
      forall id | IsInstanceOf(s, q, id) ensures id in s'.instances {
        if InstanceOf(s, pid).Some? {
          var own :| IsInstanceOf(s, pid, own) && s.instances[own] == InstanceOf(s, pid).value;
          assert s.instances[own].id == own && own != id;
        }
      }
    }
    GoneElsewhere(s, pid, s', q, m);
  }

  // The project whose instance was stored under the deleted project's ID loses its address.
  lemma TakenLosesAddress(s: Store, pid: string)
    requires StoreInv(s) && pid in s.projects && pid in s.instances && s.instances[pid].projectID != pid
    ensures InstanceOf(s, s.instances[pid].projectID) == Some(s.instances[pid])
    ensures InstanceOf(Deleted(s, pid), s.instances[pid].projectID).None?
  {
    var q, s' := s.instances[pid].projectID, Deleted(s, pid);
    LookupsDetermined(s, "", q, pid);
    if InstanceOf(s', q).Some? {
      var id :| IsInstanceOf(s', q, id);
      assert IsInstanceOf(s, q, id) && IsInstanceOf(s, q, pid);
    }
  }

  // The taken project has a key that is none of the deleted project's, and derives it no more.
  lemma TakenKey(s: Store, pid: string) returns (k: string, t: Target)
    requires StoreInv(s) && NoCollision(s) && NoCollision(Deleted(s, pid)) && pid in s.projects && TakesOther(s, pid)
    ensures DerivedRoute(s, k, t) && !OwnedBy(s, k, pid) && !DerivedRoute(Deleted(s, pid), k, t)
  {
    var s', q := Deleted(s, pid), s.instances[pid].projectID;
    TakenLosesAddress(s, pid);
    var n :| n in AppsOf(s, q) && Available(AppsOf(s, q)[n]) && AppsOf(s, q)[n].ports != [];
    var d;
    k, d := AppOwnsKey(s, q, n);
    t := Target(s.instances[pid].ip, AppsOf(s, q)[n].ports[0]);
    RoutedDerives(s, q, n, k, t);
    assert Owns(s', k, q, n, d);
    if DerivedRoute(s', k, t) {
      OwnerDerives(s', k, q, n, d, t);
    }
  }

  lemma AllKeysAreOwned(s: Store, pid: string, k: string)
    requires pid in s.projects
    ensures k in AllKeys(AppsOf(s, pid), s.projects[pid].domains) <==> OwnedBy(s, k, pid)
  {
    if k in AllKeys(AppsOf(s, pid), s.projects[pid].domains) {
      var m, e :| m in AppsOf(s, pid) && e in s.projects[pid].domains && k == Key(Hostname(AppsOf(s, pid)[m]), e);
      assert Owns(s, k, pid, m, e);
    }
  }

  // Its routes then stay in the table although nobody derives them.
  lemma TakenStaysBound(w: World, pid: string, w': World)
    requires StoreInv(w.store) && NoCollision(w.store) && NoCollision(w'.store) && Synced(w) && pid in w.store.projects
    requires TakesOther(w.store, pid) && w'.store == Deleted(w.store, pid)
    requires w'.routes == w.routes - AllKeys(AppsOf(w.store, pid), w.store.projects[pid].domains)
    ensures !Synced(w')
  {
    var k, t := TakenKey(w.store, pid);
    AllKeysAreOwned(w.store, pid, k);
    assert k in w'.routes && w'.routes[k] == t && !DerivedRoute(w'.store, k, t);
  }

  lemma DeletedKey(w: World, pid: string, w': World, k: string)
    requires StoreInv(w.store) && NoCollision(w.store) && NoCollision(w'.store) && pid in w.store.projects
    requires w'.store == Deleted(w.store, pid)
    requires w'.routes == w.routes - AllKeys(AppsOf(w.store, pid), w.store.projects[pid].domains)
    requires forall q, m :: q != pid ==> SameRoutes(w.store, w'.store, q, m)
    ensures || (BoundAlike(w.routes, w'.routes, k) && SameAt(w.store, w'.store, k))
            || (forall t :: (k in w'.routes && w'.routes[k] == t) <==> DerivedRoute(w'.store, k, t))
  {
    AllKeysAreOwned(w.store, pid, k);
    if OwnedBy(w.store, k, pid) {
      NobodyDerives(w.store, w'.store, k, pid);
    } else {
      ProjectAside(w.store, w'.store, k, pid);
    }
  }

  lemma DeleteProjectSync(w: World, pid: string)
    requires WorldInv(w) && NoCollision(w.store) && Synced(w) && pid in w.store.projects
    requires NoCollision(DoDeleteProject(w, pid).store)
    ensures Synced(DoDeleteProject(w, pid)) <==> !TakesOther(w.store, pid)
  {
    var w', s := DoDeleteProject(w, pid), w.store;
    if TakesOther(s, pid) {
      TakenStaysBound(w, pid, w');
    } else {
      forall q, m | q != pid ensures SameRoutes(s, w'.store, q, m) {
        if pid in s.instances && s.instances[pid].projectID == q {
          TakenLosesAddress(s, pid);
        }
        DeletedElsewhere(s, pid, q, m);
      }
      forall k ensures || (BoundAlike(w.routes, w'.routes, k) && SameAt(s, w'.store, k))
                       || (forall t :: (k in w'.routes && w'.routes[k] == t) <==> DerivedRoute(w'.store, k, t))
      {
        DeletedKey(w, pid, w', k);
      }
      StaysSynced(w, w');
    }
  }

  // ---------------------------------------------------------------- every request, every run

  /** From a world in which the table is the derived one, and as long as no two apps share a key,
      a request keeps it so if and only if it satisfies the guard. */
  lemma StepKeepsSync(w: World, r: Request, w': World)
    requires WorldInv(w) && NoCollision(w.store) && NoCollision(w'.store) && Synced(w)
    requires Admissible(w, r) && Step(w, r, w')
    ensures Synced(w') <==> KeepsSync(w, r)
  {
    if r.Restart? {
      RebuildIsDerived(w'.store, w'.routes);
    } else if r.Touch? {
      NothingMoves(w, w');
    } else if r.CreateProject? {
      CreateProjectSync(w, r);
    } else if Find(w.store, r.key).Some? {
      var pid := Find(w.store, r.key).value;
      match r
      case DeleteProject(_) => DeleteProjectSync(w, pid);
      case StartProject(_, done, ip) => StartProjectSync(w, pid, done, ip);
      case UpdateProject(_, resources, done) => UpdateProjectSync(w, pid, resources, done);
      case UpdateDomains(_, domains) => UpdateDomainsSync(w, pid, domains, w');
      case CreateApp(_, a, binary) => CreateAppSync(w, pid, a, binary);
      case UpdateApp(_, n, c) => if n in AppsOf(w.store, pid) { UpdateAppSync(w, pid, n, c); }
      case DeployApp(_, n, image, done) => if n in AppsOf(w.store, pid) { DeployAppSync(w, pid, n, image, done); }
      case StopApp(_, n, done) => if n in AppsOf(w.store, pid) { StopAppSync(w, pid, n, done); }
      case DeleteApp(_, n) => if n in AppsOf(w.store, pid) { DeleteAppSync(w, pid, n); }
    }
  }

  ghost predicate Collisionless(ws: seq<World>) {
    forall i :: 0 <= i < |ws| ==> NoCollision(ws[i].store)
  }

  lemma {:induction false} SyncedUpTo(ws: seq<World>, rs: seq<Request>, n: nat)
    requires Trace(ws, rs) && ws[0] == Fresh && Collisionless(ws) && n <= |rs|
    requires forall i :: 0 <= i < n ==> KeepsSync(ws[i], rs[i])
    ensures Synced(ws[n])
  {
    if n == 0 {
      RebuildIsDerived(Empty, map[]);
    } else {
      SyncedUpTo(ws, rs, n - 1);
      InvAt(ws, rs, n - 1);
      StepKeepsSync(ws[n - 1], rs[n - 1], ws[n]);
    }
  }

  /** Over every run of a fresh daemon in which no two apps share a key, the table is the derived
      one all along if and only if every request satisfied the guard. */
  lemma RunKeepsSync(ws: seq<World>, rs: seq<Request>)
    requires Trace(ws, rs) && ws[0] == Fresh && Collisionless(ws)
    ensures (forall i :: 0 <= i < |ws| ==> Synced(ws[i])) <==> (forall i :: 0 <= i < |rs| ==> KeepsSync(ws[i], rs[i]))
  {
    if forall i :: 0 <= i < |ws| ==> Synced(ws[i]) {
      forall i | 0 <= i < |rs| ensures KeepsSync(ws[i], rs[i]) {
        InvAt(ws, rs, i);
        StepKeepsSync(ws[i], rs[i], ws[i + 1]);
      }
    }
    if forall i :: 0 <= i < |rs| ==> KeepsSync(ws[i], rs[i]) {
      forall i | 0 <= i < |ws| ensures Synced(ws[i]) {
        SyncedUpTo(ws, rs, i);
      }
    }
  }
}
