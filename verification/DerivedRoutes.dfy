/** The routes the store implies, and when the maintained table equals them. */
module DerivedRoutes {
  import opened Paths
  import opened Stores
  import opened Routes
  import opened RouteProperties

  // No key belongs to two apps.
  ghost predicate NoCollision(s: Store) {
    forall k, p, n, d, q, m, e :: Owns(s, k, p, n, d) && Owns(s, k, q, m, e) ==> p == q && n == m
  }

  ghost predicate DotFree(h: string) {
    forall i :: 0 <= i < |h| ==> h[i] != '.'
  }

  ghost predicate HostnamesDotFree(s: Store) {
    forall p, n :: p in s.projects && HasApp(s.apps, p, n) ==> DotFree(Hostname(s.apps[p][n]))
  }

  /** A key with a dot-free hostname can be read only one way. */
  lemma KeyInjective(h: string, d: string, h': string, d': string)
    requires DotFree(h) && DotFree(h') && Key(h, d) == Key(h', d')
    ensures h == h' && d == d'
  {
    var k, k' := Key(h, d), Key(h', d');
    assert k[|h|] == '.' && k'[|h'|] == '.';
    assert k[..|h|] == h && k'[..|h'|] == h' && k[|h| + 1..] == d && k'[|h'| + 1..] == d';
  }

  // Two different apps share both hostname and a domain.
  ghost predicate SharedName(s: Store, p: string, n: string, q: string, m: string, d: string) {
    && p in s.projects && q in s.projects && HasApp(s.apps, p, n) && HasApp(s.apps, q, m)
    && (p != q || n != m)
    && d in s.projects[p].domains && d in s.projects[q].domains
    && Hostname(s.apps[p][n]) == Hostname(s.apps[q][m])
  }

  /** With dot-free hostnames keys collide only where two apps share hostname and domain. */
  lemma DotFreeCollisions(s: Store)
    requires HostnamesDotFree(s)
    ensures NoCollision(s) <==> forall p, n, q, m, d :: !SharedName(s, p, n, q, m, d)
  {
    if NoCollision(s) {
      forall p, n, q, m, d ensures !SharedName(s, p, n, q, m, d) {
        if SharedName(s, p, n, q, m, d) {
          var k := Key(Hostname(s.apps[p][n]), d);
          assert Owns(s, k, p, n, d) && Owns(s, k, q, m, d);
        }
      }
    }
    if forall p, n, q, m, d :: !SharedName(s, p, n, q, m, d) {
      forall k, p, n, d, q, m, e | Owns(s, k, p, n, d) && Owns(s, k, q, m, e) ensures p == q && n == m {
        KeyInjective(Hostname(s.apps[p][n]), d, Hostname(s.apps[q][m]), e);
        assert !SharedName(s, p, n, q, m, d);
      }
    }
  }

  /** A dotted hostname can collide with a longer domain of somebody else. */
  lemma DottedHostnamesCollide()
    ensures Key("a.b", "c") == Key("a", "b.c")
  {
  }

  // The project has one instance at most, so which one is found depends on the instances alone.
  lemma InstanceStays(s: Store, s': Store, pid: string)
    requires StoreInv(s) && s'.instances == s.instances
    ensures InstanceOf(s', pid) == InstanceOf(s, pid)
  {
    if InstanceOf(s', pid).Some? {
      var id :| IsInstanceOf(s', pid, id) && s'.instances[id] == InstanceOf(s', pid).value;
      assert IsInstanceOf(s, pid, id);
      LookupsDetermined(s, "", pid, id);
    } else {
      assert forall id :: IsInstanceOf(s, pid, id) ==> IsInstanceOf(s', pid, id);
    }
  }

  lemma DerivesOwns(s: Store, pid: string, n: string, k: string, t: Target) returns (d: string)
    requires Derives(s, pid, n, k, t)
    ensures Owns(s, k, pid, n, d) && Names(s, k, pid, n, d)
  {
    d :| d in s.projects[pid].domains && k == Key(Hostname(AppsOf(s, pid)[n]), d);
  }

  lemma DerivedUnique(s: Store, k: string, t: Target, t': Target)
    requires NoCollision(s) && DerivedRoute(s, k, t) && DerivedRoute(s, k, t')
    ensures t == t'
  {
    var p, n :| Derives(s, p, n, k, t);
    var q, m :| Derives(s, q, m, k, t');
    var d := DerivesOwns(s, p, n, k, t);
    var e := DerivesOwns(s, q, m, k, t');
  }

  lemma DerivedKeyHasRoute(s: Store, k: string)
    ensures DerivedKey(s, k) <==> exists t :: DerivedRoute(s, k, t)
  {
    if DerivedKey(s, k) {
      var pid, n, t :| Derives(s, pid, n, k, t);
      assert DerivedRoute(s, k, t);
    }
    if t :| DerivedRoute(s, k, t) {
      var pid, n :| Derives(s, pid, n, k, t);
    }
  }

  /** Rebuilding an empty table gives exactly the derived routes, whatever the order of projects
      and apps: a key is bound to a target if and only if the store derives that route. */
  lemma RebuildIsDerived(s: Store, routes: Table)
    requires NoCollision(s)
    ensures Rebuilt(map[], routes, s) <==>
      forall k, t :: (k in routes && routes[k] == t) <==> DerivedRoute(s, k, t)
  {
    if Rebuilt(map[], routes, s) {
      forall k, t ensures (k in routes && routes[k] == t) <==> DerivedRoute(s, k, t) {
        if DerivedRoute(s, k, t) {
          var pid, n :| Derives(s, pid, n, k, t);
          assert DerivedKey(s, k);
          DerivedUnique(s, k, t, routes[k]);
        }
      }
    }
    if forall k, t :: (k in routes && routes[k] == t) <==> DerivedRoute(s, k, t) {
      forall k ensures if DerivedKey(s, k) then k in routes && DerivedRoute(s, k, routes[k]) else k !in routes {
        DerivedKeyHasRoute(s, k);
        assert k in routes ==> (k in routes && routes[k] == routes[k]) && DerivedRoute(s, k, routes[k]);
      }
    }
  }

  /** A rebuild has every key the maintained table had, provided each project with a route has an
      address and each app with a route a port. */
  lemma RebuildCovers(s: Store, routes: Table, rebuilt: Table)
    requires StoreInv(s) && Sound(s, routes) && Rebuilt(map[], rebuilt, s)
    requires forall k, pid, n, d :: k in routes && Names(s, k, pid, n, d) ==>
      InstanceOf(s, pid).Some? && InstanceOf(s, pid).value.ip != "" && s.apps[pid][n].ports != []
    ensures routes.Keys <= rebuilt.Keys
  {
    forall k | k in routes ensures k in rebuilt {
      var pid, n, d :| Names(s, k, pid, n, d);
      var t := Target(InstanceOf(s, pid).value.ip, s.apps[pid][n].ports[0]);
      assert Derives(s, pid, n, k, t);
      assert DerivedKey(s, k);
    }
  }

  // ---------------------------------------------------------------- domain updates

  ghost predicate OwnedBy(s: Store, k: string, pid: string) {
    exists n, d :: Owns(s, k, pid, n, d)
  }

  ghost predicate Addressed(s: Store, pid: string) {
    InstanceOf(s, pid).Some? && InstanceOf(s, pid).value.ip != ""
  }

  lemma OthersUntouched(w: World, pid: string, domains: seq<string>, w': World, k: string)
    requires StoreInv(w.store) && pid in w.store.projects && DoUpdateDomains(w, pid, domains, w')
    requires !OwnedBy(w.store, k, pid) && !OwnedBy(w'.store, k, pid)
    ensures (k in w'.routes <==> k in w.routes) && (k in w.routes ==> w'.routes[k] == w.routes[k])
  {
    var p, apps := w.store.projects[pid], AppsOf(w.store, pid);
    if k in AllKeys(apps, p.domains) {
      var n, d :| n in apps && d in p.domains && k == Key(Hostname(apps[n]), d);
      assert Owns(w.store, k, pid, n, d);
    }
    if n :| Serves(apps, domains, n, k) {
      var d :| d in domains && k == Key(Hostname(apps[n]), d);
      assert Owns(w'.store, k, pid, n, d);
    }
  }

  lemma OldKeysGone(w: World, pid: string, domains: seq<string>, k: string)
    requires WorldInv(w) && pid in w.store.projects
    requires OwnedBy(w.store, k, pid) || OwnedBy(PutProject(w.store, w.store.projects[pid].(domains := domains)), k, pid)
    requires NoCollision(w.store) && NoCollision(PutProject(w.store, w.store.projects[pid].(domains := domains)))
    ensures k !in w.routes - AllKeys(AppsOf(w.store, pid), w.store.projects[pid].domains)
  {
    var s, p := w.store, w.store.projects[pid];
    var s' := PutProject(s, p.(domains := domains));
    if k in w.routes {
      var q, m, e :| Names(s, k, q, m, e);
      if q != pid {
        assert Owns(s, k, q, m, e) && Owns(s', k, q, m, e);
        assert false;
      }
      assert k == Key(Hostname(AppsOf(s, pid)[m]), e);
    }
  }

  lemma ServedIsDerived(s: Store, pid: string, n: string, k: string)
    requires pid in s.projects && InstanceOf(s, pid).Some? && InstanceOf(s, pid).value.ip != ""
    requires Serves(AppsOf(s, pid), s.projects[pid].domains, n, k)
    ensures DerivedRoute(s, k, Target(InstanceOf(s, pid).value.ip, AppsOf(s, pid)[n].ports[0])) && DerivedKey(s, k)
  {
    assert Derives(s, pid, n, k, Target(InstanceOf(s, pid).value.ip, AppsOf(s, pid)[n].ports[0]));
  }

  // A derived route under a key that the project owns or owned is served by the project itself.
  lemma DerivedIsServed(s: Store, p: Project, k: string) returns (n: string)
    requires p.id in s.projects && NoCollision(s) && NoCollision(PutProject(s, p)) && DerivedKey(PutProject(s, p), k)
    requires OwnedBy(s, k, p.id) || OwnedBy(PutProject(s, p), k, p.id)
    ensures Addressed(PutProject(s, p), p.id) && Serves(AppsOf(s, p.id), p.domains, n, k)
  {
    var s' := PutProject(s, p);
    var q, m, t :| Derives(s', q, m, k, t);
    var d := DerivesOwns(s', q, m, k, t);
    if q != p.id {
      assert Owns(s, k, q, m, d);
    }
    n := m;
  }

  lemma OthersOwnBoth(s: Store, p: Project, k: string, q: string)
    requires p.id in s.projects && NoCollision(s) && NoCollision(PutProject(s, p))
    requires q != p.id && OwnedBy(PutProject(s, p), k, q)
    ensures !OwnedBy(s, k, p.id) && !OwnedBy(PutProject(s, p), k, p.id)
  {
    var n, d :| Owns(PutProject(s, p), k, q, n, d);
    assert Owns(s, k, q, n, d);
  }

  /** After a domain update the keys of the project, old and new, are bound exactly as the store
      derives them: not at all if the project has no address. */
  lemma DomainUpdateIsExact(w: World, pid: string, domains: seq<string>, w': World, k: string)
    requires WorldInv(w) && pid in w.store.projects && DoUpdateDomains(w, pid, domains, w')
    requires NoCollision(w.store) && NoCollision(w'.store)
    requires OwnedBy(w.store, k, pid) || OwnedBy(w'.store, k, pid)
    ensures k in w'.routes <==> DerivedKey(w'.store, k)
    ensures k in w'.routes ==> DerivedRoute(w'.store, k, w'.routes[k])
  {
    OldKeysGone(w, pid, domains, k);
    if n :| Addressed(w'.store, pid) && Serves(AppsOf(w'.store, pid), domains, n, k) {
      var m :| Serves(AppsOf(w'.store, pid), domains, m, k)
        && w'.routes[k] == Target(InstanceOf(w'.store, pid).value.ip, AppsOf(w'.store, pid)[m].ports[0]);
      ServedIsDerived(w'.store, pid, m, k);
    } else if DerivedKey(w'.store, k) {
      var n := DerivedIsServed(w.store, w.store.projects[pid].(domains := domains), k);
    }
  }

  // The entry of one key is what the store implies.
  ghost predicate KeySynced(s: Store, routes: Table, k: string) {
    (k in routes <==> DerivedKey(s, k)) && (k in routes ==> DerivedRoute(s, k, routes[k]))
  }

  ghost predicate OtherDerives(s: Store, pid: string, k: string) {
    exists q, m, t :: q != pid && Derives(s, q, m, k, t)
  }

  // Projects do not see each other's domains.
  lemma OthersDeriveAlike(s: Store, p: Project, q: string, m: string, k: string, t: Target)
    requires StoreInv(s) && q != p.id
    ensures Derives(PutProject(s, p), q, m, k, t) <==> Derives(s, q, m, k, t)
  {
    InstanceStays(s, PutProject(s, p), q);
  }

  // The project has an address and serves an app under the key.
  ghost predicate Offers(s: Store, p: Project, k: string) {
    Addressed(s, p.id) && exists n :: Serves(AppsOf(s, p.id), p.domains, n, k)
  }

  lemma NotOfferedIsUnderived(s: Store, p: Project, n: string, k: string, t: Target)
    requires StoreInv(s) && p.id in s.projects && !Offers(s, p, k)
    ensures !Derives(PutProject(s, p), p.id, n, k, t)
  {
    assert AppsOf(PutProject(s, p), p.id) == AppsOf(s, p.id);
    InstanceStays(s, PutProject(s, p), p.id);
  }

  // A project that offers no app under a key leaves the key to the others.
  lemma DerivedByOthers(s: Store, p: Project, k: string)
    requires StoreInv(s) && p.id in s.projects && !Offers(s, p, k)
    ensures DerivedKey(PutProject(s, p), k) <==> OtherDerives(s, p.id, k)
    ensures forall t :: DerivedRoute(PutProject(s, p), k, t) <==> exists q, m :: q != p.id && Derives(s, q, m, k, t)
  {
    forall q, m, t | q != p.id ensures Derives(PutProject(s, p), q, m, k, t) <==> Derives(s, q, m, k, t) {
      OthersDeriveAlike(s, p, q, m, k, t);
    }
    forall n, t ensures !Derives(PutProject(s, p), p.id, n, k, t) {
      NotOfferedIsUnderived(s, p, n, k, t);
    }
  }

  lemma UnownedIsNotOffered(s: Store, pid: string, k: string)
    requires pid in s.projects && s.projects[pid].id == pid && !OwnedBy(s, k, pid)
    ensures !Offers(s, s.projects[pid], k)
  {
    forall n ensures !Serves(AppsOf(s, pid), s.projects[pid].domains, n, k) {
      if Serves(AppsOf(s, pid), s.projects[pid].domains, n, k) {
        var d :| d in s.projects[pid].domains && k == Key(Hostname(AppsOf(s, pid)[n]), d);
        assert Owns(s, k, pid, n, d);
      }
    }
  }

  lemma UpdateLeaves(w: World, pid: string, domains: seq<string>, w': World, k: string)
    requires StoreInv(w.store) && pid in w.store.projects && DoUpdateDomains(w, pid, domains, w')
    requires !Offers(w.store, w.store.projects[pid].(domains := domains), k)
    ensures OwnedBy(w.store, k, pid) ==> k !in w'.routes
    ensures !OwnedBy(w.store, k, pid) ==> (k in w'.routes <==> k in w.routes) && (k in w.routes ==> w'.routes[k] == w.routes[k])
  {
    var p, apps := w.store.projects[pid], AppsOf(w.store, pid);
    InstanceStays(w.store, w'.store, pid);
    if k in AllKeys(apps, p.domains) {
      var n, d :| n in apps && d in p.domains && k == Key(Hostname(apps[n]), d);
      assert Owns(w.store, k, pid, n, d);
    } else if n, d :| Owns(w.store, k, pid, n, d) {
      assert k == Key(Hostname(apps[n]), d);
    }
  }

  lemma OfferedIsSynced(w: World, pid: string, domains: seq<string>, w': World, n: string, k: string)
    requires WorldInv(w) && pid in w.store.projects && DoUpdateDomains(w, pid, domains, w')
    requires Addressed(w.store, pid) && Serves(AppsOf(w.store, pid), domains, n, k)
    ensures KeySynced(w'.store, w'.routes, k)
  {
    InstanceStays(w.store, w'.store, pid);
    var m :| Serves(AppsOf(w.store, pid), domains, m, k)
      && w'.routes[k] == Target(InstanceOf(w'.store, pid).value.ip, AppsOf(w.store, pid)[m].ports[0]);
    ServedIsDerived(w'.store, pid, m, k);
  }

  // Who else derives a key that the project does not own.
  lemma DerivedByOthersAlready(s: Store, pid: string, k: string)
    requires StoreInv(s) && pid in s.projects && !OwnedBy(s, k, pid)
    ensures DerivedKey(s, k) <==> OtherDerives(s, pid, k)
    ensures forall t :: DerivedRoute(s, k, t) <==> exists q, m :: q != pid && Derives(s, q, m, k, t)
  {
    UnownedIsNotOffered(s, pid, k);
    assert PutProject(s, s.projects[pid]) == s;
    DerivedByOthers(s, s.projects[pid], k);
  }

  /** With collisions a domain update can cut a route of another project. Exactly: afterwards a key
      is as the store derives it if and only if the project has an address and itself serves an app
      under it, or no other project derives a key that was the project's, or the key was not and was
      right before. */
  lemma DomainUpdateAtKey(w: World, pid: string, domains: seq<string>, w': World, k: string)
    requires WorldInv(w) && pid in w.store.projects && DoUpdateDomains(w, pid, domains, w')
    ensures KeySynced(w'.store, w'.routes, k) <==>
      || (Addressed(w.store, pid) && exists n :: Serves(AppsOf(w.store, pid), domains, n, k))
      || (if OwnedBy(w.store, k, pid) then !OtherDerives(w.store, pid, k) else KeySynced(w.store, w.routes, k))
  {
    var s, p := w.store, w.store.projects[pid].(domains := domains);
    if n :| Addressed(s, pid) && Serves(AppsOf(s, pid), domains, n, k) {
      OfferedIsSynced(w, pid, domains, w', n, k);
    } else {
      UpdateLeaves(w, pid, domains, w', k);
      DerivedByOthers(s, p, k);
      if !OwnedBy(s, k, pid) {
        DerivedByOthersAlready(s, pid, k);
      }
    }
  }

  /** A domain update changes no key of any other project. */
  lemma DomainUpdateIsLocal(w: World, pid: string, domains: seq<string>, w': World, q: string, k: string)
    requires StoreInv(w.store) && pid in w.store.projects && DoUpdateDomains(w, pid, domains, w')
    requires NoCollision(w.store) && NoCollision(w'.store)
    requires q != pid && OwnedBy(w'.store, k, q)
    ensures (k in w'.routes <==> k in w.routes) && (k in w.routes ==> w'.routes[k] == w.routes[k])
  {
    OthersOwnBoth(w.store, w.store.projects[pid].(domains := domains), k, q);
    OthersUntouched(w, pid, domains, w', k);
  }

  // ---------------------------------------------------------------- single apps

  /** A deployed app is reachable under every domain of its project, at the route the store derives. */
  lemma DeployedAppIsRouted(w: World, pid: string, n: string, image: string, k: string)
    requires WorldInv(w) && pid in w.store.projects && n in AppsOf(w.store, pid)
    requires var a := AppsOf(w.store, pid)[n]; Available(a) && a.ports != [] && (a.image != "" || image != "" || a.mode == "process")
    requires k in Keys(Hostname(AppsOf(w.store, pid)[n]), w.store.projects[pid].domains)
    requires forall id :: IsInstanceOf(w.store, pid, id) ==> w.store.instances[id].ip != ""
    requires InstanceOf(w.store, pid).Some?
    ensures
      var w' := DoDeployApp(w, pid, n, image, true);
      k in w'.routes && DerivedRoute(w'.store, k, w'.routes[k])
  {
    assert HasApp(w.store.apps, pid, n);
    var id :| IsInstanceOf(w.store, pid, id) && w.store.instances[id] == InstanceOf(w.store, pid).value;
    var w' := DoDeployApp(w, pid, n, image, true);
    DeployAppKeeps(w, pid, n, image, true);
    LookupsDetermined(w'.store, "", pid, id);
    assert Serves(AppsOf(w'.store, pid), w'.store.projects[pid].domains, n, k);
    ServedIsDerived(w'.store, pid, n, k);
  }

  /** Reconciling an app that has just been changed leaves no key of its former hostname behind
      unless the app still has it, and binds every key the store derives for the app. */
  lemma ChangedAppIsRerouted(s: Store, routes: Table, pid: string, a: App, former: string, k: string)
    requires pid in s.projects && s.projects[pid].id == pid && HasApp(s.apps, pid, a.name) && s.apps[pid][a.name] == a
    requires InstanceOf(s, pid).Some? && InstanceOf(s, pid).value.ip != ""
    ensures
      var p := s.projects[pid];
      var after := Reconcile(s, routes, p, a, former);
      && (Serves(AppsOf(s, pid), p.domains, a.name, k) ==> k in after && DerivedRoute(s, k, after[k]))
      && (k in Keys(former, p.domains) ==> (k in after <==> Serves(AppsOf(s, pid), p.domains, a.name, k)))
  {
    if Serves(AppsOf(s, pid), s.projects[pid].domains, a.name, k) {
      ServedIsDerived(s, pid, a.name, k);
    }
  }
}
