/**
 When an import is accepted and when it is committed, in terms of the configuration and of the
 names already stored, and the routes of the imported hosts.
 */
module ImportRoutes {
  import opened Wrappers
  import opened Text
  import opened Records
  import opened Model
  import opened Store
  import opened Importer
  import opened ImportSound
  import opened ImportLinks

  // ---------------------------------------------------------------- demands of a configuration

  lemma {:induction false} PathDemandsMembers(path: seq<string>, d: Demand)
    ensures d in PathDemands(path) <==> exists k :: 0 < k < |path| && path[k] == d.host && path[k - 1] == d.via
  {
    if |path| >= 2 {
      var n := |path| - 1;
      PathDemandsMembers(path[..n], d);
      if d in PathDemands(path[..n]) {
        var k :| 0 < k < n && path[..n][k] == d.host && path[..n][k - 1] == d.via;
        assert path[k] == d.host && path[k - 1] == d.via;
      }
      if d == Demand(path[n], path[n - 1]) {
        assert path[n] == d.host;
      }
      if k :| 0 < k < |path| && path[k] == d.host && path[k - 1] == d.via {
        assert k < n ==> path[..n][k] == d.host && path[..n][k - 1] == d.via;
      }
    }
  }

  lemma {:induction false} DemandsMembers(cands: seq<Candidate>, chosen: set<string>, d: Demand)
    ensures d in Demands(cands, chosen) <==> exists c <- Picks(cands, chosen) :: d in PathDemands(Path(c))
  {
    hide PathDemands, Path;
    if cands != [] {
      var n := |cands| - 1;
      DemandsMembers(cands[..n], chosen, d);
      if cands[n].alias in chosen {
        assert cands[n] in Picks(cands, chosen);
      }
      assert forall c :: c in Picks(cands[..n], chosen) ==> c in Picks(cands, chosen);
    }
  }

  /** Every hop of a chosen candidate is a stored host or chosen too. */
  predicate HopsRegistered(hosts: seq<Host>, picks: seq<Candidate>) {
    forall c <- picks, hop <- c.jumps :: Has(hosts, HostName, hop) || Has(picks, Alias, hop)
  }

  /** If the host of a demand is stored, it is stored with the demanded predecessor. */
  predicate StoredLink(hosts: seq<Host>, d: Demand) {
    match Find(hosts, HostName, d.host)
    case None => true
    case Some(h) => Has(hosts, HostName, d.via) && h.jumpId == IdOf(hosts, d.via)
  }

  predicate StoredLinks(hosts: seq<Host>, ds: seq<Demand>) {
    forall d <- ds :: StoredLink(hosts, d)
  }

  /** Demands only talk about registered names. */
  lemma DemandNames(hosts: seq<Host>, cands: seq<Candidate>, chosen: set<string>, d: Demand)
    requires HopsRegistered(hosts, Picks(cands, chosen)) && d in Demands(cands, chosen)
    ensures Has(hosts, HostName, d.host) || Has(Picks(cands, chosen), Alias, d.host)
    ensures Has(hosts, HostName, d.via) || Has(Picks(cands, chosen), Alias, d.via)
  {
    hide Has, IndexOf, PathDemands, Demands, Picks;
    DemandsMembers(cands, chosen, d);
    var c :| c in Picks(cands, chosen) && d in PathDemands(Path(c));
    PathDemandsMembers(Path(c), d);
    var k :| 0 < k < |Path(c)| && Path(c)[k] == d.host && Path(c)[k - 1] == d.via;
    assert d.via in c.jumps;
    HasMember(Picks(cands, chosen), Alias, c);
    assert k < |c.jumps| ==> d.host in c.jumps;
  }

  // ---------------------------------------------------------------- the state before links

  lemma ExtendedDistinct(s: State, t: State, picks: seq<Candidate>, files: Files)
    requires Extended(s, t, picks, files)
    ensures Distinct(t.hosts) && |s.hosts| <= |t.hosts|
    ensures forall i :: |s.hosts| <= i < |t.hosts| ==> t.hosts[i].jumpId == ""
    ensures forall i :: 0 <= i < |s.hosts| ==> t.hosts[i] == s.hosts[i]
  {
    hide WellFormed;
    forall i | |s.hosts| <= i < |t.hosts| ensures t.hosts[i].jumpId == "" {
      assert MadeFrom(t.hosts[|s.hosts| + (i - |s.hosts|)], picks[i - |s.hosts|], t.keys, files);
    }
    assert WellFormed(t) ==> Unique(t.hosts, HostId) && NonEmptyIds(t.hosts, HostId) by {
      hide *;
      WellFormedHosts(t);
    }
  }

  lemma WellFormedHosts(s: State)
    ensures WellFormed(s) ==> Unique(s.hosts, HostId) && NonEmptyIds(s.hosts, HostId)
  {
  }

  /** Names that were stored keep their host. */
  lemma StoredName(s: State, t: State, picks: seq<Candidate>, files: Files, name: string)
    requires Extended(s, t, picks, files)
    ensures Has(s.hosts, HostName, name) ==> Find(t.hosts, HostName, name) == Find(s.hosts, HostName, name)
    ensures Has(s.hosts, HostName, name) ==> IndexOf(t.hosts, HostName, name) == IndexOf(s.hosts, HostName, name) < |s.hosts|
    ensures !Has(s.hosts, HostName, name) ==> IndexOf(t.hosts, HostName, name) >= |s.hosts|
  {
    assert t.hosts == s.hosts + t.hosts[|s.hosts|..];
    IndexOfAppend(s.hosts, t.hosts[|s.hosts|..], HostName, name);
  }

  lemma DistinctPrefix(s: State, t: State, picks: seq<Candidate>, files: Files)
    requires Extended(s, t, picks, files)
    ensures Distinct(s.hosts)
  {
    ExtendedDistinct(s, t, picks, files);
    hide Extended;
    forall i, j | 0 <= i < j < |s.hosts|
      ensures s.hosts[i].id != s.hosts[j].id && s.hosts[i].name != s.hosts[j].name
    {
      assert HostId(t.hosts[i]) != HostId(t.hosts[j]) && HostName(t.hosts[i]) != HostName(t.hosts[j]);
    }
    assert forall i :: 0 <= i < |s.hosts| ==> HostId(t.hosts[i]) != "";
  }

  lemma StoredId(s: State, t: State, picks: seq<Candidate>, files: Files, name: string)
    requires Extended(s, t, picks, files)
    ensures Has(s.hosts, HostName, name) ==> IdOf(t.hosts, name) == IdOf(s.hosts, name)
    ensures !Has(s.hosts, HostName, name) ==> !Has(s.hosts, HostId, IdOf(t.hosts, name))
  {
    StoredName(s, t, picks, files, name);
    ExtendedDistinct(s, t, picks, files);
    DistinctPrefix(s, t, picks, files);
    IdOfName(t.hosts, name);
    IdOfName(s.hosts, name);
    hide IdOf, IndexOf;
    if Has(s.hosts, HostId, IdOf(t.hosts, name)) {
      var i := IndexOf(s.hosts, HostId, IdOf(t.hosts, name));
      assert t.hosts[i] == s.hosts[i];
      NonEmptyAt(t.hosts, HostId, i);
      FindAt(t.hosts, HostId, i);
      IndexOfAt(s.hosts, HostName, i);
    }
  }

  lemma NonEmptyAt<T>(xs: seq<T>, id: T -> string, i: nat)
    requires NonEmptyIds(xs, id) && i < |xs|
    ensures id(xs[i]) != ""
  {
  }

  /** Every stored jump resolves to a stored host. */
  ghost predicate JumpsResolve(hosts: seq<Host>) {
    forall i :: 0 <= i < |hosts| ==> hosts[i].jumpId == "" || Has(hosts, HostId, hosts[i].jumpId)
  }

  lemma ValidJumps(s: State)
    requires Valid(s) && WellFormed(s)
    ensures JumpsResolve(s.hosts)
  {
    ValidResolves(s);
    hide Valid;
  }

  /** A demand on a stored host holds in the extended state exactly when it held in the stored one. */
  lemma StandingStored(s: State, t: State, picks: seq<Candidate>, files: Files, d: Demand)
    requires Extended(s, t, picks, files) && JumpsResolve(s.hosts) && Has(t.hosts, HostName, d.via)
    ensures Standing(t.hosts, |s.hosts|, d) <==> StoredLink(s.hosts, d)
  {
    StoredName(s, t, picks, files, d.host);
    StoredId(s, t, picks, files, d.via);
    ExtendedDistinct(s, t, picks, files);
    IdOfName(t.hosts, d.via);
    hide IdOf, Extended, Distinct;
  }

  // ---------------------------------------------------------------- acceptance

  /** The first pass of an import succeeds and every name on a path is registered. */
  predicate Addable(s: State, cands: seq<Candidate>, chosen: set<string>, files: Files) {
    var picks := Picks(cands, chosen);
    && Unique(picks, Alias) && (forall c <- picks :: Importable(s.hosts, c, files))
    && AllFound(cands, chosen) && HopsRegistered(s.hosts, picks)
  }

  lemma HopsSame(s: State, t: State, cands: seq<Candidate>, chosen: set<string>, files: Files)
    requires Extended(s, t, Picks(cands, chosen), files)
    ensures HopsKnown(t.hosts, cands, chosen) <==> HopsRegistered(s.hosts, Picks(cands, chosen))
  {
    var picks := Picks(cands, chosen);
    PicksMembers(cands, chosen);
    ExtendedDistinct(s, t, picks, files);
    forall name ensures IdOf(t.hosts, name) != "" <==> Has(s.hosts, HostName, name) || Has(picks, Alias, name) {
      KnownName(t.hosts, name);
      ExtendedNames(s, t, picks, files, name);
    }
    hide IdOf, Has, Extended, Picks, Distinct;
    assert HopsKnown(t.hosts, cands, chosen) <==> forall c <- picks, hop <- c.jumps :: IdOf(t.hosts, hop) != "";
  }

  lemma DemandsNamed(s: State, t: State, cands: seq<Candidate>, chosen: set<string>, files: Files)
    requires Extended(s, t, Picks(cands, chosen), files) && HopsRegistered(s.hosts, Picks(cands, chosen))
    ensures Named(t.hosts, Demands(cands, chosen))
  {
    hide Has, Extended, Demands, Picks, HopsRegistered;
    forall d | d in Demands(cands, chosen) ensures Has(t.hosts, HostName, d.host) && Has(t.hosts, HostName, d.via) {
      DemandNames(s.hosts, cands, chosen, d);
      ExtendedNames(s, t, Picks(cands, chosen), files, d.host);
      ExtendedNames(s, t, Picks(cands, chosen), files, d.via);
    }
  }

  lemma AllStandingStored(s: State, t: State, picks: seq<Candidate>, files: Files, ds: seq<Demand>)
    requires Extended(s, t, picks, files) && JumpsResolve(s.hosts) && Named(t.hosts, ds)
    ensures AllStanding(t.hosts, |s.hosts|, ds) <==> StoredLinks(s.hosts, ds)
  {
    hide Has, IndexOf, Extended, Standing, StoredLink, JumpsResolve;
    forall d | d in ds ensures Standing(t.hosts, |s.hosts|, d) <==> StoredLink(s.hosts, d) {
      StandingStored(s, t, picks, files, d);
    }
  }

  lemma ValidNames(s: State)
    requires Valid(s)
    ensures Unique(s.hosts, HostName)
  {
  }

  lemma KnownAll(s: State, t: State, newIds: seq<string>, n: nat)
    requires n <= |newIds| && Known(s, t, newIds[..n])
    ensures Known(s, t, newIds)
  {
    assert newIds == newIds[..n] + newIds[n..];
    KnownMore(s, t, newIds[..n], newIds[n..]);
  }

  /** An import is accepted exactly when its candidates can be added, every hop is registered, no
      two lists ask for different predecessors and stored hosts already have theirs. The result is
      the extended state with exactly the demanded links. */
  lemma ImportAccepted(s: State, cands: seq<Candidate>, chosen: set<string>, files: Files, newIds: seq<string>)
    requires Valid(s) && WellFormed(s) && 2 * |cands| <= |newIds| && Fresh(s, newIds)
    ensures var ds, r := Demands(cands, chosen), ApplySelected(s, cands, chosen, files, newIds);
      r.Ok? <==> Addable(s, cands, chosen, files) && Consistent(ds) && StoredLinks(s.hosts, ds)
    ensures var r := ApplySelected(s, cands, chosen, files, newIds);
      r.Ok? ==>
        && var t := AddAll(s, cands, chosen, files, newIds);
        && t.Ok? && Extended(s, t.value, Picks(cands, chosen), files) && Paths(s, t.value, Picks(cands, chosen), files)
        && Known(s, t.value, newIds)
        && r.value == t.value.(hosts := r.value.hosts)
        && Named(t.value.hosts, Demands(cands, chosen))
        && Linked(t.value.hosts, |s.hosts|, Demands(cands, chosen), r.value.hosts)
  {
    ValidNames(s);
    ValidJumps(s);
    AddAllExact(s, cands, chosen, files, newIds);
    hide Valid, WellFormed, Unique, Importable, Extended, Paths, Known, Fresh, AddAll, LinkAll, HopsKnown, HopsRegistered,
      AllFound, Consistent, StoredLinks, AllStanding, Named, Linked, Demands, Picks, JumpsResolve, Distinct;
    var picks, ds, t := Picks(cands, chosen), Demands(cands, chosen), AddAll(s, cands, chosen, files, newIds);
    if t.Ok? {
      KnownAll(s, t.value, newIds, 2 * |cands|);
      HopsSame(s, t.value, cands, chosen, files);
      if HopsRegistered(s.hosts, picks) {
        ExtendedDistinct(s, t.value, picks, files);
        DemandsNamed(s, t.value, cands, chosen, files);
        LinkAllExact(t.value.hosts, |s.hosts|, ds);
        AllStandingStored(s, t.value, picks, files, ds);
      }
    }
  }

  // ---------------------------------------------------------------- routes

  /** Every host of a path after the first is linked to the one before it. */
  ghost predicate Follows(hosts: seq<Host>, path: seq<string>) {
    && (forall k :: 0 <= k < |path| ==> Has(hosts, HostName, path[k]))
    && (forall k :: 0 < k < |path| ==> Find(hosts, HostName, path[k]).value.jumpId == IdOf(hosts, path[k - 1]))
  }

  /** The names of the last hosts of a route. */
  ghost predicate EndsWith(route: seq<Host>, path: seq<string>) {
    |path| <= |route| && forall k :: 0 <= k < |path| ==> route[|route| - |path| + k].name == path[k]
  }

  lemma FollowsLink(hosts: seq<Host>, path: seq<string>, h: Host, k: nat)
    requires Distinct(hosts) && Follows(hosts, path) && k < |path|
    requires Find(hosts, HostId, h.id) == Some(h) && h.id == IdOf(hosts, path[k])
    ensures h.name == path[k] && h == Find(hosts, HostName, path[k]).value
    ensures k > 0 ==> h.jumpId == IdOf(hosts, path[k - 1]) && h.jumpId != ""
  {
    IdOfName(hosts, path[k]);
    if k > 0 {
      IdOfName(hosts, path[k - 1]);
    }
    hide IdOf, IndexOf;
  }

  lemma RouteAt(hosts: seq<Host>, id: string, route: seq<Host>, m: nat)
    requires IsRoute(hosts, id, route) && m < |route|
    ensures route[m].id != "" && Find(hosts, HostId, route[m].id) == Some(route[m])
    ensures m > 0 <==> route[m].jumpId != ""
    ensures m > 0 ==> route[m].jumpId == route[m - 1].id
    ensures route[|route| - 1].id == id
  {
    hide IndexOf;
    assert m > 0 ==> route[m - 1].id != "";
  }

  lemma RouteOf(hosts: seq<Host>, id: string, route: seq<Host>)
    requires IsRoute(hosts, id, route)
    ensures route == [] <==> id == ""
  {
  }

  /** The route of the last host of a path passes the whole path. */
  lemma {:induction false} RouteFollows(hosts: seq<Host>, path: seq<string>, route: seq<Host>, n: nat)
    requires Distinct(hosts) && Follows(hosts, path) && 0 < n <= |path|
    requires IsRoute(hosts, IdOf(hosts, path[|path| - 1]), route)
    ensures n <= |route| && route[|route| - n].id == IdOf(hosts, path[|path| - n])
    ensures forall k :: |path| - n <= k < |path| ==> route[|route| - |path| + k].name == path[k]
  {
    hide *;
    var id := IdOf(hosts, path[|path| - 1]);
    FollowsHas(hosts, path, |path| - 1);
    IdOfName(hosts, path[|path| - 1]);
    RouteOf(hosts, id, route);
    if n > 1 {
      RouteFollows(hosts, path, route, n - 1);
      RouteAt(hosts, id, route, |route| - (n - 1));
      FollowsLink(hosts, path, route[|route| - (n - 1)], |path| - (n - 1));
    }
    RouteAt(hosts, id, route, |route| - n);
    FollowsLink(hosts, path, route[|route| - n], |path| - n);
  }

  lemma FollowsHas(hosts: seq<Host>, path: seq<string>, k: nat)
    requires Follows(hosts, path) && k < |path|
    ensures Has(hosts, HostName, path[k])
  {
  }

  lemma RouteEnds(hosts: seq<Host>, path: seq<string>, route: seq<Host>)
    requires Distinct(hosts) && Follows(hosts, path) && path != []
    requires IsRoute(hosts, IdOf(hosts, path[|path| - 1]), route)
    ensures EndsWith(route, path)
    ensures |route| == |path| <==> Find(hosts, HostName, path[0]).value.jumpId == ""
  {
    RouteFollows(hosts, path, route, |path|);
    var m := |route| - |path|;
    RouteAt(hosts, IdOf(hosts, path[|path| - 1]), route, m);
    FollowsLink(hosts, path, route[m], 0);
    hide IdOf, IndexOf, Distinct, Follows, IsRoute;
  }

  /** Linking realises every demand. */
  lemma LinkedHolds(t: seq<Host>, base: nat, ds: seq<Demand>, r: seq<Host>, d: Demand)
    requires Distinct(t) && Linked(t, base, ds, r) && Named(t, ds) && d in ds
    requires Consistent(ds) && AllStanding(t, base, ds)
    ensures Has(r, HostName, d.host) && Find(r, HostName, d.host).value.jumpId == IdOf(r, d.via)
    ensures Has(r, HostName, d.via)
  {
    var i := IndexOf(t, HostName, d.host);
    LinkedSame(t, base, ds, r);
    SameNames(t, r, d.via);
    SameKeysIndex(t, r, d.host);
    SameKeysIndex(t, r, d.via);
    ViaOfMember(ds, d.host);
    assert Standing(t, base, d);
    hide IdOf, IndexOf;
    assert r[i] == t[i].(jumpId := LinkFor(t, base, ds, i));
  }

  lemma PathFollows(r: seq<Host>, ds: seq<Demand>, path: seq<string>)
    requires path != [] && Has(r, HostName, path[0])
    requires forall d <- PathDemands(path) :: d in ds
    requires forall d <- ds :: Has(r, HostName, d.host) && Find(r, HostName, d.host).value.jumpId == IdOf(r, d.via)
    ensures Follows(r, path)
  {
    hide IndexOf, IdOf, PathDemands;
    forall k | 0 < k < |path|
      ensures Has(r, HostName, path[k]) && Find(r, HostName, path[k]).value.jumpId == IdOf(r, path[k - 1])
    {
      var d := Demand(path[k], path[k - 1]);
      PathDemandsMembers(path, d);
      assert d in ds;
    }
  }

  /** The result of an accepted import can be looked up by name and by identifier. */
  lemma ImportedDistinct(s: State, cands: seq<Candidate>, chosen: set<string>, files: Files, newIds: seq<string>)
    requires Valid(s) && WellFormed(s) && 2 * |cands| <= |newIds| && Fresh(s, newIds)
    requires ApplySelected(s, cands, chosen, files, newIds).Ok?
    ensures Distinct(ApplySelected(s, cands, chosen, files, newIds).value.hosts)
  {
    ImportAccepted(s, cands, chosen, files, newIds);
    var picks, ds, t := Picks(cands, chosen), Demands(cands, chosen), AddAll(s, cands, chosen, files, newIds).value;
    var r := ApplySelected(s, cands, chosen, files, newIds).value;
    hide ApplySelected, Valid, WellFormed, Fresh, Extended, Linked;
    ExtendedDistinct(s, t, picks, files);
    LinkedSame(t.hosts, |s.hosts|, ds, r.hosts);
    DistinctSame(t.hosts, r.hosts);
  }

  lemma ImportedFollows(s: State, cands: seq<Candidate>, chosen: set<string>, files: Files, newIds: seq<string>, c: Candidate)
    requires Valid(s) && WellFormed(s) && 2 * |cands| <= |newIds| && Fresh(s, newIds)
    requires ApplySelected(s, cands, chosen, files, newIds).Ok? && c in Picks(cands, chosen)
    ensures Follows(ApplySelected(s, cands, chosen, files, newIds).value.hosts, Path(c))
  {
    ImportAccepted(s, cands, chosen, files, newIds);
    ValidJumps(s);
    var picks, ds, t := Picks(cands, chosen), Demands(cands, chosen), AddAll(s, cands, chosen, files, newIds).value;
    var r := ApplySelected(s, cands, chosen, files, newIds).value;
    hide ApplySelected, Valid, WellFormed, Fresh, Extended, Linked, Has, IndexOf, IdOf, Demands, Picks, PathDemands,
      JumpsResolve, Distinct, Consistent, AllStanding, StoredLinks, Named;
    ExtendedDistinct(s, t, picks, files);
    AllStandingStored(s, t, picks, files, ds);
    forall d | d in ds ensures Has(r.hosts, HostName, d.host) && Find(r.hosts, HostName, d.host).value.jumpId == IdOf(r.hosts, d.via) {
      LinkedHolds(t.hosts, |s.hosts|, ds, r.hosts, d);
    }
    forall d | d in PathDemands(Path(c)) ensures d in ds {
      DemandsMembers(cands, chosen, d);
    }
    LinkedSame(t.hosts, |s.hosts|, ds, r.hosts);
    var first := Path(c)[0];
    SameKeysIndex(t.hosts, r.hosts, first);
    ExtendedNames(s, t, picks, files, first);
    HasMember(picks, Alias, c);
    assert Has(t.hosts, HostName, first) by {
      assert c.jumps != [] ==> c.jumps[0] in c.jumps;
    }
    assert Has(r.hosts, HostName, first) by { HasSameNames(t.hosts, r.hosts, first); }
    PathFollows(r.hosts, ds, Path(c));
  }

  lemma HasSameNames(a: seq<Host>, b: seq<Host>, name: string)
    requires SameButLinks(a, b)
    ensures Has(a, HostName, name) <==> Has(b, HostName, name)
  {
    SameKeysIndex(a, b, name);
  }

  /** Routes are realised: after a committed import the route of every chosen host ends with its
      ProxyJump list and the host itself; it is exactly that list unless the first hop is itself
      reached through another host. */
  lemma RoutesRealised(s: State, cands: seq<Candidate>, chosen: set<string>, files: Files, newIds: seq<string>, c: Candidate)
    requires Valid(s) && WellFormed(s) && 2 * |cands| <= |newIds| && Fresh(s, newIds)
    requires ApplySelected(s, cands, chosen, files, newIds).Ok? && c in cands && c.alias in chosen
    requires Valid(ApplySelected(s, cands, chosen, files, newIds).value)
    ensures var r := ApplySelected(s, cands, chosen, files, newIds).value;
      && IdOf(r.hosts, c.alias) != ""
      && var route := Route(r.hosts, IdOf(r.hosts, c.alias));
      && route.Some? && EndsWith(route.value, Path(c))
      && Has(r.hosts, HostName, Path(c)[0])
      && (|route.value| == |Path(c)| <==> Find(r.hosts, HostName, Path(c)[0]).value.jumpId == "")
  {
    PicksMembers(cands, chosen);
    ImportedFollows(s, cands, chosen, files, newIds, c);
    ImportedDistinct(s, cands, chosen, files, newIds);
    var r := ApplySelected(s, cands, chosen, files, newIds).value;
    hide ApplySelected, Fresh, Distinct, Follows, Walk, IndexOf, IdOf, WellFormed, Route;
    FollowsHas(r.hosts, Path(c), |c.jumps|);
    FollowsHas(r.hosts, Path(c), 0);
    IdOfName(r.hosts, c.alias);
    var h := Find(r.hosts, HostName, c.alias).value;
    assert HostOk(r.keys, r.hosts, h);
    RouteExact(r.hosts, h.id, Route(r.hosts, h.id).value);
    RouteEnds(r.hosts, Path(c), Route(r.hosts, h.id).value);
  }
}
