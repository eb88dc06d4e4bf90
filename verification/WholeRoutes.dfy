/**
 When an import realises a ProxyJump list as the whole route of a host, decided before the import.
 */
module WholeRoutes {
  import opened Wrappers
  import opened Text
  import opened Records
  import opened Model
  import opened Store
  import opened Importer
  import opened ImportSound
  import opened ImportLinks
  import opened ImportRoutes
  import opened ImportCommits

  lemma NamesOfValid(s: State)
    requires Valid(s)
    ensures forall i :: 0 <= i < |s.hosts| ==> s.hosts[i].name != ""
  {
    hide Address, Avoids, Route, Has;
    forall i | 0 <= i < |s.hosts| ensures s.hosts[i].name != "" {
      assert s.hosts[i] in s.hosts;
      assert HostOk(s.keys, s.hosts, s.hosts[i]);
    }
  }

  lemma SameHostNames(a: seq<Host>, b: seq<Host>)
    requires SameButLinks(a, b) && forall i :: 0 <= i < |b| ==> b[i].name != ""
    ensures forall i :: 0 <= i < |a| ==> a[i].name != ""
  {
    assert forall i :: 0 <= i < |a| ==> a[i].name == b[i].name;
  }

  /** After an import a host is direct exactly when nothing is upstream of its name before. */
  lemma DirectAfter(s: State, cands: seq<Candidate>, chosen: set<string>, files: Files, newIds: seq<string>, name: string)
    requires Valid(s) && WellFormed(s) && 2 * |cands| <= |newIds| && Fresh(s, newIds)
    requires ApplySelected(s, cands, chosen, files, newIds).Ok?
    requires var r := ApplySelected(s, cands, chosen, files, newIds).value; Valid(r) && Has(r.hosts, HostName, name)
    ensures var r := ApplySelected(s, cands, chosen, files, newIds).value;
      Find(r.hosts, HostName, name).value.jumpId == "" <==> Upstream(s.hosts, Demands(cands, chosen), name) == ""
  {
    ImportAccepted(s, cands, chosen, files, newIds);
    ValidJumps(s);
    var picks, ds, t := Picks(cands, chosen), Demands(cands, chosen), AddAll(s, cands, chosen, files, newIds).value;
    var r := ApplySelected(s, cands, chosen, files, newIds).value;
    NamesOfValid(r);
    LinkedSame(t.hosts, |s.hosts|, ds, r.hosts);
    hide *;
    SameHostNames(t.hosts, r.hosts);
    ImportedReads(s, t, picks, files, ds, r.hosts);
    ReadsDirect(r.hosts, s.hosts, ds, name);
  }

  lemma ReadsDirect(r: seq<Host>, hosts: seq<Host>, ds: seq<Demand>, name: string)
    requires ReadsAs(r, hosts, ds) && Has(r, HostName, name)
    ensures Find(r, HostName, name).value.jumpId == "" <==> Upstream(hosts, ds, name) == ""
  {
    hide Upstream;
    var h := r[IndexOf(r, HostName, name)];
    assert Upstream(hosts, ds, h.name) == NameOf(r, h.jumpId);
  }

  /** Routes are realised: the route of a chosen host of a committed import ends with its ProxyJump
      list and itself, and is exactly that exactly when no stored link and no chosen list puts a host
      before the first hop. */
  lemma WholeRouteExact(s: State, cands: seq<Candidate>, chosen: set<string>, files: Files, newIds: seq<string>, c: Candidate)
    requires Valid(s) && WellFormed(s) && 2 * |cands| <= |newIds| && Fresh(s, newIds)
    requires Committable(s, cands, chosen, files) && c in cands && c.alias in chosen
    ensures ApplySelected(s, cands, chosen, files, newIds).Ok?
    ensures var r := ApplySelected(s, cands, chosen, files, newIds).value;
      var route := Route(r.hosts, IdOf(r.hosts, c.alias));
      && Valid(r) && route.Some? && EndsWith(route.value, Path(c))
      && (|route.value| == |Path(c)| <==> Upstream(s.hosts, Demands(cands, chosen), Path(c)[0]) == "")
  {
    assert 0 < |Path(c)|;
    hide *;
    CommitExact(s, cands, chosen, files, newIds);
    RoutesRealised(s, cands, chosen, files, newIds, c);
    DirectAfter(s, cands, chosen, files, newIds, Path(c)[0]);
  }

  // ---------------------------------------------------------------- a list that is not the whole route

  /** Three hosts to be imported: `a` through `b`, and `b` through `c`. */
  ghost predicate Relayed(a: Candidate, b: Candidate, c: Candidate, files: Files) {
    && a.alias != b.alias && b.alias != c.alias && a.alias != c.alias
    && a.jumps == [b.alias] && b.jumps == [c.alias] && c.jumps == []
    && forall d <- [a, b, c] ::
         && d.valid && Shape(d) && ByteLen(d.alias) <= LABEL_ROOM
         && files.path(d.identityFile).Some? && files.path(d.identityFile).value != ""
         && files.usable(files.path(d.identityFile).value)
  }

  lemma RelayPicks(a: Candidate, b: Candidate, c: Candidate)
    ensures Picks([a, b, c], {a.alias, b.alias, c.alias}) == [a, b, c]
  {
    var chosen := {a.alias, b.alias, c.alias};
    assert [a][..0] == [] && [a, b][..1] == [a] && [a, b, c][..2] == [a, b];
    assert Picks([a], chosen) == [a] && Picks([a, b], chosen) == [a, b];
  }

  lemma RelayDemands(a: Candidate, b: Candidate, c: Candidate)
    requires a.jumps == [b.alias] && b.jumps == [c.alias] && c.jumps == []
    ensures Demands([a, b, c], {a.alias, b.alias, c.alias}) == [Demand(a.alias, b.alias), Demand(b.alias, c.alias)]
  {
    var chosen := {a.alias, b.alias, c.alias};
    assert [a][..0] == [] && [a, b][..1] == [a] && [a, b, c][..2] == [a, b];
    OneHop(b.alias, a.alias);
    OneHop(c.alias, b.alias);
    assert PathDemands([c.alias]) == [];
    assert Demands([a], chosen) == [Demand(a.alias, b.alias)];
    assert Demands([a, b], chosen) == [Demand(a.alias, b.alias), Demand(b.alias, c.alias)];
  }

  lemma OneHop(via: string, host: string)
    ensures PathDemands([via] + [host]) == [Demand(host, via)]
  {
    var path := [via, host];
    assert path[..1] == [via] && PathDemands(path[..1]) == [];
    assert [via] + [host] == path;
  }

  lemma RelayUpstream(a: string, b: string, c: string)
    requires a != b && b != c && a != c && a != "" && b != "" && c != ""
    ensures var ds := [Demand(a, b), Demand(b, c)];
      && Upstream([], ds, a) == b && Upstream([], ds, b) == c && Upstream([], ds, c) == ""
      && Reaches([], ds, a, MAX_HOPS) && Reaches([], ds, b, MAX_HOPS) && Reaches([], ds, c, MAX_HOPS)
  {
    var ds := [Demand(a, b), Demand(b, c)];
    assert ds[..1] == [Demand(a, b)] && ds[..1][..0] == [];
    assert ViaOf(ds, a) == ViaOf(ds[..1], a) == Some(b);
    assert ViaOf(ds, b) == Some(c);
    assert ViaOf(ds, c) == ViaOf(ds[..1], c) == ViaOf([], c) == None;
    hide Upstream;
    assert Reaches([], ds, "", 13);
    assert Reaches([], ds, c, 14) && Reaches([], ds, c, 15) && Reaches([], ds, c, 16) by { assert Reaches([], ds, "", 14) && Reaches([], ds, "", 15); }
    assert Reaches([], ds, b, 15) && Reaches([], ds, b, 16);
  }

  lemma {:induction false} ShortLabelsFit(picks: seq<Candidate>, files: Files)
    requires forall d <- picks :: Shape(d) && ByteLen(d.alias) <= LABEL_ROOM
    requires forall d <- picks :: files.path(d.identityFile).Some? && files.path(d.identityFile).value != ""
    ensures LabelsFit([], picks, files)
  {
    hide Shape, ByteLen, ValidKey, Has;
    if picks != [] {
      ShortLabelsFit(picks[..|picks| - 1], files);
      var c := picks[|picks| - 1];
      ShortLabel(c, files.path(c.identityFile).value);
    }
  }

  lemma RelayUnique(a: Candidate, b: Candidate, c: Candidate)
    requires a.alias != b.alias && b.alias != c.alias && a.alias != c.alias
    ensures Unique([a, b, c], Alias)
  {
  }

  lemma RelayFound(cands: seq<Candidate>, a: Candidate, b: Candidate, c: Candidate)
    requires a in cands && b in cands && c in cands
    ensures Has(cands, Alias, a.alias) && Has(cands, Alias, b.alias) && Has(cands, Alias, c.alias)
    ensures AllFound(cands, {a.alias, b.alias, c.alias})
  {
    hide Has;
    HasMember(cands, Alias, a);
    HasMember(cands, Alias, b);
    HasMember(cands, Alias, c);
  }

  lemma RelayHops(a: Candidate, b: Candidate, c: Candidate)
    requires a.jumps == [b.alias] && b.jumps == [c.alias] && c.jumps == []
    ensures HopsRegistered([], [a, b, c])
  {
    RelayFound([a, b, c], a, b, c);
    hide Has;
  }

  lemma RelayImportable(a: Candidate, b: Candidate, c: Candidate, files: Files)
    requires Relayed(a, b, c, files)
    ensures forall d <- [a, b, c] :: Importable([], d, files)
  {
    NothingStored();
    hide Shape, ByteLen, Has;
  }

  lemma RelayAddable(a: Candidate, b: Candidate, c: Candidate, files: Files)
    requires Relayed(a, b, c, files)
    ensures Addable(EMPTY, [a, b, c], {a.alias, b.alias, c.alias}, files)
  {
    assert EMPTY.hosts == [];
    RelayPicks(a, b, c);
    RelayUnique(a, b, c);
    RelayFound([a, b, c], a, b, c);
    RelayHops(a, b, c);
    RelayImportable(a, b, c, files);
    hide Relayed, Importable, Picks, AllFound, HopsRegistered, Unique, Has, EMPTY;
  }

  lemma NothingStored()
    ensures forall name :: !Has(EMPTY.hosts, HostName, name)
  {
  }

  lemma RelayLinks(a: string, b: string, c: string)
    requires a != b
    ensures var ds := [Demand(a, b), Demand(b, c)]; Consistent(ds) && StoredLinks(EMPTY.hosts, ds)
  {
    NothingStored();
    hide Has;
  }

  lemma RelayEnds(a: Candidate, b: Candidate, c: Candidate, files: Files)
    requires Relayed(a, b, c, files)
    ensures forall d <- [a, b, c] :: Shape(d) && Reaches([], [Demand(a.alias, b.alias), Demand(b.alias, c.alias)], d.alias, MAX_HOPS)
  {
    assert a in [a, b, c] && b in [a, b, c] && c in [a, b, c];
    hide Shape, ByteLen, Reaches, Upstream;
    ShapeNamed(a);
    ShapeNamed(b);
    ShapeNamed(c);
    RelayUpstream(a.alias, b.alias, c.alias);
  }

  lemma RelayCommits(a: Candidate, b: Candidate, c: Candidate, files: Files)
    requires Relayed(a, b, c, files)
    ensures Committable(EMPTY, [a, b, c], {a.alias, b.alias, c.alias}, files)
  {
    assert EMPTY.hosts == [] && EMPTY.keys == [];
    RelayPicks(a, b, c);
    RelayDemands(a, b, c);
    RelayAddable(a, b, c, files);
    RelayLinks(a.alias, b.alias, c.alias);
    RelayEnds(a, b, c, files);
    assert LabelsFit([], [a, b, c], files) by { hide Shape, LabelsFit; ShortLabelsFit([a, b, c], files); }
    hide Relayed, Shape, LabelsFit, Reaches, Demands, Picks, Addable, Consistent, StoredLinks, EMPTY;
  }

  lemma ShapeNamed(c: Candidate)
    requires Shape(c)
    ensures c.alias != ""
  {
    hide Address, Avoids;
  }

  lemma EmptyStored()
    ensures EMPTY.hosts == [] && Valid(EMPTY) && WellFormed(EMPTY)
  {
  }

  /** The list of `a` names one hop, but its route has another host before it. */
  lemma LongerRoute(a: Candidate, b: Candidate, c: Candidate, files: Files, newIds: seq<string>)
    requires Relayed(a, b, c, files) && 6 <= |newIds| && Fresh(EMPTY, newIds)
    ensures var r := ApplySelected(EMPTY, [a, b, c], {a.alias, b.alias, c.alias}, files, newIds);
      && r.Ok? && Valid(r.value)
      && var route := Route(r.value.hosts, IdOf(r.value.hosts, a.alias));
      route.Some? && EndsWith(route.value, [b.alias, a.alias]) && |route.value| > 2
  {
    assert Path(a) == [b.alias, a.alias] && a in [a, b, c] && b in [a, b, c] && c in [a, b, c];
    hide Valid, WellFormed, Fresh, Committable, ApplySelected, Route, IdOf, Upstream, Demands, Reaches, Shape, ByteLen, EMPTY;
    RelayDemands(a, b, c);
    ShapeNamed(a);
    ShapeNamed(b);
    ShapeNamed(c);
    RelayUpstream(a.alias, b.alias, c.alias);
    RelayCommits(a, b, c, files);
    EmptyStored();
    WholeRouteExact(EMPTY, [a, b, c], {a.alias, b.alias, c.alias}, files, newIds, a);
  }
}
