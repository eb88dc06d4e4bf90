/**
 Exporting a configuration, parsing the text and importing every exported host into an empty store
 rebuilds the hosts in order: same address, port and user name, same jump links, same key sharing.
 */
module RoundTrip {
  import opened Wrappers
  import opened Text
  import opened Records
  import opened M = Model
  import opened Store
  import opened Importer
  import opened ImportSound
  import opened ImportLinks
  import opened ImportRoutes
  import opened ImportCommits
  import opened Parser
  import opened MacExport
  import opened Blocks
  import opened ExportLines
  import opened ExportText
  import opened ExportParse

  /** The recipient has a usable file for every exported key, one each. */
  ghost predicate KeysPlaced(s: State, tag: string, files: Files) {
    && (forall i :: 0 <= i < |s.keys| ==>
          var path := files.path(KeyFile(tag, KeyName(i)));
          path.Some? && path.value != "" && files.usable(path.value))
    && (forall i, j :: 0 <= i < j < |s.keys| ==> files.path(KeyFile(tag, KeyName(i))) != files.path(KeyFile(tag, KeyName(j))))
  }

  ghost function HostAliases(s: State, tag: string): set<string> { set i: nat | i < |s.hosts| :: HostAlias(tag, i) }

  /** The parsed hosts of the export. */
  ghost predicate FromExport(s: State, tag: string, cands: seq<Candidate>) {
    && TunnelsPlaced(s) && |cands| == |s.hosts| + |s.tunnels|
    && forall i :: 0 <= i < |cands| ==> cands[i] == ExpectedAt(s, tag, i)
  }

  /** The parsed hosts have the aliases of the export. */
  ghost predicate Aliased(s: State, tag: string, cands: seq<Candidate>) {
    |cands| == |s.hosts| + |s.tunnels| && forall i :: 0 <= i < |cands| ==> cands[i].alias == AliasNo(s, tag, i)
  }

  lemma FromAliased(s: State, tag: string, cands: seq<Candidate>)
    requires FromExport(s, tag, cands)
    ensures Aliased(s, tag, cands)
  {
    hide TunnelsPlaced, AliasNo, BlockHost, FileOf, HopsOf;
  }

  lemma CandAlias(s: State, tag: string, cands: seq<Candidate>, i: nat)
    requires Aliased(s, tag, cands) && i < |cands|
    ensures cands[i].alias == AliasNo(s, tag, i)
    ensures cands[i].alias in HostAliases(s, tag) <==> i < |s.hosts|
  {
    hide HostAlias, TunnelAlias;
    if i >= |s.hosts| && cands[i].alias in HostAliases(s, tag) {
      var j: nat :| j < |s.hosts| && HostAlias(tag, j) == cands[i].alias;
      AliasKindsDiffer(tag, j, i - |s.hosts|);
    }
  }

  lemma PicksStep(cands: seq<Candidate>, chosen: set<string>, m: nat)
    requires 0 < m <= |cands|
    ensures Picks(cands[..m], chosen) == Picks(cands[..m - 1], chosen) + if cands[m - 1].alias in chosen then [cands[m - 1]] else []
  {
    assert cands[..m][..m - 1] == cands[..m - 1];
  }

  lemma PicksNone(chosen: set<string>)
    ensures Picks([], chosen) == []
  {
  }

  lemma TakeStep(cands: seq<Candidate>, m: nat)
    requires 0 < m <= |cands|
    ensures cands[..m - 1] + [cands[m - 1]] == cands[..m]
  {
  }

  /** The exported hosts are chosen, the tunnels are not. */
  lemma {:induction false} PicksHosts(s: State, tag: string, cands: seq<Candidate>, m: nat)
    requires Aliased(s, tag, cands) && m <= |cands| && |s.hosts| <= |cands|
    ensures m <= |s.hosts| ==> Picks(cands[..m], HostAliases(s, tag)) == cands[..m]
    ensures m >= |s.hosts| ==> Picks(cands[..m], HostAliases(s, tag)) == cands[..|s.hosts|]
  {
    hide *;
    if m == 0 {
      PicksNone(HostAliases(s, tag));
      assert cands[..0] == [];
    } else {
      PicksHosts(s, tag, cands, m - 1);
      CandAlias(s, tag, cands, m - 1);
      PicksStep(cands, HostAliases(s, tag), m);
      TakeStep(cands, m);
    }
  }

  lemma PicksAliased(s: State, tag: string, cands: seq<Candidate>)
    requires Aliased(s, tag, cands)
    ensures Picks(cands, HostAliases(s, tag)) == cands[..|s.hosts|]
  {
    hide AliasNo;
    PicksHosts(s, tag, cands, |cands|);
    assert cands[..|cands|] == cands;
  }

  lemma PicksExported(s: State, tag: string, cands: seq<Candidate>)
    requires FromExport(s, tag, cands)
    ensures Picks(cands, HostAliases(s, tag)) == cands[..|s.hosts|]
  {
    hide *;
    FromAliased(s, tag, cands);
    PicksAliased(s, tag, cands);
  }

  /** The candidate of an exported host. */
  lemma CandHost(s: State, tag: string, cands: seq<Candidate>, i: nat)
    requires FromExport(s, tag, cands) && i < |s.hosts|
    ensures cands[i] == BackAs(s, tag, s.hosts[i], HostAlias(tag, i))
  {
    hide HostAlias, BackAs, TunnelsPlaced;
  }

  // ---------------------------------------------------------------- demands

  /** Position of the host a host is reached through. */
  function JumpIndex(s: State, h: M.Host): nat { IndexOf(s.hosts, HostId, h.jumpId) }

  /** The path of an exported host lists the aliases of its route. */
  lemma PathRoute(s: State, tag: string, printable: Printable, cands: seq<Candidate>, i: nat)
    requires Exportable(s, tag, printable) && FromExport(s, tag, cands) && i < |s.hosts|
    ensures |Path(cands[i])| == |StoredRoute(s, s.hosts[i])|
    ensures forall k :: 0 <= k < |StoredRoute(s, s.hosts[i])| ==> Path(cands[i])[k] == AliasOf(s, tag, StoredRoute(s, s.hosts[i])[k].id)
  {
    hide Exportable, FromExport, AliasOf, HostAlias, FileOf, Unique, Writable;
    var h := s.hosts[i];
    CandHost(s, tag, cands, i);
    HostReady(s, tag, printable, h);
    ExportIds(s, tag, printable);
    AliasAt(s, tag, i);
    hide Valid, StoredRoute, M.Walk, IndexOf;
    var route := StoredRoute(s, h);
    assert HopsOf(s, tag, h) == HopAliases(s, tag, route[..|route| - 1]);
    assert route[|route| - 1].id == h.id;
  }

  lemma RouteMember(s: State, tag: string, printable: Printable, h: M.Host, k: nat)
    requires Exportable(s, tag, printable) && h in s.hosts && k < |StoredRoute(s, h)|
    ensures var g := StoredRoute(s, h)[k];
      && IndexOf(s.hosts, HostId, g.id) < |s.hosts| && s.hosts[IndexOf(s.hosts, HostId, g.id)] == g
      && AliasOf(s, tag, g.id) == HostAlias(tag, IndexOf(s.hosts, HostId, g.id))
      && (k == 0 ==> g.jumpId == "")
      && (k > 0 ==> g.jumpId != "" && g.jumpId == StoredRoute(s, h)[k - 1].id)
  {
    RouteAlias(s, tag, printable, h, k);
    HostReady(s, tag, printable, h);
    hide Exportable, AliasOf, HostAlias, Writable, StoredRoute;
    RouteAt(s.hosts, h.id, StoredRoute(s, h), k);
    hide M.IsRoute, AliasWord;
  }

  /** Every demand of the export is the jump link of a host. */
  lemma DemandIsJump(s: State, tag: string, printable: Printable, cands: seq<Candidate>, d: Demand) returns (i: nat)
    requires Exportable(s, tag, printable) && FromExport(s, tag, cands) && d in Demands(cands, HostAliases(s, tag))
    ensures i < |s.hosts| && s.hosts[i].jumpId != "" && d == Demand(HostAlias(tag, i), HostAlias(tag, JumpIndex(s, s.hosts[i])))
  {
    hide Exportable, FromExport, AliasOf, HostAlias, Demands, PathDemands, Path, StoredRoute, Picks, HostAliases;
    DemandsMembers(cands, HostAliases(s, tag), d);
    PicksExported(s, tag, cands);
    var c :| c in Picks(cands, HostAliases(s, tag)) && d in PathDemands(Path(c));
    FromSize(s, tag, cands);
    var m: nat :| m < |s.hosts| && cands[m] == c;
    PathRoute(s, tag, printable, cands, m);
    PathDemandsMembers(Path(c), d);
    var k: nat :| 0 < k < |Path(c)| && Path(c)[k] == d.host && Path(c)[k - 1] == d.via;
    RouteMember(s, tag, printable, s.hosts[m], k);
    RouteMember(s, tag, printable, s.hosts[m], k - 1);
    i := IndexOf(s.hosts, HostId, StoredRoute(s, s.hosts[m])[k].id);
  }

  lemma FromSize(s: State, tag: string, cands: seq<Candidate>)
    requires FromExport(s, tag, cands)
    ensures |cands| >= |s.hosts|
  {
    hide ExpectedAt, TunnelsPlaced;
  }

  /** Every jump link is demanded. */
  lemma JumpIsDemand(s: State, tag: string, printable: Printable, cands: seq<Candidate>, i: nat)
    requires Exportable(s, tag, printable) && FromExport(s, tag, cands) && i < |s.hosts| && s.hosts[i].jumpId != ""
    ensures JumpIndex(s, s.hosts[i]) < |s.hosts|
    ensures Demand(HostAlias(tag, i), HostAlias(tag, JumpIndex(s, s.hosts[i]))) in Demands(cands, HostAliases(s, tag))
  {
    hide Exportable, FromExport, AliasOf, HostAlias, Demands, PathDemands, Path, StoredRoute, Picks, HostAliases, Unique, Writable;
    var h := s.hosts[i];
    var d := Demand(HostAlias(tag, i), HostAlias(tag, JumpIndex(s, h)));
    HostReady(s, tag, printable, h);
    ExportIds(s, tag, printable);
    hide Valid;
    PathRoute(s, tag, printable, cands, i);
    FromSize(s, tag, cands);
    var n := |StoredRoute(s, h)| - 1;
    RouteLast(s.hosts, h.id, StoredRoute(s, h));
    FindAt(s.hosts, HostId, i);
    RouteMember(s, tag, printable, h, n);
    assert n > 0;
    RouteMember(s, tag, printable, h, n - 1);
    PathDemandsMembers(Path(cands[i]), d);
    PicksExported(s, tag, cands);
    DemandsMembers(cands, HostAliases(s, tag), d);
    assert cands[i] in cands[..|s.hosts|];
  }

  lemma RouteLast(hosts: seq<M.Host>, id: string, route: seq<M.Host>)
    requires M.IsRoute(hosts, id, route) && route != []
    ensures route[|route| - 1].id == id
  {
    hide IndexOf;
  }

  // ---------------------------------------------------------------- the import

  lemma EmptyKnown()
    ensures Valid(EMPTY) && WellFormed(EMPTY)
    ensures forall name :: !Has(EMPTY.hosts, HostName, name)
  {
  }

  lemma AliasChosen(s: State, tag: string, cands: seq<Candidate>, i: nat)
    requires FromExport(s, tag, cands) && i < |s.hosts|
    ensures Has(cands[..|s.hosts|], Alias, HostAlias(tag, i))
  {
    hide HostAlias, FromExport;
    FromSize(s, tag, cands);
    CandHost(s, tag, cands, i);
    assert cands[..|s.hosts|][i] == cands[i];
    HasMember(cands[..|s.hosts|], Alias, cands[i]);
  }

  /** The exported hosts can all be added to an empty store. */
  lemma ExportAddable(s: State, tag: string, printable: Printable, cands: seq<Candidate>, files: Files)
    requires Exportable(s, tag, printable) && FromExport(s, tag, cands) && KeysPlaced(s, tag, files)
    ensures Addable(EMPTY, cands, HostAliases(s, tag), files)
    ensures forall c <- Picks(cands, HostAliases(s, tag)) :: Shape(c)
  {
    hide Exportable, FromExport, KeysPlaced, Has, HostAlias, Shape, FileOf, KeyFile;
    PicksExported(s, tag, cands);
    FromSize(s, tag, cands);
    EmptyKnown();
    var picks := cands[..|s.hosts|];
    forall i, j | 0 <= i < j < |picks| ensures Alias(picks[i]) != Alias(picks[j]) {
      CandHost(s, tag, cands, i);
      CandHost(s, tag, cands, j);
      if HostAlias(tag, i) == HostAlias(tag, j) { HostAliasInjective(tag, i, j); }
    }
    forall c | c in picks
      ensures Importable(EMPTY.hosts, c, files) && Shape(c)
      ensures forall hop <- c.jumps :: Has(picks, Alias, hop)
    {
      var i: nat :| i < |s.hosts| && picks[i] == c;
      CandHost(s, tag, cands, i);
      HostPlaced(s, tag, printable, files, i);
      HostShaped(s, tag, printable, i);
      forall hop | hop in c.jumps ensures Has(picks, Alias, hop) {
        HopChosen(s, tag, printable, cands, i, hop);
      }
    }
    forall a | a in HostAliases(s, tag) ensures Has(cands, Alias, a) {
      var i: nat :| i < |s.hosts| && a == HostAlias(tag, i);
      CandHost(s, tag, cands, i);
      HasMember(cands, Alias, cands[i]);
    }
  }

  lemma HostPlaced(s: State, tag: string, printable: Printable, files: Files, i: nat)
    requires Exportable(s, tag, printable) && KeysPlaced(s, tag, files) && i < |s.hosts|
    ensures var path := files.path(FileOf(s, tag, s.hosts[i])); path.Some? && path.value != "" && files.usable(path.value)
    ensures KeyIndex(s, s.hosts[i]) < |s.keys|
  {
    hide Exportable, KeyFile, KeyName, Writable;
    HostReady(s, tag, printable, s.hosts[i]);
    hide M.IsRoute, StoredRoute;
  }

  lemma HostShaped(s: State, tag: string, printable: Printable, i: nat)
    requires Exportable(s, tag, printable) && i < |s.hosts|
    ensures Shape(BackAs(s, tag, s.hosts[i], HostAlias(tag, i))) && ByteLen(HostAlias(tag, i)) <= LABEL_ROOM
  {
    hide Exportable, FileOf, HopsOf, HostAlias, M.IsRoute, StoredRoute, Address, Ip6, AllLegible, Writable, Has, Tag, PrintsAscii;
    HostReady(s, tag, printable, s.hosts[i]);
    ExportSize(s, tag, printable);
    ExportIds(s, tag, printable);
    hide Valid, Unique;
    AliasShape(tag, i);
    AliasName(HostAlias(tag, i));
    hide AliasWord, ByteLen, Avoids, Blank;
  }

  lemma AliasName(a: string)
    requires AliasWord(a) && |a| <= 100
    ensures Name(a) && ByteLen(a) <= LABEL_ROOM
  {
    AliasBytes(a);
    forall i | 0 <= i < |a| ensures a[i] !in "\0\r\n" && !IsSpace(a[i]) {
      assert AliasChar(a[i]);
    }
    assert AliasChar(a[0]);
  }

  lemma AliasBytes(a: string)
    requires AliasWord(a)
    ensures ByteLen(a) == |a|
  {
    if |a| > 1 {
      assert forall i :: 0 <= i < |a[1..]| ==> a[1..][i] == a[i + 1];
      AliasBytes(a[1..]);
    }
    assert AliasChar(a[0]);
  }

  lemma HopChosen(s: State, tag: string, printable: Printable, cands: seq<Candidate>, i: nat, hop: string)
    requires Exportable(s, tag, printable) && FromExport(s, tag, cands) && i < |s.hosts| && hop in cands[i].jumps
    ensures Has(cands[..|s.hosts|], Alias, hop)
  {
    hide Exportable, FromExport, Has, HostAlias, AliasOf, StoredRoute, FileOf;
    FromSize(s, tag, cands);
    CandHost(s, tag, cands, i);
    PathRoute(s, tag, printable, cands, i);
    var k: nat :| k < |cands[i].jumps| && cands[i].jumps[k] == hop;
    assert Path(cands[i])[k] == hop;
    RouteMember(s, tag, printable, s.hosts[i], k);
    AliasChosen(s, tag, cands, IndexOf(s.hosts, HostId, StoredRoute(s, s.hosts[i])[k].id));
  }

  /** The predecessor demanded of an exported host is the one it is stored with. */
  lemma ExportedVia(s: State, tag: string, printable: Printable, cands: seq<Candidate>, i: nat)
    requires Exportable(s, tag, printable) && FromExport(s, tag, cands) && i < |s.hosts|
    ensures ViaOf(Demands(cands, HostAliases(s, tag)), HostAlias(tag, i)) ==
      if s.hosts[i].jumpId == "" then None else Some(HostAlias(tag, JumpIndex(s, s.hosts[i])))
    ensures s.hosts[i].jumpId != "" ==> JumpIndex(s, s.hosts[i]) < |s.hosts|
  {
    hide *;
    var ds, a := Demands(cands, HostAliases(s, tag)), HostAlias(tag, i);
    ViaOfMember(ds, a);
    if ViaOf(ds, a).Some? {
      var j := DemandIsJump(s, tag, printable, cands, Demand(a, ViaOf(ds, a).value));
      HostAliasInjective(tag, i, j);
    }
    if s.hosts[i].jumpId != "" {
      JumpIsDemand(s, tag, printable, cands, i);
    }
  }

  lemma ExportConsistent(s: State, tag: string, printable: Printable, cands: seq<Candidate>)
    requires Exportable(s, tag, printable) && FromExport(s, tag, cands)
    ensures Consistent(Demands(cands, HostAliases(s, tag)))
    ensures StoredLinks(EMPTY.hosts, Demands(cands, HostAliases(s, tag)))
  {
    hide Exportable, FromExport, Demands, HostAlias, HostAliases, JumpIndex;
    var ds := Demands(cands, HostAliases(s, tag));
    forall d, e | d in ds && e in ds && d.host == e.host ensures d.via == e.via {
      var i := DemandIsJump(s, tag, printable, cands, d);
      var j := DemandIsJump(s, tag, printable, cands, e);
      HostAliasInjective(tag, i, j);
    }
    forall d | d in ds ensures StoredLink(EMPTY.hosts, d) {
      NothingFound(d.host);
    }
  }

  lemma NothingFound(name: string)
    ensures Find(EMPTY.hosts, HostName, name).None?
  {
  }

  /** Following the demands from a host of a route ends at the start of the route. */
  lemma {:induction false} ExportReaches(s: State, tag: string, printable: Printable, cands: seq<Candidate>, i: nat, k: nat, fuel: nat)
    requires Exportable(s, tag, printable) && FromExport(s, tag, cands) && i < |s.hosts|
    requires k < |StoredRoute(s, s.hosts[i])| && k < fuel
    ensures Reaches(EMPTY.hosts, Demands(cands, HostAliases(s, tag)), AliasOf(s, tag, StoredRoute(s, s.hosts[i])[k].id), fuel)
    decreases k
  {
    hide Exportable, FromExport, Demands, HostAlias, HostAliases, AliasOf, StoredRoute, ViaOf, IndexOf;
    var ds, route := Demands(cands, HostAliases(s, tag)), StoredRoute(s, s.hosts[i]);
    RouteMember(s, tag, printable, s.hosts[i], k);
    var m := IndexOf(s.hosts, HostId, route[k].id);
    ExportedVia(s, tag, printable, cands, m);
    NothingFound(HostAlias(tag, m));
    assert Upstream(EMPTY.hosts, ds, HostAlias(tag, m)) == ViaOf(ds, HostAlias(tag, m)).UnwrapOr("");
    if k > 0 {
      RouteMember(s, tag, printable, s.hosts[i], k - 1);
      ExportReaches(s, tag, printable, cands, i, k - 1, fuel - 1);
      assert HostAlias(tag, JumpIndex(s, route[k])) == AliasOf(s, tag, route[k - 1].id);
    }
    ReachesStep(EMPTY.hosts, ds, HostAlias(tag, m), fuel);
  }

  lemma ReachesStep(hosts: seq<M.Host>, ds: seq<Demand>, name: string, fuel: nat)
    requires fuel > 0
    ensures Upstream(hosts, ds, name) == "" ==> Reaches(hosts, ds, name, fuel)
    ensures Reaches(hosts, ds, Upstream(hosts, ds, name), fuel - 1) ==> Reaches(hosts, ds, name, fuel)
  {
    hide Upstream;
  }

  lemma ExportRoutes(s: State, tag: string, printable: Printable, cands: seq<Candidate>, i: nat)
    requires Exportable(s, tag, printable) && FromExport(s, tag, cands) && i < |s.hosts|
    ensures Reaches(EMPTY.hosts, Demands(cands, HostAliases(s, tag)), HostAlias(tag, i), M.MAX_HOPS)
  {
    hide Exportable, FromExport, Demands, HostAlias, HostAliases, AliasOf, StoredRoute, Reaches, Unique, Writable;
    var h := s.hosts[i];
    HostReady(s, tag, printable, h);
    ExportIds(s, tag, printable);
    hide Valid;
    RouteLast(s.hosts, h.id, StoredRoute(s, h));
    AliasAt(s, tag, i);
    ExportReaches(s, tag, printable, cands, i, |StoredRoute(s, h)| - 1, M.MAX_HOPS);
  }

  lemma {:induction false} AllLabels(picks: seq<Candidate>, files: Files)
    requires forall c <- picks :: Shape(c) && ByteLen(c.alias) <= LABEL_ROOM
    requires forall c <- picks :: files.path(c.identityFile).Some? && files.path(c.identityFile).value != ""
    ensures LabelsFit([], picks, files)
  {
    hide Shape, ValidKey, ByteLen, PathUsed;
    if picks != [] {
      var c := picks[|picks| - 1];
      assert c in picks && forall d <- picks[..|picks| - 1] :: d in picks;
      AllLabels(picks[..|picks| - 1], files);
      ShortLabel(c, files.path(c.identityFile).value);
    }
  }

  lemma ExportLabels(s: State, tag: string, printable: Printable, cands: seq<Candidate>, files: Files)
    requires Exportable(s, tag, printable) && FromExport(s, tag, cands) && KeysPlaced(s, tag, files)
    ensures LabelsFit(EMPTY.keys, Picks(cands, HostAliases(s, tag)), files)
  {
    hide Exportable, FromExport, KeysPlaced, HostAlias, Shape, FileOf, LabelsFit, ByteLen, HopsOf;
    PicksExported(s, tag, cands);
    FromSize(s, tag, cands);
    var picks := cands[..|s.hosts|];
    forall c | c in picks
      ensures Shape(c) && ByteLen(c.alias) <= LABEL_ROOM
      ensures files.path(c.identityFile).Some? && files.path(c.identityFile).value != ""
    {
      var i: nat :| i < |s.hosts| && picks[i] == c;
      CandHost(s, tag, cands, i);
      HostPlaced(s, tag, printable, files, i);
      HostShaped(s, tag, printable, i);
    }
    AllLabels(picks, files);
  }

  lemma ExportCommittable(s: State, tag: string, printable: Printable, cands: seq<Candidate>, files: Files)
    requires Exportable(s, tag, printable) && FromExport(s, tag, cands) && KeysPlaced(s, tag, files)
    ensures Committable(EMPTY, cands, HostAliases(s, tag), files)
  {
    hide Exportable, FromExport, KeysPlaced, HostAlias, Shape, FileOf, LabelsFit, Demands, HostAliases, Addable, Consistent, StoredLinks, Reaches, Picks, HopsOf;
    ExportAddable(s, tag, printable, cands, files);
    ExportConsistent(s, tag, printable, cands);
    ExportLabels(s, tag, printable, cands, files);
    PicksExported(s, tag, cands);
    FromSize(s, tag, cands);
    forall c | c in Picks(cands, HostAliases(s, tag))
      ensures Reaches(EMPTY.hosts, Demands(cands, HostAliases(s, tag)), c.alias, M.MAX_HOPS)
    {
      var i: nat :| i < |s.hosts| && cands[i] == c;
      CandHost(s, tag, cands, i);
      ExportRoutes(s, tag, printable, cands, i);
    }
  }

  // ---------------------------------------------------------------- what was rebuilt

  /** The jump links connect the same positions. */
  ghost predicate SameJumps(a: seq<M.Host>, b: seq<M.Host>)
    requires |a| == |b|
  {
    && (forall i :: 0 <= i < |a| ==> (b[i].jumpId == "" <==> a[i].jumpId == ""))
    && (forall i, j :: 0 <= i < |a| && 0 <= j < |a| ==> (b[i].jumpId == b[j].id <==> a[i].jumpId == a[j].id))
  }

  /** Two hosts share a key exactly when they did. */
  ghost predicate SameSharing(a: seq<M.Host>, b: seq<M.Host>)
    requires |a| == |b|
  {
    forall i, j :: 0 <= i < |a| && 0 <= j < |a| ==> (b[i].keyId == b[j].keyId <==> a[i].keyId == a[j].keyId)
  }

  /** Same address, port and user name under the exported alias, with the recipient's key file. */
  ghost predicate SameHost(s: State, tag: string, files: Files, r: State, i: nat)
    requires i < |s.hosts| && i < |r.hosts|
  {
    var h := r.hosts[i];
    && h.name == HostAlias(tag, i) && h.address == s.hosts[i].address && h.port == s.hosts[i].port && h.username == s.hosts[i].username
    && Has(r.keys, KeyId, h.keyId)
    && files.path(FileOf(s, tag, s.hosts[i])) == Some(Find(r.keys, KeyId, h.keyId).value.path)
  }

  /** `r` holds the hosts of `s`, in order. */
  ghost predicate Rebuilt(s: State, tag: string, files: Files, r: State) {
    && r == EMPTY.(keys := r.keys, hosts := r.hosts) && |r.hosts| == |s.hosts|
    && (forall i: nat :: i < |s.hosts| ==> SameHost(s, tag, files, r, i))
    && SameJumps(s.hosts, r.hosts) && SameSharing(s.hosts, r.hosts)
  }

  /** One rebuilt host. */
  ghost predicate HostBack(s: State, tag: string, files: Files, t: State, r: seq<M.Host>, i: nat)
    requires i < |s.hosts| && |r| == |s.hosts|
  {
    var h := r[i];
    && h.name == HostAlias(tag, i) && h.address == s.hosts[i].address && h.port == s.hosts[i].port && h.username == s.hosts[i].username
    && Has(t.keys, KeyId, h.keyId)
    && files.path(FileOf(s, tag, s.hosts[i])) == Some(Find(t.keys, KeyId, h.keyId).value.path)
    && (s.hosts[i].jumpId == "" ==> h.jumpId == "")
    && (s.hosts[i].jumpId != "" ==> JumpIndex(s, s.hosts[i]) < |s.hosts| && h.jumpId == r[JumpIndex(s, s.hosts[i])].id)
  }

  lemma NameIndex(t: seq<M.Host>, i: nat)
    requires Distinct(t) && i < |t|
    ensures IdOf(t, t[i].name) == t[i].id && t[i].id != ""
  {
    FindAt(t, HostName, i);
    IdOfName(t, t[i].name);
    hide IdOf, IndexOf;
    assert HostId(t[i]) != "";
  }

  lemma OneBack(s: State, tag: string, printable: Printable, cands: seq<Candidate>, files: Files, t: State, r: seq<M.Host>, i: nat)
    requires Exportable(s, tag, printable) && FromExport(s, tag, cands) && i < |s.hosts|
    requires Distinct(t.hosts) && |r| == |s.hosts| == |t.hosts|
    requires forall k: nat :: k < |s.hosts| ==> t.hosts[k].name == HostAlias(tag, k) && r[k].id == t.hosts[k].id
    requires MadeFrom(t.hosts[i], BackAs(s, tag, s.hosts[i], HostAlias(tag, i)), t.keys, files)
    requires r[i] == t.hosts[i].(jumpId := LinkFor(t.hosts, 0, Demands(cands, HostAliases(s, tag)), i))
    ensures HostBack(s, tag, files, t, r, i)
  {
    hide Exportable, FromExport, Distinct, HostAlias, Demands, HostAliases, FileOf, Has, Find, JumpIndex, HopsOf, IdOf, ViaOf;
    ExportedVia(s, tag, printable, cands, i);
    if s.hosts[i].jumpId != "" {
      NameIndex(t.hosts, JumpIndex(s, s.hosts[i]));
    }
  }

  lemma MadeBack(s: State, tag: string, cands: seq<Candidate>, files: Files, t: State, i: nat)
    requires FromExport(s, tag, cands) && |s.hosts| <= |cands| && Extended(EMPTY, t, cands[..|s.hosts|], files) && i < |s.hosts|
    ensures |t.hosts| == |s.hosts| && t.hosts[i].name == HostAlias(tag, i)
    ensures MadeFrom(t.hosts[i], BackAs(s, tag, s.hosts[i], HostAlias(tag, i)), t.keys, files)
  {
    hide FromExport, HostAlias, FileOf, Has, Find, WellFormed, Unique, OncePerPath, HopsOf;
    CandHost(s, tag, cands, i);
    assert MadeFrom(t.hosts[|EMPTY.hosts| + i], cands[..|s.hosts|][i], t.keys, files);
  }

  lemma LinkedAt(t: seq<M.Host>, ds: seq<Demand>, r: seq<M.Host>, i: nat)
    requires Linked(t, 0, ds, r) && i < |t|
    ensures |r| == |t| && r[i] == t[i].(jumpId := LinkFor(t, 0, ds, i))
  {
    hide LinkFor;
  }

  lemma ExtendedSize(t: State, picks: seq<Candidate>, files: Files)
    requires Extended(EMPTY, t, picks, files)
    ensures |t.hosts| == |picks|
  {
    hide WellFormed, OncePerPath, Unique;
  }

  lemma HostsBack(s: State, tag: string, printable: Printable, cands: seq<Candidate>, files: Files, t: State, r: seq<M.Host>)
    requires Exportable(s, tag, printable) && FromExport(s, tag, cands) && |s.hosts| <= |cands|
    requires Extended(EMPTY, t, cands[..|s.hosts|], files)
    requires Linked(t.hosts, 0, Demands(cands, HostAliases(s, tag)), r)
    ensures |r| == |s.hosts| == |t.hosts| && Distinct(t.hosts) && Distinct(r)
    ensures forall i: nat :: i < |s.hosts| ==> HostBack(s, tag, files, t, r, i)
  {
    hide *;
    var ds := Demands(cands, HostAliases(s, tag));
    ExtendedDistinct(EMPTY, t, cands[..|s.hosts|], files);
    ExtendedSize(t, cands[..|s.hosts|], files);
    LinkedSame(t.hosts, 0, ds, r);
    DistinctSame(t.hosts, r);
    SameSize(t.hosts, r);
    forall i: nat | i < |s.hosts|
      ensures t.hosts[i].name == HostAlias(tag, i) && MadeFrom(t.hosts[i], BackAs(s, tag, s.hosts[i], HostAlias(tag, i)), t.keys, files)
      ensures r[i] == t.hosts[i].(jumpId := LinkFor(t.hosts, 0, ds, i))
    {
      MadeBack(s, tag, cands, files, t, i);
      LinkedAt(t.hosts, ds, r, i);
    }
    forall i: nat | i < |s.hosts| ensures HostBack(s, tag, files, t, r, i) {
      OneBack(s, tag, printable, cands, files, t, r, i);
    }
  }

  lemma SameSize(a: seq<M.Host>, b: seq<M.Host>)
    requires SameButLinks(a, b)
    ensures |a| == |b|
  {
  }

  lemma KeyOfPath(keys: seq<M.Key>, a: string, b: string)
    requires OncePerPath(keys, 0) && Has(keys, KeyId, a) && Has(keys, KeyId, b)
    ensures Find(keys, KeyId, a).value.path == Find(keys, KeyId, b).value.path <==> a == b
  {
    var i, j := IndexOf(keys, KeyId, a), IndexOf(keys, KeyId, b);
    assert i < j ==> keys[i].path != keys[j].path;
    assert j < i ==> keys[j].path != keys[i].path;
  }

  lemma FileOfKey(s: State, tag: string, printable: Printable, files: Files, i: nat, j: nat)
    requires Exportable(s, tag, printable) && KeysPlaced(s, tag, files) && i < |s.hosts| && j < |s.hosts|
    ensures files.path(FileOf(s, tag, s.hosts[i])) == files.path(FileOf(s, tag, s.hosts[j])) <==> s.hosts[i].keyId == s.hosts[j].keyId
  {
    hide Exportable, KeyFile, KeyName;
    HostPlaced(s, tag, printable, files, i);
    HostPlaced(s, tag, printable, files, j);
    SameKeyIndex(s, s.hosts[i], s.hosts[j]);
    var a, b := KeyIndex(s, s.hosts[i]), KeyIndex(s, s.hosts[j]);
    hide KeyIndex;
    assert a < b ==> files.path(KeyFile(tag, KeyName(a))) != files.path(KeyFile(tag, KeyName(b)));
    assert b < a ==> files.path(KeyFile(tag, KeyName(b))) != files.path(KeyFile(tag, KeyName(a)));
  }

  lemma SameKeyIndex(s: State, g: M.Host, h: M.Host)
    requires KeyIndex(s, g) < |s.keys| && KeyIndex(s, h) < |s.keys|
    ensures KeyIndex(s, g) == KeyIndex(s, h) <==> g.keyId == h.keyId
  {
  }

  lemma JumpBack(s: State, tag: string, printable: Printable, files: Files, t: State, r: seq<M.Host>, i: nat, j: nat)
    requires Exportable(s, tag, printable) && |r| == |s.hosts| && Distinct(r) && i < |r| && j < |r|
    requires HostBack(s, tag, files, t, r, i)
    ensures r[i].jumpId == r[j].id <==> s.hosts[i].jumpId == s.hosts[j].id
    ensures r[i].jumpId == "" <==> s.hosts[i].jumpId == ""
  {
    hide Exportable, HostAlias, FileOf, Has, Find, Valid, Writable, M.IsRoute, StoredRoute, Tag, PrintsAscii, M.ValidHost, AllLegible;
    ExportIds(s, tag, printable);
    HostReady(s, tag, printable, s.hosts[j]);
    FindAt(s.hosts, HostId, j);
    assert HostId(r[j]) != "";
    if s.hosts[i].jumpId != "" {
      var k := JumpIndex(s, s.hosts[i]);
      assert HostId(r[k]) != "";
      assert k < j ==> HostId(r[k]) != HostId(r[j]);
      assert j < k ==> HostId(r[j]) != HostId(r[k]);
    }
  }

  // ---------------------------------------------------------------- sizes

  lemma RouteNonEmpty(s: State, h: M.Host)
    requires Valid(s) && WellFormed(s) && h in s.hosts
    ensures M.Route(s.hosts, h.id).Some? && M.Route(s.hosts, h.id).value != []
  {
    assert HostOk(s.keys, s.hosts, h);
    var i :| 0 <= i < |s.hosts| && s.hosts[i] == h;
    hide Valid, M.Route, IndexOf, M.ValidHost, Unique;
    M.RouteExact(s.hosts, h.id, M.Route(s.hosts, h.id).value);
    NonEmptyHost(s, i);
  }

  lemma HostBlocksExist(s: State, tag: string, printable: Printable, n: nat)
    requires Valid(s) && WellFormed(s) && n <= |s.hosts|
    ensures HostBlocks(s, tag, printable, n).Some? && |HostBlocks(s, tag, printable, n).value| >= n
  {
    hide Valid, WellFormed, M.Route, HostLines, AliasOf;
    if n > 0 {
      HostBlocksExist(s, tag, printable, n - 1);
      RouteNonEmpty(s, s.hosts[n - 1]);
    }
  }

  lemma TunnelBlocksExist(s: State, tag: string, printable: Printable, n: nat)
    requires Valid(s) && WellFormed(s) && n <= |s.tunnels|
    ensures TunnelBlocks(s, tag, printable, n).Some? && |TunnelBlocks(s, tag, printable, n).value| >= n
  {
    hide Valid, WellFormed, M.Route, HostLines, TunnelAlias, IndexOf, Setting;
    if n > 0 {
      TunnelBlocksExist(s, tag, printable, n - 1);
      TunnelReady(s, n - 1);
      RouteNonEmpty(s, TunnelHost(s, n - 1));
    }
  }

  lemma UnlinesCount(lines: seq<string>)
    ensures |Unlines(lines)| >= |lines|
  {
  }

  /** Exporting a valid state never fails, and the text has at least a line per host and tunnel. */
  lemma ExportExists(s: State, tag: string, printable: Printable)
    requires Valid(s) && WellFormed(s)
    ensures Exported(s, tag, printable).Ok? && |s.hosts| + |s.tunnels| <= ByteLen(Exported(s, tag, printable).value)
  {
    hide Valid, WellFormed, HostBlocks, TunnelBlocks, Unlines, ByteLen;
    MaskedValid(s);
    HostBlocksExist(s, tag, printable, |s.hosts|);
    TunnelBlocksExist(s, tag, printable, |s.tunnels|);
    UnlinesCount(ConfigLines(s, tag, printable).value);
  }

  lemma RouteOf(s: State, h: M.Host)
    requires Valid(s) && h in s.hosts
    ensures M.Route(s.hosts, h.id).Some? && (M.Route(s.hosts, h.id).value == [] <==> h.id == "")
  {
    assert HostOk(s.keys, s.hosts, h);
    hide Valid, M.Route, IndexOf, M.ValidHost, Unique;
    M.RouteExact(s.hosts, h.id, M.Route(s.hosts, h.id).value);
  }

  lemma HostBlocksExact(s: State, tag: string, printable: Printable, n: nat)
    requires Valid(Masked(s)) && n <= |s.hosts|
    ensures HostBlocks(s, tag, printable, n).Some? <==> forall i :: 0 <= i < n ==> s.hosts[i].id != ""
  {
    hide Valid, M.Route, HostLines, AliasOf;
    if n > 0 {
      HostBlocksExact(s, tag, printable, n - 1);
      RouteOf(Masked(s), s.hosts[n - 1]);
    }
  }

  lemma TunnelBlocksExact(s: State, tag: string, printable: Printable, n: nat)
    requires Valid(Masked(s)) && n <= |s.tunnels| && NonEmptyIds(s.hosts, HostId)
    ensures TunnelBlocks(s, tag, printable, n).Some?
  {
    hide Valid, M.Route, HostLines, TunnelAlias, IndexOf, Setting;
    if n > 0 {
      TunnelBlocksExact(s, tag, printable, n - 1);
      TunnelHostFound(Masked(s), s.tunnels[n - 1]);
      var h := Find(s.hosts, HostId, s.tunnels[n - 1].hostId).value;
      RouteOf(Masked(s), h);
    }
  }

  lemma TunnelHostFound(s: State, t: M.Tunnel)
    requires Valid(s) && t in s.tunnels && NonEmptyIds(s.hosts, HostId)
    ensures Has(s.hosts, HostId, t.hostId) && Find(s.hosts, HostId, t.hostId).value in s.hosts
    ensures Find(s.hosts, HostId, t.hostId).value.id != ""
  {
    assert TunnelOk(s.hosts, t) by { hide TunnelOk, HostOk, ServiceOk, M.ValidKey, Unique; }
    hide Valid, M.ValidTunnel;
    HasWitness(s.hosts, HostId, t.hostId);
    assert HostId(s.hosts[IndexOf(s.hosts, HostId, t.hostId)]) != "";
  }

  /** A configuration that passes the check is exported exactly when every host has an identifier. On
      a host without one, whose route is empty, the request is aborted. */
  lemma ExportExact(s: State, tag: string, printable: Printable)
    ensures Exported(s, tag, printable).Ok? <==> Valid(Masked(s)) && NonEmptyIds(s.hosts, HostId)
  {
    hide Valid, HostBlocks, TunnelBlocks, Unlines;
    if Valid(Masked(s)) {
      HostBlocksExact(s, tag, printable, |s.hosts|);
      if NonEmptyIds(s.hosts, HostId) { TunnelBlocksExact(s, tag, printable, |s.tunnels|); }
    }
  }

  /** Such a configuration that passes the check: one key and one host without identifier. */
  lemma NamelessNotExported(k: M.Key, h: M.Host, tag: string, printable: Printable)
    requires M.ValidKey(k) && M.ValidHost(h) && h.id == "" && h.keyId == k.id && h.jumpId != ""
    ensures var s := EMPTY.(keys := [k], hosts := [h]); Valid(s) && Exported(s, tag, printable).Err?
  {
    var s := EMPTY.(keys := [k], hosts := [h]);
    EmptyIdEscapesValidate(k, h);
    ExportExact(s, tag, printable);
    hide Valid, Exported, M.ValidKey, M.ValidHost;
    assert HostId(s.hosts[0]) == "";
  }

  /** What an export asks of the state: it is valid with unique, non-empty identifiers. */
  ghost predicate Sendable(s: State, tag: string, printable: Printable) {
    Valid(s) && WellFormed(s) && Tag(tag) && PrintsAscii(printable) && |s.keys| < MANY
  }

  /** Every user name is free of quotes, percent signs and unprintable characters. */
  predicate PlainUsers(s: State, printable: Printable) { forall h <- s.hosts :: PlainUser(printable, h.username) }

  lemma SendableExportable(s: State, tag: string, printable: Printable)
    requires Sendable(s, tag, printable)
    ensures Exported(s, tag, printable).Ok?
    ensures ByteLen(Exported(s, tag, printable).value) <= MAX_CONFIG ==> Exportable(s, tag, printable)
  {
    hide Valid, WellFormed, Exported, ByteLen;
    ExportExists(s, tag, printable);
  }

  lemma StoredUser(s: State, h: M.Host)
    requires Valid(s) && h in s.hosts
    ensures h.username != "" && '\\' !in h.username && NoBreak(h.username) && ByteLen(h.username) <= 160
  {
    assert HostOk(s.keys, s.hosts, h);
    hide Valid, M.ValidHost;
    ValidHostParts(h);
  }

  /** Plain user names are read as they are. */
  lemma PlainAll(s: State, printable: Printable)
    requires Valid(s) && PlainUsers(s, printable)
    ensures AllLegible(s, printable) && forall h <- s.hosts :: ReadUser(printable, h.username) == h.username
  {
    hide Valid, PlainUser, Legible, ReadUser;
    forall h | h in s.hosts ensures Legible(printable, h.username) && ReadUser(printable, h.username) == h.username {
      StoredUser(s, h);
      PlainLegible(printable, h.username);
    }
  }

  lemma ReadAsExpected(s: State, tag: string, printable: Printable, i: nat)
    requires TunnelsPlaced(s) && i < |s.hosts| + |s.tunnels|
    requires ReadUser(printable, BlockHost(s, i).username) == BlockHost(s, i).username
    ensures ReadAt(s, tag, printable, i) == ExpectedAt(s, tag, i)
  {
    hide TunnelsPlaced, BlockHost, AliasNo, FileOf, HopsOf, ReadUser;
  }

  lemma PlainExpected(s: State, tag: string, printable: Printable, cands: seq<Candidate>)
    requires Valid(s) && PlainUsers(s, printable) && TunnelsPlaced(s) && |cands| == |s.hosts| + |s.tunnels|
    requires forall i :: 0 <= i < |cands| ==> cands[i] == ReadAt(s, tag, printable, i)
    ensures FromExport(s, tag, cands)
  {
    PlainAll(s, printable);
    hide Valid, TunnelsPlaced, ExpectedAt, ReadAt, PlainUsers, AllLegible, ReadUser, BlockHost;
    forall i | 0 <= i < |cands| ensures cands[i] == ExpectedAt(s, tag, i) {
      BlockHostStored(s, i);
      ReadAsExpected(s, tag, printable, i);
    }
  }

  /** The round trip: if user names are plain, the exported text parses, and importing all its hosts
      into an empty store is committed and rebuilds them. */
  lemma ExportImport(s: State, tag: string, printable: Printable, classes: Classes, files: Files, newIds: seq<string>)
    requires Sendable(s, tag, printable) && PlainUsers(s, printable) && KeysPlaced(s, tag, files)
    requires Exported(s, tag, printable).Ok? ==> ByteLen(Exported(s, tag, printable).value) <= MAX_CONFIG
    requires 2 * (|s.hosts| + |s.tunnels|) <= |newIds| && Fresh(EMPTY, newIds)
    ensures Exported(s, tag, printable).Ok?
    ensures Parse(classes, Exported(s, tag, printable).value).Ok?
    ensures var cands := Parse(classes, Exported(s, tag, printable).value).value;
      && 2 * |cands| <= |newIds|
      && var r := ApplySelected(EMPTY, cands, HostAliases(s, tag), files, newIds);
      && r.Ok? && Valid(r.value) && Rebuilt(s, tag, files, r.value)
  {
    hide *;
    SendableExportable(s, tag, printable);
    ExportIds(s, tag, printable);
    PlainAll(s, printable);
    ExportParses(s, tag, printable, classes);
    var cands := Parse(classes, Exported(s, tag, printable).value).value;
    PlainExpected(s, tag, printable, cands);
    ImportBack(s, tag, printable, cands, files, newIds);
  }

  lemma ImportBack(s: State, tag: string, printable: Printable, cands: seq<Candidate>, files: Files, newIds: seq<string>)
    requires Exportable(s, tag, printable) && FromExport(s, tag, cands) && KeysPlaced(s, tag, files)
    requires 2 * |cands| <= |newIds| && Fresh(EMPTY, newIds)
    ensures var r := ApplySelected(EMPTY, cands, HostAliases(s, tag), files, newIds);
      r.Ok? && Valid(r.value) && Rebuilt(s, tag, files, r.value)
  {
    hide *;
    EmptyKnown();
    ExportCommittable(s, tag, printable, cands, files);
    CommitExact(EMPTY, cands, HostAliases(s, tag), files, newIds);
    ImportAccepted(EMPTY, cands, HostAliases(s, tag), files, newIds);
    PicksExported(s, tag, cands);
    FromSize(s, tag, cands);
    var t, r := AddAll(EMPTY, cands, HostAliases(s, tag), files, newIds).value, ApplySelected(EMPTY, cands, HostAliases(s, tag), files, newIds).value;
    EmptyBase();
    HostsBack(s, tag, printable, cands, files, t, r.hosts);
    AllBack(s, tag, printable, files, t, r, cands[..|s.hosts|]);
  }

  lemma EmptyBase()
    ensures |EMPTY.hosts| == 0 && |EMPTY.keys| == 0
  {
  }

  lemma PairBack(s: State, tag: string, printable: Printable, files: Files, t: State, r: seq<M.Host>, i: nat, j: nat)
    requires Exportable(s, tag, printable) && KeysPlaced(s, tag, files) && OncePerPath(t.keys, 0)
    requires |r| == |s.hosts| && Distinct(r) && i < |r| && j < |r|
    requires HostBack(s, tag, files, t, r, i) && HostBack(s, tag, files, t, r, j)
    ensures r[i].jumpId == r[j].id <==> s.hosts[i].jumpId == s.hosts[j].id
    ensures r[i].jumpId == "" <==> s.hosts[i].jumpId == ""
    ensures r[i].keyId == r[j].keyId <==> s.hosts[i].keyId == s.hosts[j].keyId
  {
    JumpBack(s, tag, printable, files, t, r, i, j);
    FileOfKey(s, tag, printable, files, i, j);
    hide Exportable, KeysPlaced, Distinct, HostAlias, FileOf, OncePerPath, Has, JumpIndex;
    KeyOfPath(t.keys, r[i].keyId, r[j].keyId);
  }

  lemma AllBack(s: State, tag: string, printable: Printable, files: Files, t: State, r: State, picks: seq<Candidate>)
    requires Exportable(s, tag, printable) && KeysPlaced(s, tag, files) && Extended(EMPTY, t, picks, files)
    requires r == t.(hosts := r.hosts) && |r.hosts| == |s.hosts| && Distinct(r.hosts)
    requires forall i: nat :: i < |s.hosts| ==> HostBack(s, tag, files, t, r.hosts, i)
    ensures Rebuilt(s, tag, files, r)
  {
    ExtendedOnly(EMPTY, t, picks, files);
    assert OncePerPath(t.keys, 0) by { hide OncePerPath, WellFormed, MadeFrom; }
    hide Exportable, KeysPlaced, Extended, Distinct, HostAlias, FileOf, OncePerPath, WellFormed, Has, HostBack, SameHost;
    forall i: nat | i < |s.hosts| ensures SameHost(s, tag, files, r, i) {
      HostIsSame(s, tag, files, t, r, i);
    }
    forall i: nat, j: nat | i < |s.hosts| && j < |s.hosts|
      ensures r.hosts[i].jumpId == r.hosts[j].id <==> s.hosts[i].jumpId == s.hosts[j].id
      ensures r.hosts[i].jumpId == "" <==> s.hosts[i].jumpId == ""
      ensures r.hosts[i].keyId == r.hosts[j].keyId <==> s.hosts[i].keyId == s.hosts[j].keyId
    {
      PairBack(s, tag, printable, files, t, r.hosts, i, j);
    }
  }

  lemma HostIsSame(s: State, tag: string, files: Files, t: State, r: State, i: nat)
    requires r.keys == t.keys && |r.hosts| == |s.hosts| && i < |s.hosts| && HostBack(s, tag, files, t, r.hosts, i)
    ensures SameHost(s, tag, files, r, i)
  {
    hide HostAlias, FileOf, Has, Find;
  }
}
