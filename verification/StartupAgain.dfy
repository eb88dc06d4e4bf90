/**
 Running the start-up import twice. The fate of a group depends only on its own lists, on the
 hosts stored before the first run, and on whether its new keys get usable labels; only the last
 can change when other groups are committed. That is exactly when a second run imports something.
 */
module StartupAgain {
  import opened Wrappers
  import opened Text
  import opened Records
  import opened Model
  import opened Store
  import opened Importer
  import opened ImportSound
  import opened ImportLinks
  import opened ImportRoutes
  import opened ImportCommits
  import opened Groups
  import opened Startup

  /** The lists of a group can be realised on the stored hosts. */
  predicate Linkable(hosts: seq<Host>, cands: seq<Candidate>, group: set<string>) {
    var ds := Demands(cands, group);
    && Consistent(ds) && StoredLinks(hosts, ds)
    && forall c <- Picks(cands, group) :: Reaches(hosts, ds, c.alias, MAX_HOPS)
  }

  /** A connected part of the hosts offered on `s`. */
  ghost predicate Offered(s: State, cands: seq<Candidate>, files: Files, group: set<string>) {
    IsGroup(cands, Members(s, cands, files), group)
  }

  lemma {:induction false} PicksDistinct(cands: seq<Candidate>, chosen: set<string>)
    requires Unique(cands, Alias)
    ensures Unique(Picks(cands, chosen), Alias)
  {
    if cands != [] {
      var n := |cands| - 1;
      PicksDistinct(cands[..n], chosen);
      PicksMembers(cands[..n], chosen);
      var ps := Picks(cands[..n], chosen);
      forall i | 0 <= i < |ps| ensures Alias(ps[i]) != Alias(cands[n]) {
        assert ps[i] in cands[..n];
        var j :| 0 <= j < n && cands[j] == ps[i];
        assert Alias(cands[j]) != Alias(cands[n]);
      }
    }
  }

  /** A member of a group is a ready candidate with its hops in the group or stored. */
  lemma OfferedPick(s: State, cands: seq<Candidate>, files: Files, group: set<string>, c: Candidate)
    requires Unique(cands, Alias) && Offered(s, cands, files, group) && c in cands && c.alias in group
    ensures Ready(c, files) && !Has(s.hosts, HostName, c.alias)
    ensures forall hop <- c.jumps :: hop in group || Has(s.hosts, HostName, hop)
  {
    var members := Members(s, cands, files);
    SurvivorsGreatest(s.hosts, cands, Eligible(s.hosts, cands, files));
    var a :| a in group && a in members && group == Component(cands, members, a);
    ComponentMembers(cands, members, a);
    ComponentExact(cands, members, a);
    hide Has, Ready, Survivors, Component, HopsIn, Adjacent, JumpsVia;
    assert c.alias in Eligible(s.hosts, cands, files);
    var d :| d in cands && d.alias == c.alias && !Has(s.hosts, HostName, d.alias) && Ready(d, files);
    SameCandidate(cands, c, d);
    assert HopsIn(s.hosts, c, members);
    forall hop | hop in c.jumps ensures hop in group || Has(s.hosts, HostName, hop) {
      HopAdjacent(s.hosts, cands, members, group, c, hop);
    }
  }

  lemma SameCandidate(cands: seq<Candidate>, c: Candidate, d: Candidate)
    requires Unique(cands, Alias) && c in cands && d in cands && c.alias == d.alias
    ensures c == d
  {
    var i :| 0 <= i < |cands| && cands[i] == c;
    var j :| 0 <= j < |cands| && cands[j] == d;
    FindAt(cands, Alias, i);
    FindAt(cands, Alias, j);
  }

  lemma HopAdjacent(hosts: seq<Host>, cands: seq<Candidate>, members: set<string>, group: set<string>, c: Candidate, hop: string)
    requires c in cands && c.alias in group && group <= members && Whole(cands, members, group) && hop in c.jumps
    requires HopsIn(hosts, c, members)
    ensures hop in group || Has(hosts, HostName, hop)
  {
    hide Has;
    assert hop in members ==> Adjacent(cands, members, c.alias, hop);
  }

  /** An offered group that was not imported can still be added. */
  lemma OfferedAddable(s: State, t: State, done: set<string>, cands: seq<Candidate>, files: Files, group: set<string>)
    requires Unique(cands, Alias) && Offered(s, cands, files, group) && Grown(s, t, done) && group !! done
    ensures Addable(t, cands, group, files) && HopsRegistered(s.hosts, Picks(cands, group))
    ensures forall c <- Picks(cands, group) :: Shape(c)
    ensures forall a :: a in group <==> Has(Picks(cands, group), Alias, a)
  {
    var picks := Picks(cands, group);
    PicksDistinct(cands, group);
    PicksMembers(cands, group);
    hide Has, Offered, Shape, Unique, Valid, WellFormed, Picks;
    OfferedFound(s, cands, files, group);
    forall a ensures a in group <==> Has(picks, Alias, a) {
      PicksAliases(cands, group, a);
    }
    forall c | c in picks
      ensures Ready(c, files) && Importable(t.hosts, c, files)
      ensures forall hop <- c.jumps :: Has(s.hosts, HostName, hop) || Has(picks, Alias, hop)
    {
      OfferedPick(s, cands, files, group, c);
    }
  }

  lemma OfferedFound(s: State, cands: seq<Candidate>, files: Files, group: set<string>)
    requires Offered(s, cands, files, group)
    ensures AllFound(cands, group)
  {
    var members := Members(s, cands, files);
    SurvivorsGreatest(s.hosts, cands, Eligible(s.hosts, cands, files));
    var a :| a in group && a in members && group == Component(cands, members, a);
    ComponentMembers(cands, members, a);
    hide Has, Ready, Survivors, Component;
    forall b | b in group ensures Has(cands, Alias, b) {
      assert b in Eligible(s.hosts, cands, files);
      var c :| c in cands && c.alias == b;
      HasMember(cands, Alias, c);
    }
  }

  // ---------------------------------------------------------------- other groups do not matter

  lemma GrownDistinct(s: State, t: State, done: set<string>)
    requires Valid(s) && WellFormed(s) && Grown(s, t, done)
    ensures Distinct(s.hosts) && Distinct(t.hosts) && JumpsResolve(s.hosts)
  {
    ValidNames(s);
    ValidNames(t);
    ValidJumps(s);
    hide Valid;
  }

  /** A name of the group or of a stored host means the same in `s` and in `t`. */
  lemma SameMeaning(s: State, t: State, done: set<string>, group: set<string>, name: string)
    requires Distinct(s.hosts) && Distinct(t.hosts) && Grown(s, t, done) && group !! done
    requires name in group || Has(s.hosts, HostName, name)
    ensures Find(t.hosts, HostName, name) == Find(s.hosts, HostName, name)
    ensures Has(t.hosts, HostName, name) == Has(s.hosts, HostName, name)
    ensures IdOf(t.hosts, name) == IdOf(s.hosts, name)
  {
    FindKept(s.hosts, t.hosts, HostName, name);
    assert Has(t.hosts, HostName, name) <==> Has(s.hosts, HostName, name) || name in done;
    hide Grown, Distinct;
    IdOfName(s.hosts, name);
    IdOfName(t.hosts, name);
  }

  lemma SameStoredLinks(s: State, t: State, done: set<string>, cands: seq<Candidate>, group: set<string>)
    requires Distinct(s.hosts) && Distinct(t.hosts) && Grown(s, t, done) && group !! done
    requires HopsRegistered(s.hosts, Picks(cands, group)) && forall a :: a in group <==> Has(Picks(cands, group), Alias, a)
    ensures StoredLinks(t.hosts, Demands(cands, group)) <==> StoredLinks(s.hosts, Demands(cands, group))
  {
    hide Distinct, Grown, Has, Find, IdOf, Demands, Picks, HopsRegistered;
    forall d | d in Demands(cands, group) ensures StoredLink(t.hosts, d) <==> StoredLink(s.hosts, d) {
      DemandNames(s.hosts, cands, group, d);
      SameMeaning(s, t, done, group, d.host);
      SameMeaning(s, t, done, group, d.via);
    }
  }

  /** Upstream of a name of the group or of a stored host there are only such names. */
  lemma SameUpstream(s: State, t: State, done: set<string>, cands: seq<Candidate>, group: set<string>, name: string)
    requires Distinct(s.hosts) && Distinct(t.hosts) && JumpsResolve(s.hosts) && Grown(s, t, done) && group !! done
    requires HopsRegistered(s.hosts, Picks(cands, group)) && forall a :: a in group <==> Has(Picks(cands, group), Alias, a)
    requires name in group || Has(s.hosts, HostName, name)
    ensures Upstream(t.hosts, Demands(cands, group), name) == Upstream(s.hosts, Demands(cands, group), name)
    ensures var up := Upstream(s.hosts, Demands(cands, group), name); up == "" || up in group || Has(s.hosts, HostName, up)
  {
    var ds := Demands(cands, group);
    SameMeaning(s, t, done, group, name);
    hide Distinct, Grown, IdOf, Demands, Picks, HopsRegistered, Has, IndexOf, ViaOf;
    if Has(s.hosts, HostName, name) {
      StoredUpstream(s, t, done, ds, name);
    } else {
      ViaOfMember(ds, name);
      NotFound(s.hosts, name);
      if ViaOf(ds, name).Some? {
        DemandNames(s.hosts, cands, group, Demand(name, ViaOf(ds, name).value));
      }
    }
  }

  lemma NotFound(hosts: seq<Host>, name: string)
    ensures Has(hosts, HostName, name) <==> Find(hosts, HostName, name).Some?
  {
  }

  lemma StoredUpstream(s: State, t: State, done: set<string>, ds: seq<Demand>, name: string)
    requires Distinct(s.hosts) && Distinct(t.hosts) && JumpsResolve(s.hosts) && Grown(s, t, done) && Has(s.hosts, HostName, name)
    ensures Upstream(t.hosts, ds, name) == Upstream(s.hosts, ds, name)
    ensures var up := Upstream(s.hosts, ds, name); up == "" || Has(s.hosts, HostName, up)
  {
    FindKept(s.hosts, t.hosts, HostName, name);
    var i := IndexOf(s.hosts, HostName, name);
    var id := s.hosts[i].jumpId;
    FindKept(s.hosts, t.hosts, HostId, id);
    hide Grown;
    if id != "" {
      HasWitness(s.hosts, HostId, id);
      HasMember(s.hosts, HostName, Find(s.hosts, HostId, id).value);
    } else {
      assert NameOf(s.hosts, id) == "" && NameOf(t.hosts, id) == "";
    }
  }

  lemma {:induction false} SameReaches(s: State, t: State, done: set<string>, cands: seq<Candidate>, group: set<string>, name: string, fuel: nat)
    requires Distinct(s.hosts) && Distinct(t.hosts) && JumpsResolve(s.hosts) && Grown(s, t, done) && group !! done
    requires HopsRegistered(s.hosts, Picks(cands, group)) && forall a :: a in group <==> Has(Picks(cands, group), Alias, a)
    requires name == "" || name in group || Has(s.hosts, HostName, name)
    ensures Reaches(t.hosts, Demands(cands, group), name, fuel) <==> Reaches(s.hosts, Demands(cands, group), name, fuel)
    decreases fuel
  {
    hide Distinct, Grown, Demands, Picks, HopsRegistered, Has, Upstream, JumpsResolve;
    if fuel > 0 && name != "" {
      SameUpstream(s, t, done, cands, group, name);
      SameReaches(s, t, done, cands, group, Upstream(s.hosts, Demands(cands, group), name), fuel - 1);
    }
  }

  /** The fate of an offered group, whatever else was imported before it. */
  lemma GroupFate(s: State, t: State, done: set<string>, cands: seq<Candidate>, files: Files, group: set<string>)
    requires Valid(s) && WellFormed(s) && Unique(cands, Alias) && Offered(s, cands, files, group)
    requires Grown(s, t, done) && group !! done
    ensures Committable(t, cands, group, files) <==> Linkable(s.hosts, cands, group) && LabelsFit(t.keys, Picks(cands, group), files)
  {
    OfferedAddable(s, t, done, cands, files, group);
    GrownDistinct(s, t, done);
    PicksMembers(cands, group);
    hide Distinct, Grown, Demands, Picks, HopsRegistered, Has, JumpsResolve, Valid, WellFormed, Offered, Addable, Consistent,
      StoredLinks, Reaches, Shape, LabelsFit, Unique;
    SameStoredLinks(s, t, done, cands, group);
    forall c | c in Picks(cands, group)
      ensures Reaches(t.hosts, Demands(cands, group), c.alias, MAX_HOPS) <==> Reaches(s.hosts, Demands(cands, group), c.alias, MAX_HOPS)
    {
      SameReaches(s, t, done, cands, group, c.alias, MAX_HOPS);
    }
  }

  // ---------------------------------------------------------------- what a second run sees

  lemma {:induction false} DoneWhole(s: State, cands: seq<Candidate>, files: Files, groups: seq<set<string>>, batches: seq<seq<string>>)
    requires |groups| <= |batches| && forall i :: 0 <= i < |batches| ==> 2 * |cands| <= |batches[i]|
    requires forall i :: 0 <= i < |groups| ==> Offered(s, cands, files, groups[i])
    ensures Whole(cands, Members(s, cands, files), Done(s, cands, groups, files, batches))
    ensures Done(s, cands, groups, files, batches) <= Members(s, cands, files)
  {
    hide Adjacent, After, Imports, Component, Whole, Survivors;
    var members := Members(s, cands, files);
    WholeNone(cands, members);
    if groups != [] {
      var n := |groups| - 1;
      DoneWhole(s, cands, files, groups[..n], batches);
      assert Offered(s, cands, files, groups[n]);
      var a :| a in groups[n] && a in members && groups[n] == Component(cands, members, a);
      ComponentExact(cands, members, a);
      ComponentMembers(cands, members, a);
      var before := Done(s, cands, groups[..n], files, batches);
      WholeUnion(cands, members, before, groups[n]);
      assert before + {} == before;
    }
  }

  lemma EligibleAgain(s: State, t: State, done: set<string>, cands: seq<Candidate>, files: Files)
    requires Grown(s, t, done)
    ensures Eligible(t.hosts, cands, files) == Eligible(s.hosts, cands, files) - done
  {
    hide Has, Ready, Valid, WellFormed, OncePerPath;
  }

  lemma ClosedAgain(s: State, t: State, done: set<string>, cands: seq<Candidate>, d: set<string>)
    requires Grown(s, t, done) && d !! done
    ensures Closed(s.hosts, cands, done) && Closed(t.hosts, cands, d) ==> Closed(s.hosts, cands, d + done)
    ensures Closed(s.hosts, cands, d + done) ==> Closed(t.hosts, cands, d)
  {
    hide Has, Valid, WellFormed, OncePerPath;
  }

  /** The hosts offered to a second run are those the first one left out. */
  lemma MembersAgain(s: State, t: State, done: set<string>, cands: seq<Candidate>, files: Files)
    requires Grown(s, t, done) && done <= Members(s, cands, files)
    requires Closed(s.hosts, cands, done)
    ensures Members(t, cands, files) == Members(s, cands, files) - done
  {
    hide *;
    var m, n := Members(s, cands, files), Members(t, cands, files);
    EligibleAgain(s, t, done, cands, files);
    MembersGreatest(s, cands, files);
    MembersGreatest(t, cands, files);
    ClosedAgain(s, t, done, cands, m - done);
    ClosedAgain(s, t, done, cands, n);
    assert (m - done) + done == m;
    assert n + done <= Eligible(s.hosts, cands, files);
    SameSets(n, m - done);
  }

  lemma SameSets(a: set<string>, b: set<string>)
    requires a <= b && b <= a
    ensures a == b
  {
  }

  lemma MembersGreatest(s: State, cands: seq<Candidate>, files: Files)
    ensures Members(s, cands, files) <= Eligible(s.hosts, cands, files)
    ensures Closed(s.hosts, cands, Members(s, cands, files))
    ensures forall d :: d <= Eligible(s.hosts, cands, files) && Closed(s.hosts, cands, d) ==> d <= Members(s, cands, files)
  {
    SurvivorsGreatest(s.hosts, cands, Eligible(s.hosts, cands, files));
  }

  lemma AdjacentFewer(cands: seq<Candidate>, members: set<string>, fewer: set<string>, a: string, b: string)
    requires fewer <= members
    ensures Adjacent(cands, fewer, a, b) <==> Adjacent(cands, members, a, b) && a in fewer && b in fewer
  {
  }

  /** Taking whole parts away leaves the other parts as they are. */
  lemma ComponentAgain(cands: seq<Candidate>, members: set<string>, done: set<string>, a: string)
    requires Whole(cands, members, done) && done <= members && a in members - done
    ensures Component(cands, members - done, a) == Component(cands, members, a) && Component(cands, members, a) !! done
  {
    var fewer := members - done;
    var big, small := Component(cands, members, a), Component(cands, fewer, a);
    ComponentExact(cands, members, a);
    ComponentExact(cands, fewer, a);
    ComponentMembers(cands, fewer, a);
    ApartFrom(cands, members, done, a);
    hide Adjacent, Component;
    forall b, c | b in big && Adjacent(cands, fewer, b, c) ensures c in big {
      AdjacentFewer(cands, members, fewer, b, c);
    }
    forall b, c | b in small && Adjacent(cands, members, b, c) ensures c in small {
      AdjacentMembers(cands, members, b, c);
      AdjacentFewer(cands, members, fewer, b, c);
    }
  }

  /** The groups offered to a second run are the offered groups the first one left out. */
  lemma OfferedAgain(s: State, t: State, done: set<string>, cands: seq<Candidate>, files: Files, group: set<string>)
    requires Grown(s, t, done) && done <= Members(s, cands, files) && Closed(s.hosts, cands, done)
    requires Whole(cands, Members(s, cands, files), done)
    ensures Offered(t, cands, files, group) <==> Offered(s, cands, files, group) && group !! done
  {
    var m := Members(s, cands, files);
    MembersAgain(s, t, done, cands, files);
    hide Grown, Component, Whole, Survivors, Closed, Members;
    forall a | a in m - done ensures Component(cands, m - done, a) == Component(cands, m, a) && Component(cands, m, a) !! done {
      ComponentAgain(cands, m, done, a);
    }
  }

  lemma DoneClosed(s: State, cands: seq<Candidate>, files: Files, done: set<string>)
    requires Whole(cands, Members(s, cands, files), done) && done <= Members(s, cands, files)
    ensures Closed(s.hosts, cands, done)
  {
    var m := Members(s, cands, files);
    SurvivorsGreatest(s.hosts, cands, Eligible(s.hosts, cands, files));
    hide Survivors, HopsIn, Has, Whole;
    forall c | c in cands && c.alias in done ensures HopsIn(s.hosts, c, done) {
      assert HopsIn(s.hosts, c, m);
      DoneHops(s.hosts, cands, m, done, c);
    }
  }

  lemma DoneHops(hosts: seq<Host>, cands: seq<Candidate>, m: set<string>, done: set<string>, c: Candidate)
    requires c in cands && c.alias in done && done <= m && Whole(cands, m, done) && HopsIn(hosts, c, m)
    ensures HopsIn(hosts, c, done)
  {
    hide Has;
    forall hop | hop in c.jumps ensures hop in done || Has(hosts, HostName, hop) {
      HopAdjacent(hosts, cands, m, done, c, hop);
    }
  }

  // ---------------------------------------------------------------- when a run changes nothing

  /** The plan consists of exactly the offered groups. */
  lemma PlanOffered(s: State, cands: seq<Candidate>, files: Files)
    ensures var plan := Plan(s, cands, files);
      && |plan| <= |cands| && Disjoint(plan)
      && (forall i :: 0 <= i < |plan| ==> Offered(s, cands, files, plan[i]))
      && (forall g :: Offered(s, cands, files, g) ==> g in plan)
  {
    var plan, m := Plan(s, cands, files), Members(s, cands, files);
    GroupsPartition(cands, m, |cands|);
    PlanCovers(s, cands, files);
    hide Covered, Component, GroupsOf, Whole, Survivors, Members, Eligible;
    forall g | Offered(s, cands, files, g) ensures g in plan {
      var a :| a in g && a in m && g == Component(cands, m, a);
      CoveredMember(plan, a);
      var i :| 0 <= i < |plan| && a in plan[i];
      GroupOf(cands, m, |cands|, i, a);
    }
  }

  lemma {:induction false} LabelsGrow(a: seq<Key>, b: seq<Key>, picks: seq<Candidate>, files: Files)
    requires a <= b && LabelsFit(a, picks, files)
    ensures LabelsFit(b, picks, files)
  {
    hide ValidKey, PathUsed;
    if picks != [] {
      LabelsGrow(a, b, picks[..|picks| - 1], files);
      var path := files.path(picks[|picks| - 1].identityFile);
      if path.Some? { FindKept(a, b, KeyPath, path.value); }
    }
  }

  lemma {:induction false} DoneGrows(s: State, cands: seq<Candidate>, groups: seq<set<string>>, files: Files, batches: seq<seq<string>>, n: nat)
    requires n <= |groups| <= |batches| && forall i :: 0 <= i < |batches| ==> 2 * |cands| <= |batches[i]|
    ensures Done(s, cands, groups[..n], files, batches) <= Done(s, cands, groups, files, batches)
    decreases |groups| - n
  {
    hide After, Imports;
    if n < |groups| {
      assert groups[..n + 1][..n] == groups[..n];
      DoneGrows(s, cands, groups, files, batches, n + 1);
    } else {
      assert groups[..n] == groups;
    }
  }

  lemma {:induction false} NothingRun(s: State, cands: seq<Candidate>, groups: seq<set<string>>, files: Files, batches: seq<seq<string>>)
    requires Valid(s) && WellFormed(s) && |groups| <= |batches| && FreshBatches(s, batches, cands)
    requires forall i :: 0 <= i < |groups| ==> !Committable(s, cands, groups[i], files)
    ensures After(s, cands, groups, files, batches) == s
  {
    hide Valid, WellFormed, Committable, ApplySelected;
    if groups != [] {
      var n := |groups| - 1;
      NothingRun(s, cands, groups[..n], files, batches);
      GrownSelf(s, batches);
      SelfFresh(s, batches, cands, n);
      CommitExact(s, cands, groups[n], files, batches[n]);
    }
  }

  lemma SelfFresh(s: State, batches: seq<seq<string>>, cands: seq<Candidate>, n: nat)
    requires FreshBatches(s, batches, cands) && n < |batches|
    ensures Fresh(s, batches[n]) && 2 * |cands| <= |batches[n]|
  {
    hide Fresh;
  }

  /** An offered group that could be committed before the run is committed by it. */
  lemma CommittedInRun(s: State, cands: seq<Candidate>, files: Files, batches: seq<seq<string>>, i: nat)
    requires Valid(s) && WellFormed(s) && Unique(cands, Alias) && FreshBatches(s, batches, cands) && |cands| <= |batches|
    requires i < |Plan(s, cands, files)| && Committable(s, cands, Plan(s, cands, files)[i], files)
    ensures |Plan(s, cands, files)| <= |batches| && Plan(s, cands, files)[i] <= Done(s, cands, Plan(s, cands, files), files, batches)
  {
    hide *;
    var plan := Plan(s, cands, files);
    var g := plan[i];
    PlanOffered(s, cands, files);
    BatchSizes(s, batches, cands);
    RunKeeps(s, cands, plan[..i], files, batches);
    var u, done := After(s, cands, plan[..i], files, batches), Done(s, cands, plan[..i], files, batches);
    DoneCovered(s, cands, plan[..i], files, batches);
    ApartFromEarlier(plan, i);
    StillCommittable(s, u, done, cands, files, g);
    FreshStep(s, u, batches, cands, i);
    GrownKeys(s, u, done);
    CommitExact(u, cands, g, files, batches[i]);
    CommitsImport(u, cands, g, files, batches[i]);
    AfterStep(s, cands, plan[..i], g, files, batches);
    assert plan[..i + 1] == plan[..i] + [g];
    DoneGrows(s, cands, plan, files, batches, i + 1);
  }

  /** Committing other groups does not make an offered group fail. */
  lemma StillCommittable(s: State, u: State, done: set<string>, cands: seq<Candidate>, files: Files, g: set<string>)
    requires Valid(s) && WellFormed(s) && Unique(cands, Alias) && Offered(s, cands, files, g)
    requires Grown(s, u, done) && g !! done && Committable(s, cands, g, files)
    ensures Committable(u, cands, g, files)
  {
    hide *;
    GrownSelf(s, []);
    assert g !! {};
    GroupFate(s, s, {}, cands, files, g);
    GroupFate(s, u, done, cands, files, g);
    GrownKeys(s, u, done);
    LabelsGrow(s.keys, u.keys, Picks(cands, g), files);
  }

  lemma CommitsImport(t: State, cands: seq<Candidate>, group: set<string>, files: Files, ids: seq<string>)
    requires 2 * |cands| <= |ids|
    ensures Imports(t, cands, group, files, ids) <==>
      ApplySelected(t, cands, group, files, ids).Ok? && Valid(ApplySelected(t, cands, group, files, ids).value)
  {
    hide ApplySelected, Valid;
  }

  lemma GrownKeys(s: State, t: State, done: set<string>)
    requires Grown(s, t, done)
    ensures s.keys <= t.keys && Valid(t) && WellFormed(t)
  {
    hide Valid, WellFormed;
  }

  lemma {:induction false} ApartFromEarlier(groups: seq<set<string>>, i: nat)
    requires i < |groups| && Disjoint(groups)
    ensures groups[i] !! Covered(groups[..i])
  {
    forall a | a in groups[i] ensures a !in Covered(groups[..i]) {
      CoveredMember(groups[..i], a);
    }
  }

  /** A run changes nothing exactly when no offered group can be committed. */
  lemma RunNothing(s: State, cands: seq<Candidate>, files: Files, batches: seq<seq<string>>)
    requires Valid(s) && WellFormed(s) && Unique(cands, Alias) && |cands| <= |batches| && FreshBatches(s, batches, cands)
    ensures Started(s, cands, files, batches) == s <==> forall g :: Offered(s, cands, files, g) ==> !Committable(s, cands, g, files)
  {
    var plan := Plan(s, cands, files);
    PlanOffered(s, cands, files);
    BatchSizes(s, batches, cands);
    hide Valid, WellFormed, Offered, Unique, Committable, FreshBatches, Plan, After, Done, Disjoint;
    if forall g :: Offered(s, cands, files, g) ==> !Committable(s, cands, g, files) {
      NothingRun(s, cands, plan, files, batches);
    } else {
      var g :| Offered(s, cands, files, g) && Committable(s, cands, g, files);
      var i :| 0 <= i < |plan| && plan[i] == g;
      CommittedInRun(s, cands, files, batches, i);
      RunKeeps(s, cands, plan, files, batches);
      OfferedNew(s, cands, files, g);
      var a :| a in g && !Has(s.hosts, HostName, a);
      assert Has(Started(s, cands, files, batches).hosts, HostName, a);
    }
  }

  lemma OfferedNew(s: State, cands: seq<Candidate>, files: Files, g: set<string>)
    requires Offered(s, cands, files, g)
    ensures exists a :: a in g && !Has(s.hosts, HostName, a)
  {
    MembersGreatest(s, cands, files);
    hide Members, Component, Has, Ready;
    var a :| a in g && a in Members(s, cands, files) && g == Component(cands, Members(s, cands, files), a);
    assert a in Eligible(s.hosts, cands, files);
    assert a in g && !Has(s.hosts, HostName, a);
  }

  // ---------------------------------------------------------------- the second run

  /** No host of the group is stored. */
  predicate LeftOut(hosts: seq<Host>, group: set<string>) {
    forall a <- group :: !Has(hosts, HostName, a)
  }

  lemma LeftOutExact(s: State, t: State, done: set<string>, cands: seq<Candidate>, files: Files, g: set<string>)
    requires Grown(s, t, done) && Offered(s, cands, files, g)
    ensures LeftOut(t.hosts, g) <==> g !! done
  {
    MembersGreatest(s, cands, files);
    hide Members, Component, Has, Ready, Valid, WellFormed, OncePerPath;
    var a :| a in g && a in Members(s, cands, files) && g == Component(cands, Members(s, cands, files), a);
    ComponentMembers(cands, Members(s, cands, files), a);
    assert forall b <- g :: b in Eligible(s.hosts, cands, files);
    assert forall b <- g :: Has(t.hosts, HostName, b) <==> b in done;
  }

  /** A second run of the start-up import changes nothing exactly when no group the first run left
      out has realisable lists and, with the keys registered by now, usable labels. */
  lemma SecondRun(s: State, cands: seq<Candidate>, files: Files, batches: seq<seq<string>>, again: seq<seq<string>>)
    requires Valid(s) && WellFormed(s) && Unique(cands, Alias)
    requires |cands| <= |batches| && FreshBatches(s, batches, cands)
    requires |cands| <= |again| && forall i :: 0 <= i < |batches| ==> 2 * |cands| <= |batches[i]|
    requires FreshBatches(Started(s, cands, files, batches), again, cands)
    requires forall i :: 0 <= i < |again| ==> 2 * |cands| <= |again[i]|
    ensures var t := Started(s, cands, files, batches);
      Started(t, cands, files, again) == t <==>
      forall g :: Offered(s, cands, files, g) && LeftOut(t.hosts, g) ==>
        !Linkable(s.hosts, cands, g) || !LabelsFit(t.keys, Picks(cands, g), files)
  {
    var plan := Plan(s, cands, files);
    PlanOffered(s, cands, files);
    hide *;
    var t, done := Started(s, cands, files, batches), Done(s, cands, plan, files, batches);
    StartedGrown(s, cands, files, batches);
    GrownKeys(s, t, done);
    DoneWhole(s, cands, files, plan, batches);
    DoneClosed(s, cands, files, done);
    RunNothing(t, cands, files, again);
    forall g
      ensures Offered(t, cands, files, g) <==> Offered(s, cands, files, g) && LeftOut(t.hosts, g)
      ensures Offered(t, cands, files, g) ==>
        (Committable(t, cands, g, files) <==> Linkable(s.hosts, cands, g) && LabelsFit(t.keys, Picks(cands, g), files))
    {
      OfferedAgain(s, t, done, cands, files, g);
      if Offered(s, cands, files, g) {
        LeftOutExact(s, t, done, cands, files, g);
        if g !! done {
          GroupFate(s, t, done, cands, files, g);
        }
      }
    }
  }

  lemma StartedGrown(s: State, cands: seq<Candidate>, files: Files, batches: seq<seq<string>>)
    requires Valid(s) && WellFormed(s) && |cands| <= |batches| && FreshBatches(s, batches, cands)
    requires forall i :: 0 <= i < |batches| ==> 2 * |cands| <= |batches[i]|
    requires |Plan(s, cands, files)| <= |batches|
    ensures Grown(s, Started(s, cands, files, batches), Done(s, cands, Plan(s, cands, files), files, batches))
  {
    hide Grown, Valid, WellFormed, FreshBatches, Plan, After, Done;
    RunKeeps(s, cands, Plan(s, cands, files), files, batches);
  }

  // ---------------------------------------------------------------- short aliases

  /** With short aliases, usable labels do not depend on the registered keys. */
  lemma {:induction false} ShortLabelsFit(early: seq<Key>, late: seq<Key>, picks: seq<Candidate>, files: Files)
    requires forall c <- picks :: Shape(c) && ByteLen(c.alias) <= LABEL_ROOM
    requires KeysValid(late) && LabelsFit(late, picks, files)
    ensures LabelsFit(early, picks, files)
  {
    hide ValidKey, PathUsed, Shape, ByteLen;
    if picks != [] {
      var c, init := picks[|picks| - 1], picks[..|picks| - 1];
      assert c in picks && forall d <- init :: d in picks;
      ShortLabelsFit(early, late, init, files);
      var path := files.path(c.identityFile);
      if path.Some? && Has(late, KeyPath, path.value) {
        HasWitness(late, KeyPath, path.value);
        PathNonEmpty(late, Find(late, KeyPath, path.value).value);
        ShortLabel(c, path.value);
      }
    }
  }

  lemma PathNonEmpty(keys: seq<Key>, k: Key)
    requires KeysValid(keys) && k in keys
    ensures k.path != ""
  {
  }

  /** A group left out by a run could not be committed when its turn came. */
  lemma FailedInTurn(s: State, cands: seq<Candidate>, files: Files, batches: seq<seq<string>>, g: set<string>)
    returns (u: State, done: set<string>)
    requires Valid(s) && WellFormed(s) && Unique(cands, Alias) && |cands| <= |batches| && FreshBatches(s, batches, cands)
    requires forall i :: 0 <= i < |batches| ==> 2 * |cands| <= |batches[i]|
    requires Offered(s, cands, files, g) && LeftOut(Started(s, cands, files, batches).hosts, g)
    ensures Grown(s, u, done) && g !! done && !Committable(u, cands, g, files)
  {
    var plan := Plan(s, cands, files);
    PlanOffered(s, cands, files);
    hide *;
    var i :| 0 <= i < |plan| && plan[i] == g;
    StartedGrown(s, cands, files, batches);
    LeftOutExact(s, Started(s, cands, files, batches), Done(s, cands, plan, files, batches), cands, files, g);
    OfferedNonEmpty(s, cands, files, g);
    RunKeeps(s, cands, plan[..i], files, batches);
    u, done := After(s, cands, plan[..i], files, batches), Done(s, cands, plan[..i], files, batches);
    DoneCovered(s, cands, plan[..i], files, batches);
    ApartFromEarlier(plan, i);
    FreshStep(s, u, batches, cands, i);
    GrownKeys(s, u, done);
    CommitExact(u, cands, g, files, batches[i]);
    CommitsImport(u, cands, g, files, batches[i]);
    AfterStep(s, cands, plan[..i], g, files, batches);
    assert plan[..i + 1] == plan[..i] + [g];
    DoneGrows(s, cands, plan, files, batches, i + 1);
  }

  lemma OfferedNonEmpty(s: State, cands: seq<Candidate>, files: Files, g: set<string>)
    requires Offered(s, cands, files, g)
    ensures g != {}
  {
  }

  /** The start-up import is idempotent when no alias is longer than 156 bytes. */
  lemma Idempotent(s: State, cands: seq<Candidate>, files: Files, batches: seq<seq<string>>, again: seq<seq<string>>)
    requires Valid(s) && WellFormed(s) && Unique(cands, Alias)
    requires forall c <- cands :: ByteLen(c.alias) <= LABEL_ROOM
    requires |cands| <= |batches| && FreshBatches(s, batches, cands)
    requires |cands| <= |again| && forall i :: 0 <= i < |batches| ==> 2 * |cands| <= |batches[i]|
    requires FreshBatches(Started(s, cands, files, batches), again, cands)
    requires forall i :: 0 <= i < |again| ==> 2 * |cands| <= |again[i]|
    ensures var t := Started(s, cands, files, batches); Started(t, cands, files, again) == t
  {
    var t := Started(s, cands, files, batches);
    hide *;
    forall g | Offered(s, cands, files, g) && LeftOut(t.hosts, g)
      ensures !Linkable(s.hosts, cands, g) || !LabelsFit(t.keys, Picks(cands, g), files)
    {
      StaysOut(s, cands, files, batches, g);
    }
    SecondRun(s, cands, files, batches, again);
  }

  lemma StaysOut(s: State, cands: seq<Candidate>, files: Files, batches: seq<seq<string>>, g: set<string>)
    requires Valid(s) && WellFormed(s) && Unique(cands, Alias) && |cands| <= |batches| && FreshBatches(s, batches, cands)
    requires forall i :: 0 <= i < |batches| ==> 2 * |cands| <= |batches[i]|
    requires forall c <- cands :: ByteLen(c.alias) <= LABEL_ROOM
    requires Offered(s, cands, files, g) && LeftOut(Started(s, cands, files, batches).hosts, g)
    ensures !Linkable(s.hosts, cands, g) || !LabelsFit(Started(s, cands, files, batches).keys, Picks(cands, g), files)
  {
    PlanCovers(s, cands, files);
    StartedGrown(s, cands, files, batches);
    var t, last := Started(s, cands, files, batches), Done(s, cands, Plan(s, cands, files), files, batches);
    hide *;
    var u, done := FailedInTurn(s, cands, files, batches, g);
    GroupFate(s, u, done, cands, files, g);
    if LabelsFit(t.keys, Picks(cands, g), files) {
      OfferedAddable(s, u, done, cands, files, g);
      PicksMembers(cands, g);
      GrownKeys(s, t, last);
      ValidParts(t);
      ShortLabelsFit(u.keys, t.keys, Picks(cands, g), files);
    }
  }

  // ---------------------------------------------------------------- a long alias

  lemma AloneLinkable(cands: seq<Candidate>, c: Candidate)
    requires Unique(cands, Alias) && c in cands && forall d <- cands :: d.jumps == []
    ensures Linkable([], cands, {c.alias}) && Picks(cands, {c.alias}) == [c]
  {
    AlonePick(cands, c);
    PicksMembers(cands, {c.alias});
    NoDemands(cands, {c.alias});
    assert Reaches([], [], c.alias, MAX_HOPS) by {
      assert Upstream([], [], c.alias) == "";
    }
  }

  lemma {:induction false} NoDemands(cands: seq<Candidate>, chosen: set<string>)
    requires forall d <- cands :: d.jumps == []
    ensures Demands(cands, chosen) == []
  {
    if cands != [] {
      NoDemands(cands[..|cands| - 1], chosen);
    }
  }

  lemma AlonePick(cands: seq<Candidate>, c: Candidate)
    requires Unique(cands, Alias) && c in cands
    ensures Picks(cands, {c.alias}) == [c]
  {
    var picks := Picks(cands, {c.alias});
    PicksDistinct(cands, {c.alias});
    PicksMembers(cands, {c.alias});
    assert c in picks;
    var k :| 0 <= k < |picks| && picks[k] == c;
    assert picks[0] in picks && picks[|picks| - 1] in picks;
    FindAt(picks, Alias, 0);
    FindAt(picks, Alias, |picks| - 1);
    assert |picks| == 1;
  }

  lemma AloneGroup(cands: seq<Candidate>, files: Files, c: Candidate)
    requires Unique(cands, Alias) && c in cands && Ready(c, files) && forall d <- cands :: d.jumps == []
    ensures c.alias in Members(EMPTY, cands, files) && Component(cands, Members(EMPTY, cands, files), c.alias) == {c.alias}
  {
    var m := Members(EMPTY, cands, files);
    MembersGreatest(EMPTY, cands, files);
    hide Ready, Members, Component;
    assert Closed(EMPTY.hosts, cands, Eligible(EMPTY.hosts, cands, files));
    assert c.alias in Eligible(EMPTY.hosts, cands, files);
    ComponentExact(cands, m, c.alias);
    assert Whole(cands, m, {c.alias});
  }

  /** On an empty store the two hosts are two groups, in configuration order. */
  lemma LongFirstPlan(cands: seq<Candidate>, files: Files)
    requires |cands| == 2 && Unique(cands, Alias) && (forall d <- cands :: d.jumps == []) && forall d <- cands :: Ready(d, files)
    ensures Plan(EMPTY, cands, files) == [{cands[0].alias}, {cands[1].alias}]
    ensures Offered(EMPTY, cands, files, {cands[0].alias}) && Offered(EMPTY, cands, files, {cands[1].alias})
  {
    var m := Members(EMPTY, cands, files);
    AloneGroup(cands, files, cands[0]);
    AloneGroup(cands, files, cands[1]);
    hide Members, Component, Ready;
    assert Alias(cands[0]) != Alias(cands[1]);
    CoveredNone();
    CoveredStep([], {cands[0].alias});
    assert GroupsOf(cands, m, 0) == [];
    assert GroupsOf(cands, m, 1) == [] + [{cands[0].alias}];
    assert GroupsOf(cands, m, 2) == [{cands[0].alias}] + [{cands[1].alias}];
  }

  lemma LabelAlone(keys: seq<Key>, c: Candidate, files: Files, path: string)
    requires files.path(c.identityFile) == Some(path)
    ensures LabelsFit(keys, [c], files) <==> Has(keys, KeyPath, path) || ValidKey(NewKey(c, "", path))
  {
    hide ValidKey, Has;
    assert [c][..0] == [];
    assert LabelsFit(keys, [], files);
  }

  lemma EmptySound()
    ensures Valid(EMPTY) && WellFormed(EMPTY)
  {
  }

  /** After the first run only the second host is stored, and the key file is registered. */
  lemma LongFirstRun(cands: seq<Candidate>, path: string, files: Files, batches: seq<seq<string>>)
    requires |cands| == 2 <= |batches| && Unique(cands, Alias) && (forall d <- cands :: d.jumps == []) && forall d <- cands :: Ready(d, files)
    requires forall i :: 0 <= i < |batches| ==> 4 <= |batches[i]|
    requires files.path(cands[0].identityFile) == files.path(cands[1].identityFile) == Some(path)
    requires !ValidKey(NewKey(cands[0], "", path)) && ValidKey(NewKey(cands[1], "", path))
    requires FreshBatches(EMPTY, batches, cands)
    ensures var t := Started(EMPTY, cands, files, batches);
      !Has(t.hosts, HostName, cands[0].alias) && Has(t.keys, KeyPath, path)
  {
    hide Valid, WellFormed, FreshBatches, Offered, Linkable, LabelsFit, Name, Picks, Unique, Ready, Committable, ApplySelected,
      Shape, ValidKey, Fresh, Has, Plan, Members;
    EmptySound();
    LongFirstPlan(cands, files);
    var a, b := {cands[0].alias}, {cands[1].alias};
    AloneLinkable(cands, cands[0]);
    AloneLinkable(cands, cands[1]);
    LabelAlone([], cands[0], files, path);
    LabelAlone([], cands[1], files, path);
    NoKey(path);
    GrownSelf(EMPTY, batches);
    hide Grown;
    GroupFate(EMPTY, EMPTY, {}, cands, files, a);
    GroupFate(EMPTY, EMPTY, {}, cands, files, b);
    SelfFresh(EMPTY, batches, cands, 0);
    SelfFresh(EMPTY, batches, cands, 1);
    CommitExact(EMPTY, cands, a, files, batches[0]);
    CommitExact(EMPTY, cands, b, files, batches[1]);
    AfterStep(EMPTY, cands, [], a, files, batches);
    AfterStep(EMPTY, cands, [a], b, files, batches);
    assert [] + [a] == [a] && [a] + [b] == [a, b];
    ImportKeeps(EMPTY, cands, b, files, batches[1]);
    OneName(cands);
    UsedAppend([], cands[1], files, path);
    assert [] + [cands[1]] == [cands[1]];
  }

  lemma NoKey(path: string)
    ensures !Has(EMPTY.keys, KeyPath, path)
  {
  }

  lemma OneName(cands: seq<Candidate>)
    requires |cands| == 2 && Unique(cands, Alias)
    ensures !Has([cands[1]], Alias, cands[0].alias) && !Has(EMPTY.hosts, HostName, cands[0].alias)
  {
    assert Alias(cands[0]) != Alias(cands[1]);
  }

  lemma LongLabel(c: Candidate, path: string)
    requires ByteLen(c.alias) > LABEL_ROOM
    ensures !ValidKey(NewKey(c, "", path))
  {
    ByteLenAppend(c.alias, " key");
    hide Blank, Avoids;
    assert ByteLen(" key") == 4;
  }

  /** Beyond that length a second run may import: the first host fails alone for its key label, the
      second one registers the shared key file, and from then on the first one needs no label. */
  lemma LongAliasImportsLater(first: Candidate, second: Candidate, path: string, files: Files,
                              batches: seq<seq<string>>, again: seq<seq<string>>)
    requires Ready(first, files) && first.jumps == [] && ByteLen(first.alias) > LABEL_ROOM
    requires Ready(second, files) && second.jumps == [] && ByteLen(second.alias) <= LABEL_ROOM
    requires files.path(first.identityFile) == files.path(second.identityFile) == Some(path) && path != ""
    requires 2 <= |batches| && 2 <= |again|
    requires forall i :: 0 <= i < |batches| ==> 4 <= |batches[i]|
    requires forall i :: 0 <= i < |again| ==> 4 <= |again[i]|
    requires FreshBatches(EMPTY, batches, [first, second])
    requires FreshBatches(Started(EMPTY, [first, second], files, batches), again, [first, second])
    ensures var t := Started(EMPTY, [first, second], files, batches); Started(t, [first, second], files, again) != t
  {
    var cands := [first, second];
    var t := Started(EMPTY, cands, files, batches);
    hide *;
    ReadyShape(second, files);
    LongLabel(first, path);
    ShortLabel(second, path);
    PairDistinct(first, second);
    EmptySound();
    LongFirstPlan(cands, files);
    LongFirstRun(cands, path, files, batches);
    AloneLinkable(cands, first);
    LabelAlone(t.keys, first, files, path);
    AloneLeftOut(t.hosts, first.alias);
    assert 2 * |cands| == 4;
    SecondRun(EMPTY, cands, files, batches, again);
    assert Offered(EMPTY, cands, files, {first.alias});
  }

  lemma ReadyShape(c: Candidate, files: Files)
    requires Ready(c, files)
    ensures Shape(c)
  {
  }

  lemma PairDistinct(first: Candidate, second: Candidate)
    requires ByteLen(second.alias) < ByteLen(first.alias)
    ensures Unique([first, second], Alias)
  {
    hide ByteLen;
    assert first.alias != second.alias;
  }

  lemma AloneLeftOut(hosts: seq<Host>, a: string)
    requires !Has(hosts, HostName, a)
    ensures LeftOut(hosts, {a})
  {
    hide Has;
  }
}
