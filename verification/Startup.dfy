/**
 The start-up import: new hosts of the user's SSH configuration are committed group by group, one
 update per connected group of jump hosts, and every host of the configuration is accounted for.
 */
module Startup {
  import opened Wrappers
  import opened Text
  import opened Records
  import opened Model
  import opened Store
  import opened Importer
  import P = Parser
  import opened ImportSound
  import opened ImportLinks
  import opened ImportRoutes
  import opened ImportCommits
  import opened Groups

  datatype Report = Report(imported: nat, existing: nat, skipped: seq<string>)

  /** Each update draws its identifiers from its own batch: all fresh, none in two batches. */
  ghost predicate FreshBatches(s: State, batches: seq<seq<string>>, cands: seq<Candidate>) {
    && (forall i :: 0 <= i < |batches| ==> 2 * |cands| <= |batches[i]| && Fresh(s, batches[i]))
    && (forall i, j, id :: 0 <= i < j < |batches| && id in batches[i] ==> id !in batches[j])
  }

  /** One group: one update. */
  function ImportGroup(t: State, cands: seq<Candidate>, group: set<string>, files: Files, ids: seq<string>): State
    requires 2 * |cands| <= |ids|
  {
    Commit(t, ApplySelected(t, cands, group, files, ids))
  }

  predicate Imports(t: State, cands: seq<Candidate>, group: set<string>, files: Files, ids: seq<string>)
    requires 2 * |cands| <= |ids|
  {
    var r := ApplySelected(t, cands, group, files, ids);
    r.Ok? && Valid(r.value)
  }

  /** The state after some groups were attempted in order. */
  ghost function After(s: State, cands: seq<Candidate>, groups: seq<set<string>>, files: Files, batches: seq<seq<string>>): State
    requires |groups| <= |batches| && forall i :: 0 <= i < |batches| ==> 2 * |cands| <= |batches[i]|
  {
    if groups == [] then s
    else
      var n := |groups| - 1;
      ImportGroup(After(s, cands, groups[..n], files, batches), cands, groups[n], files, batches[n])
  }

  /** The aliases those updates committed. */
  ghost function Done(s: State, cands: seq<Candidate>, groups: seq<set<string>>, files: Files, batches: seq<seq<string>>): set<string>
    requires |groups| <= |batches| && forall i :: 0 <= i < |batches| ==> 2 * |cands| <= |batches[i]|
  {
    if groups == [] then {}
    else
      var n := |groups| - 1;
      Done(s, cands, groups[..n], files, batches) +
      if Imports(After(s, cands, groups[..n], files, batches), cands, groups[n], files, batches[n]) then groups[n] else {}
  }

  /** Every identifier of `t` was in `s` or comes from the first `n` batches. */
  ghost predicate KnownFrom(s: State, t: State, batches: seq<seq<string>>, n: nat)
    requires n <= |batches|
  {
    && (forall id :: Has(t.hosts, HostId, id) ==> Has(s.hosts, HostId, id) || exists i :: 0 <= i < n && id in batches[i])
    && (forall id :: Has(t.keys, KeyId, id) ==> Has(s.keys, KeyId, id) || exists i :: 0 <= i < n && id in batches[i])
  }

  /** `t` is `s` with more hosts, named by `done`, and more keys. */
  ghost predicate Grown(s: State, t: State, done: set<string>) {
    && Valid(t) && WellFormed(t)
    && t == s.(keys := t.keys, hosts := t.hosts)
    && s.hosts <= t.hosts && s.keys <= t.keys && OncePerPath(t.keys, |s.keys|)
    && (forall name :: Has(t.hosts, HostName, name) <==> Has(s.hosts, HostName, name) || name in done)
  }

  lemma FreshStep(s: State, t: State, batches: seq<seq<string>>, cands: seq<Candidate>, n: nat)
    requires FreshBatches(s, batches, cands) && n < |batches| && KnownFrom(s, t, batches, n)
    ensures Fresh(t, batches[n])
  {
    hide Has, IndexOf;
    assert Fresh(s, batches[n]);
    var ids := batches[n];
    forall i | 0 <= i < |ids| ensures ids[i] != "" && !Has(t.hosts, HostId, ids[i]) && !Has(t.keys, KeyId, ids[i]) {
      assert ids[i] in batches[n];
    }
  }

  lemma KnownFromStep(s: State, t: State, u: State, batches: seq<seq<string>>, n: nat)
    requires n < |batches| && KnownFrom(s, t, batches, n) && (u == t || Known(t, u, batches[n]))
    ensures KnownFrom(s, u, batches, n + 1)
  {
    hide Has, IndexOf;
    forall id ensures Has(u.hosts, HostId, id) ==> Has(s.hosts, HostId, id) || exists i :: 0 <= i < n + 1 && id in batches[i] {
      if Has(u.hosts, HostId, id) && Has(t.hosts, HostId, id) {
        assert Has(s.hosts, HostId, id) || exists i :: 0 <= i < n && id in batches[i];
      }
    }
    forall id ensures Has(u.keys, KeyId, id) ==> Has(s.keys, KeyId, id) || exists i :: 0 <= i < n + 1 && id in batches[i] {
      if Has(u.keys, KeyId, id) && Has(t.keys, KeyId, id) {
        assert Has(s.keys, KeyId, id) || exists i :: 0 <= i < n && id in batches[i];
      }
    }
  }

  lemma PicksAliases(cands: seq<Candidate>, group: set<string>, name: string)
    requires AllFound(cands, group)
    ensures Has(Picks(cands, group), Alias, name) <==> name in group
  {
    PicksMembers(cands, group);
    HasWitness(Picks(cands, group), Alias, name);
    if name in group {
      assert Has(cands, Alias, name);
      HasWitness(cands, Alias, name);
      var c := Find(cands, Alias, name).value;
      HasMember(Picks(cands, group), Alias, c);
    }
  }

  lemma GrownSelf(s: State, batches: seq<seq<string>>)
    requires Valid(s) && WellFormed(s)
    ensures Grown(s, s, {}) && KnownFrom(s, s, batches, 0)
  {
    hide Valid, Has, IndexOf;
  }

  lemma OncePerPathThrough(a: seq<Key>, b: seq<Key>, n: nat)
    requires n <= |a| && a <= b && OncePerPath(a, n) && OncePerPath(b, |a|)
    ensures OncePerPath(b, n)
  {
    forall i, j | 0 <= i < j < |b| && n <= j ensures b[i].path != b[j].path {
      assert j < |a| ==> b[i] == a[i] && b[j] == a[j];
    }
  }

  /** One group either is added as a whole or changes nothing. */
  lemma GrownStep(s: State, t: State, done: set<string>, cands: seq<Candidate>, group: set<string>, files: Files, ids: seq<string>)
    requires Grown(s, t, done) && 2 * |cands| <= |ids| && Fresh(t, ids)
    ensures var u := ImportGroup(t, cands, group, files, ids);
      if Imports(t, cands, group, files, ids) then Grown(s, u, done + group) && Known(t, u, ids) && AllFound(cands, group) else u == t
  {
    hide Valid, WellFormed, Has, IndexOf, Fresh, ApplySelected, Picks, OncePerPath, Known;
    if Imports(t, cands, group, files, ids) {
      ImportKeeps(t, cands, group, files, ids);
      var u := ImportGroup(t, cands, group, files, ids);
      AcceptedFound(t, cands, group, files, ids);
      OncePerPathThrough(t.keys, u.keys, |s.keys|);
      forall name ensures Has(u.hosts, HostName, name) <==> Has(s.hosts, HostName, name) || name in done + group {
        PicksAliases(cands, group, name);
      }
    }
  }

  lemma AcceptedFound(t: State, cands: seq<Candidate>, group: set<string>, files: Files, ids: seq<string>)
    requires 2 * |cands| <= |ids| && ApplySelected(t, cands, group, files, ids).Ok?
    ensures AllFound(cands, group)
  {
    hide AddAll, LinkAll, AllFound;
  }

  /** The whole run keeps the stored configuration sound and in place. */
  lemma {:induction false} RunKeeps(s: State, cands: seq<Candidate>, groups: seq<set<string>>, files: Files, batches: seq<seq<string>>)
    requires Valid(s) && WellFormed(s) && |groups| <= |batches| && FreshBatches(s, batches, cands)
    ensures Grown(s, After(s, cands, groups, files, batches), Done(s, cands, groups, files, batches))
    ensures KnownFrom(s, After(s, cands, groups, files, batches), batches, |groups|)
  {
    hide Grown, KnownFrom, Valid, WellFormed, ImportGroup, Imports;
    if groups == [] {
      GrownSelf(s, batches);
    } else {
      var n := |groups| - 1;
      RunKeeps(s, cands, groups[..n], files, batches);
      var t, done := After(s, cands, groups[..n], files, batches), Done(s, cands, groups[..n], files, batches);
      FreshStep(s, t, batches, cands, n);
      GrownStep(s, t, done, cands, groups[n], files, batches[n]);
      KnownFromStep(s, t, ImportGroup(t, cands, groups[n], files, batches[n]), batches, n);
      assert done + {} == done;
    }
  }

  // ---------------------------------------------------------------- the import as the program runs it

  ghost function Aliases(cands: seq<Candidate>): set<string> { set c | c in cands :: c.alias }

  ghost function Stored(hosts: seq<Host>, cands: seq<Candidate>): set<string> {
    set c | c in cands && Has(hosts, HostName, c.alias) :: c.alias
  }

  /** The hosts offered for import, and the groups they are committed in. */
  ghost function Members(s: State, cands: seq<Candidate>, files: Files): set<string> {
    Survivors(s.hosts, cands, Eligible(s.hosts, cands, files))
  }

  ghost function Plan(s: State, cands: seq<Candidate>, files: Files): seq<set<string>> {
    GroupsOf(cands, Members(s, cands, files), |cands|)
  }

  /** The state after a whole start-up import. */
  ghost function Started(s: State, cands: seq<Candidate>, files: Files, batches: seq<seq<string>>): State
    requires |cands| <= |batches| && forall i :: 0 <= i < |batches| ==> 2 * |cands| <= |batches[i]|
  {
    GroupsPartition(cands, Members(s, cands, files), |cands|);
    After(s, cands, Plan(s, cands, files), files, batches)
  }

  method StoredNamesOf(hosts: seq<Host>) returns (stored: set<string>)
    ensures StoredNames(stored, hosts)
  {
    stored := {};
    for i := 0 to |hosts|
      invariant StoredNames(stored, hosts[..i])
    {
      assert hosts[..i + 1] == hosts[..i] + [hosts[i]];
      forall name ensures Has(hosts[..i + 1], HostName, name) <==> Has(hosts[..i], HostName, name) || name == hosts[i].name {
        HasAppend(hosts[..i], HostName, hosts[i], name);
      }
      hide Has;
      stored := stored + {hosts[i].name};
    }
    assert hosts[..|hosts|] == hosts;
  }

  /** What the first loop has decided about some candidates. */
  ghost predicate Screened(hosts: seq<Host>, cands: seq<Candidate>, files: Files, existing: nat, eligible: set<string>, skipped: seq<string>) {
    && existing == |Stored(hosts, cands)| && eligible == Eligible(hosts, cands, files)
    && Listed(skipped, Aliases(cands) - Stored(hosts, cands) - Eligible(hosts, cands, files))
  }

  lemma AliasesStep(hosts: seq<Host>, cands: seq<Candidate>, c: Candidate, files: Files)
    ensures Aliases(cands + [c]) == Aliases(cands) + {c.alias}
    ensures Stored(hosts, cands + [c]) == Stored(hosts, cands) + if Has(hosts, HostName, c.alias) then {c.alias} else {}
    ensures Eligible(hosts, cands + [c], files) ==
      Eligible(hosts, cands, files) + if !Has(hosts, HostName, c.alias) && Ready(c, files) then {c.alias} else {}
  {
    hide Has, Ready;
    assert (cands + [c])[|cands|] == c;
    assert forall d :: d in cands + [c] <==> d in cands || d == c;
  }

  lemma PartsOfAliases(hosts: seq<Host>, cands: seq<Candidate>, files: Files)
    ensures Stored(hosts, cands) + Eligible(hosts, cands, files) <= Aliases(cands)
    ensures Stored(hosts, cands) !! Eligible(hosts, cands, files)
  {
    hide Has, Ready;
  }

  lemma ScreenedStep(hosts: seq<Host>, cands: seq<Candidate>, c: Candidate, files: Files, existing: nat, eligible: set<string>, skipped: seq<string>)
    requires Screened(hosts, cands, files, existing, eligible, skipped) && c.alias !in Aliases(cands)
    ensures Has(hosts, HostName, c.alias) ==> Screened(hosts, cands + [c], files, existing + 1, eligible, skipped)
    ensures !Has(hosts, HostName, c.alias) && Ready(c, files) ==> Screened(hosts, cands + [c], files, existing, eligible + {c.alias}, skipped)
    ensures !Has(hosts, HostName, c.alias) && !Ready(c, files) ==> Screened(hosts, cands + [c], files, existing, eligible, skipped + [c.alias])
  {
    hide Has, Ready, Listed, Aliases, Stored, Eligible;
    AliasesStep(hosts, cands, c, files);
    PartsOfAliases(hosts, cands, files);
    var all, x, e, a := Aliases(cands), Stored(hosts, cands), Eligible(hosts, cands, files), c.alias;
    RestStep(all, x, e, a);
    if !Has(hosts, HostName, c.alias) && !Ready(c, files) {
      ListedStep(skipped, all - x - e, a);
    }
  }

  lemma RestStep(all: set<string>, x: set<string>, e: set<string>, a: string)
    requires a !in all && x + e <= all
    ensures all + {a} - (x + {a}) - e == all - x - e
    ensures all + {a} - x - (e + {a}) == all - x - e
    ensures all + {a} - x - e == (all - x - e) + {a}
    ensures |x + {a}| == |x| + 1 && x + {} == x && e + {} == e
  {
    assert a !in x && a !in e;
  }

  lemma NewAlias(cands: seq<Candidate>, i: nat)
    requires Unique(cands, Alias) && i < |cands|
    ensures cands[i].alias !in Aliases(cands[..i])
  {
    forall c | c in cands[..i] ensures c.alias != cands[i].alias {
      var j :| 0 <= j < i && cands[j] == c;
      assert Alias(cands[j]) != Alias(cands[i]);
    }
  }

  method Screen(ghost hosts: seq<Host>, stored: set<string>, cands: seq<Candidate>, files: Files)
    returns (existing: nat, eligible: set<string>, skipped: seq<string>)
    requires StoredNames(stored, hosts) && Unique(cands, Alias)
    ensures Screened(hosts, cands, files, existing, eligible, skipped)
  {
    existing, eligible, skipped := 0, {}, [];
    hide Has, Ready, Unique;
    for i := 0 to |cands|
      invariant Screened(hosts, cands[..i], files, existing, eligible, skipped)
    {
      var c := cands[i];
      assert cands[..i + 1] == cands[..i] + [c];
      NewAlias(cands, i);
      ScreenedStep(hosts, cands[..i], c, files, existing, eligible, skipped);
      hide Screened;
      if c.alias in stored {
        existing := existing + 1;
      } else if Ready(c, files) {
        eligible := eligible + {c.alias};
      } else {
        skipped := skipped + [c.alias];
      }
    }
    assert cands[..|cands|] == cands;
  }

  /** One group in one update. */
  method CommitGroup(db: Database, cands: seq<Candidate>, group: set<string>, files: Files, ids: seq<string>) returns (ok: bool)
    requires 2 * |cands| <= |ids| && forall i :: 0 <= i < |ids| ==> ids[i] != ""
    modifies db
    ensures db.saved == ImportGroup(old(db.saved), cands, group, files, ids)
    ensures ok == Imports(old(db.saved), cands, group, files, ids)
  {
    hide Valid, ApplySelected;
    var draft := db.Snapshot();
    var edited := ApplyImport(draft, cands, group, files, ids);
    ok := db.Finish(draft, edited);
  }

  lemma BatchNonEmpty(s: State, batches: seq<seq<string>>, cands: seq<Candidate>, n: nat)
    requires FreshBatches(s, batches, cands) && n < |batches|
    ensures 2 * |cands| <= |batches[n]| && forall i :: 0 <= i < |batches[n]| ==> batches[n][i] != ""
  {
    hide Has;
    assert Fresh(s, batches[n]);
  }

  // ---------------------------------------------------------------- the group loop

  lemma AfterStep(s: State, cands: seq<Candidate>, groups: seq<set<string>>, group: set<string>, files: Files, batches: seq<seq<string>>)
    requires |groups| < |batches| && forall i :: 0 <= i < |batches| ==> 2 * |cands| <= |batches[i]|
    ensures var t, ids := After(s, cands, groups, files, batches), batches[|groups|];
      && After(s, cands, groups + [group], files, batches) == ImportGroup(t, cands, group, files, ids)
      && Done(s, cands, groups + [group], files, batches) ==
         Done(s, cands, groups, files, batches) + if Imports(t, cands, group, files, ids) then group else {}
  {
    hide ImportGroup, Imports;
    assert (groups + [group])[..|groups|] == groups;
  }

  lemma {:induction false} DoneCovered(s: State, cands: seq<Candidate>, groups: seq<set<string>>, files: Files, batches: seq<seq<string>>)
    requires |groups| <= |batches| && forall i :: 0 <= i < |batches| ==> 2 * |cands| <= |batches[i]|
    ensures Done(s, cands, groups, files, batches) <= Covered(groups)
  {
    hide After, Imports;
    if groups != [] {
      DoneCovered(s, cands, groups[..|groups| - 1], files, batches);
    }
  }

  lemma ListedConcat(xs: seq<string>, a: set<string>, ys: seq<string>, b: set<string>)
    requires Listed(xs, a) && Listed(ys, b) && a !! b
    ensures Listed(xs + ys, a + b)
  {
    var zs := xs + ys;
    forall i, j | 0 <= i < j < |zs| ensures zs[i] != zs[j] {
      if i < |xs| <= j {
        assert zs[i] in xs && zs[j] in ys;
      }
    }
  }

  /** What the loop has done for the groups of the first candidates. */
  ghost predicate Tally(s: State, cands: seq<Candidate>, groups: seq<set<string>>, files: Files, batches: seq<seq<string>>,
                        t: State, imported: nat, skipped: seq<string>)
    requires |groups| <= |batches| && forall i :: 0 <= i < |batches| ==> 2 * |cands| <= |batches[i]|
  {
    var done := Done(s, cands, groups, files, batches);
    && t == After(s, cands, groups, files, batches)
    && imported == |done| && Listed(skipped, Covered(groups) - done)
  }

  lemma TallyStep(s: State, cands: seq<Candidate>, groups: seq<set<string>>, files: Files, batches: seq<seq<string>>,
                  t: State, imported: nat, skipped: seq<string>, group: set<string>, listed: seq<string>)
    requires |groups| < |batches| && forall i :: 0 <= i < |batches| ==> 2 * |cands| <= |batches[i]|
    requires Tally(s, cands, groups, files, batches, t, imported, skipped)
    requires Listed(listed, group) && group !! Covered(groups)
    ensures var u, ids := ImportGroup(t, cands, group, files, batches[|groups|]), batches[|groups|];
      if Imports(t, cands, group, files, ids)
      then Tally(s, cands, groups + [group], files, batches, u, imported + |listed|, skipped)
      else Tally(s, cands, groups + [group], files, batches, u, imported, skipped + listed)
  {
    hide ImportGroup, Imports, Listed, After, Done, Covered;
    AfterStep(s, cands, groups, group, files, batches);
    DoneCovered(s, cands, groups, files, batches);
    CoveredStep(groups, group);
    ListedCount(listed, group);
    SplitStep(Covered(groups), Done(s, cands, groups, files, batches), group);
    if !Imports(t, cands, group, files, batches[|groups|]) {
      ListedConcat(skipped, Covered(groups) - Done(s, cands, groups, files, batches), listed, group);
    }
  }

  lemma SplitStep(all: set<string>, done: set<string>, group: set<string>)
    requires done <= all && group !! all
    ensures (all + group) - (done + group) == all - done && |done + group| == |done| + |group|
    ensures (all + group) - (done + {}) == (all - done) + group && (all - done) !! group && done + {} == done
  {
  }

  lemma TallyStart(s: State, cands: seq<Candidate>, files: Files, batches: seq<seq<string>>)
    requires forall i :: 0 <= i < |batches| ==> 2 * |cands| <= |batches[i]|
    ensures Tally(s, cands, [], files, batches, s, 0, [])
  {
  }

  /** Every group is committed or skipped as a whole. */
  method ImportGroups(db: Database, cands: seq<Candidate>, members: set<string>, files: Files, batches: seq<seq<string>>)
    returns (imported: nat, skipped: seq<string>)
    requires |cands| <= |batches| && FreshBatches(db.saved, batches, cands)
    modifies db
    ensures |GroupsOf(cands, members, |cands|)| <= |batches|
    ensures Tally(old(db.saved), cands, GroupsOf(cands, members, |cands|), files, batches, db.saved, imported, skipped)
  {
    hide Tally, ImportGroup, Imports, Component, Covered, Parts, Listed, Valid, NearExact, Near;
    ghost var s := db.saved;
    var table := Neighbors(cands, members);
    var visited: set<string>, n := {}, 0;
    imported, skipped := 0, [];
    ghost var groups := [];
    TallyStart(s, cands, files, batches);
    CoveredNone();
    for i := 0 to |cands|
      invariant groups == GroupsOf(cands, members, i) && n == |groups| <= i
      invariant visited == Covered(groups)
      invariant Tally(s, cands, groups, files, batches, db.saved, imported, skipped)
    {
      GroupsPartition(cands, members, i);
      GroupsPartition(cands, members, i + 1);
      PartsWhole(cands, members, groups);
      if cands[i].alias in members && cands[i].alias !in visited {
        var group, selected := Search(cands, members, table, visited, cands[i].alias);
        BatchNonEmpty(s, batches, cands, n);
        TallyStep(s, cands, groups, files, batches, db.saved, imported, skipped, selected, group);
        CoveredStep(groups, selected);
        var ok := CommitGroup(db, cands, selected, files, batches[n]);
        if ok {
          imported := imported + |group|;
        } else {
          skipped := skipped + group;
        }
        groups := groups + [selected];
        n, visited := n + 1, visited + selected;
      }
    }
  }

  lemma CoveredNone()
    ensures Covered([]) == {}
  {
  }

  lemma PartsWhole(cands: seq<Candidate>, members: set<string>, groups: seq<set<string>>)
    requires Parts(cands, members, groups)
    ensures Covered(groups) <= members && Whole(cands, members, Covered(groups))
  {
  }

  // ---------------------------------------------------------------- accounting

  /** The groups cover exactly the hosts offered for import. */
  lemma PlanCovers(s: State, cands: seq<Candidate>, files: Files)
    ensures Covered(Plan(s, cands, files)) == Members(s, cands, files) <= Eligible(s.hosts, cands, files)
    ensures |Plan(s, cands, files)| <= |cands|
  {
    var members := Members(s, cands, files);
    SurvivorsGreatest(s.hosts, cands, Eligible(s.hosts, cands, files));
    GroupsPartition(cands, members, |cands|);
    PartsWhole(cands, members, Plan(s, cands, files));
    hide Has, Ready, Survivors, GroupsOf, Parts, Covered;
    forall a | a in members ensures a in Covered(Plan(s, cands, files)) {
      assert a in Eligible(s.hosts, cands, files);
      var c :| c in cands && c.alias == a;
      var i :| 0 <= i < |cands| && cands[i] == c;
    }
  }

  lemma AliasCount(cands: seq<Candidate>)
    requires Unique(cands, Alias)
    ensures |Aliases(cands)| == |cands|
  {
    var xs := seq(|cands|, i requires 0 <= i < |cands| => cands[i].alias);
    forall i, j | 0 <= i < j < |xs| ensures xs[i] != xs[j] {
      assert Alias(cands[i]) != Alias(cands[j]);
    }
    forall a | a in Aliases(cands) ensures a in xs {
      var c :| c in cands && c.alias == a;
      var i :| 0 <= i < |cands| && cands[i] == c;
      assert xs[i] == a;
    }
    ListedCount(xs, Aliases(cands));
  }

  /** The hosts stored after the run are those stored before and those imported. */
  lemma StoredAfter(s: State, t: State, cands: seq<Candidate>, done: set<string>)
    requires Grown(s, t, done) && done <= Aliases(cands)
    ensures Stored(t.hosts, cands) == Stored(s.hosts, cands) + done
  {
    hide Has, Valid, WellFormed, OncePerPath;
  }

  lemma ListedParts(xs: seq<string>, ys: seq<string>, zs: seq<string>, all: set<string>, x: set<string>, e: set<string>, m: set<string>, d: set<string>)
    requires Listed(xs, all - x - e) && Listed(ys, e - m) && Listed(zs, m - d)
    requires d <= m <= e && x + e <= all && x !! e
    ensures Listed(xs + ys + zs, all - (x + d))
    ensures |x + d| == |x| + |d| && |xs + ys + zs| + |x| + |d| == |all|
  {
    hide Listed;
    ListedConcat(xs, all - x - e, ys, e - m);
    ListedConcat(xs + ys, (all - x - e) + (e - m), zs, m - d);
    assert (all - x - e) + (e - m) + (m - d) == all - (x + d);
    ListedCount(xs + ys + zs, all - (x + d));
    assert all == (all - (x + d)) + (x + d);
  }

  lemma BatchSizes(s: State, batches: seq<seq<string>>, cands: seq<Candidate>)
    requires FreshBatches(s, batches, cands)
    ensures forall i :: 0 <= i < |batches| ==> 2 * |cands| <= |batches[i]|
  {
    hide Fresh;
  }

  /** The whole start-up import: every host of the configuration is stored already, imported or
      skipped, and each is counted once. */
  method AutoImport(db: Database, cands: seq<Candidate>, files: Files, batches: seq<seq<string>>) returns (report: Report)
    requires Valid(db.saved) && WellFormed(db.saved) && Unique(cands, Alias)
    requires |cands| <= |batches| && FreshBatches(db.saved, batches, cands)
    modifies db
    ensures db.saved == Started(old(db.saved), cands, files, batches)
    ensures report.imported + report.existing + |report.skipped| == |cands|
    ensures report.existing == |Stored(old(db.saved).hosts, cands)|
    ensures report.imported == |Stored(db.saved.hosts, cands)| - |Stored(old(db.saved).hosts, cands)|
    ensures Listed(report.skipped, Aliases(cands) - Stored(db.saved.hosts, cands))
  {
    hide Valid, WellFormed, Unique, FreshBatches, After, Done, Listed, Grown, GroupsOf, Survivors, Eligible, Stored, Aliases, Covered;
    ghost var s := db.saved;
    var stored := StoredNamesOf(db.saved.hosts);
    var existing, screened, refused := Screen(s.hosts, stored, cands, files);
    var members, dropped := Eliminate(s.hosts, stored, cands, screened);
    PlanCovers(s, cands, files);
    var imported, failed := ImportGroups(db, cands, members, files, batches);
    ghost var groups := Plan(s, cands, files);
    BatchSizes(s, batches, cands);
    ghost var done := Done(s, cands, groups, files, batches);
    DoneCovered(s, cands, groups, files, batches);
    RunKeeps(s, cands, groups, files, batches);
    PartsOfAliases(s.hosts, cands, files);
    StoredAfter(s, db.saved, cands, done);
    ListedParts(refused, dropped, failed, Aliases(cands), Stored(s.hosts, cands), screened, members, done);
    AliasCount(cands);
    report := Report(imported, existing, refused + dropped + failed);
  }

  datatype StartupResult = NoFile | Unreadable | Imported(report: Report)

  /** The start-up import of a configuration file, which may be missing or unreadable. The reader lists
      every host once, so the import applies. */
  method ImportConfig(db: Database, classes: P.Classes, config: Option<string>, files: Files, batches: seq<seq<string>>)
    returns (r: StartupResult)
    requires Valid(db.saved) && WellFormed(db.saved)
    requires config.Some? && P.FileHosts(classes, config.value).Ok? ==>
      var cands := P.FileHosts(classes, config.value).value; |cands| <= |batches| && FreshBatches(db.saved, batches, cands)
    modifies db
    ensures r.NoFile? <==> config.None?
    ensures r.Unreadable? <==> config.Some? && P.FileHosts(classes, config.value).Err?
    ensures !r.Imported? ==> db.saved == old(db.saved)
    ensures r.Imported? ==>
      var cands := P.FileHosts(classes, config.value).value;
      && (forall i :: 0 <= i < |batches| ==> 2 * |cands| <= |batches[i]|) && |cands| <= |batches|
      && db.saved == Started(old(db.saved), cands, files, batches)
      && r.report.imported + r.report.existing + |r.report.skipped| == |cands|
  {
    hide Valid, WellFormed, P.Parse, ByteLen, FreshBatches, Started, Unique;
    if config.None? {
      return NoFile;
    }
    var hosts := P.Read(classes, config.value);
    if hosts.Err? {
      return Unreadable;
    }
    P.ParseDistinct(classes, config.value);
    BatchSizes(db.saved, batches, hosts.value);
    var report := AutoImport(db, hosts.value, files, batches);
    r := StartupResult.Imported(report);
  }
}
