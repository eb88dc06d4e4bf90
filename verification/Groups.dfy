/**
 Which hosts of a configuration are offered to the start-up import and in which groups: the largest
 set whose jumps stay inside it or in stored hosts, split into its connected parts.
 */
module Groups {
  import opened Wrappers
  import opened Text
  import opened Records
  import opened Model
  import opened Importer
  import opened ImportCommits

  /** A candidate that could be imported on its own account. */
  predicate Ready(c: Candidate, files: Files) {
    c.valid && Shape(c) && files.path(c.identityFile).Some? && files.usable(files.path(c.identityFile).value)
  }

  /** The new candidates that pass their own checks. */
  ghost function Eligible(hosts: seq<Host>, cands: seq<Candidate>, files: Files): set<string> {
    set c | c in cands && !Has(hosts, HostName, c.alias) && Ready(c, files) :: c.alias
  }

  predicate HopsIn(hosts: seq<Host>, c: Candidate, members: set<string>) {
    forall hop <- c.jumps :: hop in members || Has(hosts, HostName, hop)
  }

  /** Every jump of a member is a member or stored. */
  predicate Closed(hosts: seq<Host>, cands: seq<Candidate>, members: set<string>) {
    forall c <- cands :: c.alias in members ==> HopsIn(hosts, c, members)
  }

  /** The greatest closed part: everything that belongs to some closed part. */
  ghost function Survivors(hosts: seq<Host>, cands: seq<Candidate>, from: set<string>): set<string> {
    set a | a in from && exists d :: d <= from && a in d && Closed(hosts, cands, d)
  }

  lemma SurvivorsGreatest(hosts: seq<Host>, cands: seq<Candidate>, from: set<string>)
    ensures Survivors(hosts, cands, from) <= from
    ensures Closed(hosts, cands, Survivors(hosts, cands, from))
    ensures forall d :: d <= from && Closed(hosts, cands, d) ==> d <= Survivors(hosts, cands, from)
  {
    var top := Survivors(hosts, cands, from);
    forall c | c in cands && c.alias in top ensures HopsIn(hosts, c, top) {
      var d :| d <= from && c.alias in d && Closed(hosts, cands, d);
      assert HopsIn(hosts, c, d);
      hide Has, IndexOf;
      assert d <= top;
    }
  }

  /** Aliases without repetition. */
  ghost predicate Listed(xs: seq<string>, members: set<string>) {
    && (forall i, j :: 0 <= i < j < |xs| ==> xs[i] != xs[j])
    && (forall a :: a in xs <==> a in members)
  }

  lemma ListedStep(xs: seq<string>, members: set<string>, a: string)
    requires Listed(xs, members) && a !in members
    ensures Listed(xs + [a], members + {a})
  {
  }

  lemma {:induction false} ListedCount(xs: seq<string>, members: set<string>)
    requires Listed(xs, members)
    ensures |xs| == |members|
  {
    if xs == [] {
      assert members == {};
    } else {
      var n := |xs| - 1;
      assert xs == xs[..n] + [xs[n]];
      ListedCount(xs[..n], members - {xs[n]});
    }
  }

  lemma HopOutside(hosts: seq<Host>, cands: seq<Candidate>, from: set<string>, c: Candidate, hop: string)
    requires c in cands && hop in c.jumps && hop !in Survivors(hosts, cands, from) && !Has(hosts, HostName, hop)
    ensures c.alias !in Survivors(hosts, cands, from)
  {
    SurvivorsGreatest(hosts, cands, from);
    hide Survivors, Has, IndexOf;
    assert c.alias in Survivors(hosts, cands, from) ==> HopsIn(hosts, c, Survivors(hosts, cands, from));
  }

  /** The first hop of a candidate that is neither eligible nor stored, if any. */
  method MissingHop(stored: set<string>, eligible: set<string>, c: Candidate) returns (r: Option<string>)
    ensures r.Some? ==> r.value in c.jumps && r.value !in eligible && r.value !in stored
    ensures r.None? ==> forall hop <- c.jumps :: hop in eligible || hop in stored
  {
    for i := 0 to |c.jumps|
      invariant forall j :: 0 <= j < i ==> c.jumps[j] in eligible || c.jumps[j] in stored
    {
      if c.jumps[i] !in eligible && c.jumps[i] !in stored {
        return Some(c.jumps[i]);
      }
    }
    r := None;
  }

  /** The names of the stored hosts. */
  ghost predicate StoredNames(stored: set<string>, hosts: seq<Host>) {
    forall name :: name in stored <==> Has(hosts, HostName, name)
  }

  /** Candidates with an unknown hop are dropped until nothing changes, whatever their order. */
  method Eliminate(ghost hosts: seq<Host>, stored: set<string>, cands: seq<Candidate>, start: set<string>)
    returns (eligible: set<string>, dropped: seq<string>)
    requires StoredNames(stored, hosts)
    ensures eligible == Survivors(hosts, cands, start)
    ensures Listed(dropped, start - eligible)
  {
    SurvivorsGreatest(hosts, cands, start);
    hide Survivors, Has, IndexOf, Listed;
    eligible, dropped := start, [];
    ghost var top := Survivors(hosts, cands, start);
    var changed := true;
    ListedNone();
    assert start - start == {};
    while changed
      invariant top <= eligible <= start
      invariant Listed(dropped, start - eligible)
      invariant !changed ==> Closed(hosts, cands, eligible)
      decreases |eligible|, changed
    {
      changed := false;
      ghost var before := eligible;
      for i := 0 to |cands|
        invariant top <= eligible <= before <= start
        invariant Listed(dropped, start - eligible)
        invariant changed <==> eligible != before
        invariant !changed ==> forall j :: 0 <= j < i && cands[j].alias in eligible ==> HopsIn(hosts, cands[j], eligible)
      {
        var c := cands[i];
        if c.alias in eligible {
          var hop := MissingHop(stored, eligible, c);
          if hop.Some? {
            HopOutside(hosts, cands, start, c, hop.value);
            ListedStep(dropped, start - eligible, c.alias);
            assert start - (eligible - {c.alias}) == (start - eligible) + {c.alias};
            eligible, dropped, changed := eligible - {c.alias}, dropped + [c.alias], true;
          }
        }
      }
      if changed {
        Smaller(eligible, before);
      }
    }
  }

  lemma ListedNone()
    ensures Listed([], {})
  {
  }

  lemma {:induction false} Smaller(a: set<string>, b: set<string>)
    requires a <= b && a != b
    ensures |a| < |b|
  {
    assert b == a + (b - a);
    assert b - a != {};
  }

  // ---------------------------------------------------------------- connected parts

  predicate JumpsVia(cands: seq<Candidate>, a: string, b: string) {
    exists c <- cands :: c.alias == a && b in c.jumps
  }

  /** Two members of which one jumps through the other. */
  predicate Adjacent(cands: seq<Candidate>, members: set<string>, a: string, b: string) {
    a in members && b in members && (JumpsVia(cands, a, b) || JumpsVia(cands, b, a))
  }

  /** A way from a member to another along adjacent members. */
  ghost predicate Way(cands: seq<Candidate>, members: set<string>, way: seq<string>, a: string, b: string) {
    && way != [] && way[0] == a && way[|way| - 1] == b && a in members
    && forall i :: 0 < i < |way| ==> Adjacent(cands, members, way[i - 1], way[i])
  }

  ghost predicate Connected(cands: seq<Candidate>, members: set<string>, a: string, b: string) {
    exists way :: Way(cands, members, way, a, b)
  }

  /** The connected part of a member. */
  ghost function Component(cands: seq<Candidate>, members: set<string>, a: string): set<string> {
    set b | b in members && Connected(cands, members, a, b)
  }

  /** No adjacent member is outside. */
  ghost predicate Whole(cands: seq<Candidate>, members: set<string>, part: set<string>) {
    forall a, b :: a in part && Adjacent(cands, members, a, b) ==> b in part
  }

  lemma ConnectedSelf(cands: seq<Candidate>, members: set<string>, a: string)
    requires a in members
    ensures Connected(cands, members, a, a)
  {
    assert Way(cands, members, [a], a, a);
  }

  lemma ConnectedStep(cands: seq<Candidate>, members: set<string>, a: string, b: string, c: string)
    requires Connected(cands, members, a, b) && Adjacent(cands, members, b, c)
    ensures Connected(cands, members, a, c)
  {
    hide Adjacent;
    var way :| Way(cands, members, way, a, b);
    assert Way(cands, members, way + [c], a, c);
  }

  lemma ConnectedBack(cands: seq<Candidate>, members: set<string>, a: string, b: string)
    requires Connected(cands, members, a, b)
    ensures b in members && Connected(cands, members, b, a)
  {
    var way :| Way(cands, members, way, a, b);
    var back := Reverse(way);
    if |way| > 1 { assert Adjacent(cands, members, way[|way| - 2], way[|way| - 1]); }
    forall i | 0 < i < |back| ensures Adjacent(cands, members, back[i - 1], back[i]) {
      assert Adjacent(cands, members, way[|way| - 1 - i], way[|way| - i]);
    }
    assert Way(cands, members, back, b, a);
  }

  lemma ConnectedThrough(cands: seq<Candidate>, members: set<string>, a: string, b: string, c: string)
    requires Connected(cands, members, a, b) && Connected(cands, members, b, c)
    ensures Connected(cands, members, a, c)
  {
    hide Adjacent;
    var p :| Way(cands, members, p, a, b);
    var q :| Way(cands, members, q, b, c);
    var way := p + q[1..];
    forall i | 0 < i < |way| ensures Adjacent(cands, members, way[i - 1], way[i]) {
      if i < |p| {
        assert way[i] == p[i] && way[i - 1] == p[i - 1];
      } else {
        assert way[i] == q[i - |p| + 1];
        assert way[i - 1] == q[i - |p|];
      }
    }
    assert way[|way| - 1] == q[|q| - 1];
    assert Way(cands, members, way, a, c);
  }

  /** A whole part that holds one end of a way holds the other. */
  lemma {:induction false} WayInside(cands: seq<Candidate>, members: set<string>, part: set<string>, way: seq<string>, a: string, b: string)
    requires Way(cands, members, way, a, b) && Whole(cands, members, part) && a in part
    ensures b in part
    decreases |way|
  {
    hide Adjacent;
    if |way| > 1 {
      assert Adjacent(cands, members, way[0], way[1]);
      assert way[1] in members by { AdjacentMembers(cands, members, way[0], way[1]); }
      assert Way(cands, members, way[1..], way[1], b);
      WayInside(cands, members, part, way[1..], way[1], b);
    }
  }

  lemma AdjacentMembers(cands: seq<Candidate>, members: set<string>, a: string, b: string)
    requires Adjacent(cands, members, a, b)
    ensures a in members && b in members && Adjacent(cands, members, b, a)
  {
  }

  /** The connected part is the smallest whole part around a member. */
  lemma ComponentExact(cands: seq<Candidate>, members: set<string>, a: string)
    requires a in members
    ensures a in Component(cands, members, a) && Whole(cands, members, Component(cands, members, a))
    ensures forall part :: a in part && Whole(cands, members, part) ==> Component(cands, members, a) <= part
  {
    ConnectedSelf(cands, members, a);
    var comp := Component(cands, members, a);
    forall b, c | b in comp && Adjacent(cands, members, b, c) ensures c in comp {
      ConnectedStep(cands, members, a, b, c);
    }
    forall part, b | a in part && Whole(cands, members, part) && b in comp ensures b in part {
      var way :| Way(cands, members, way, a, b);
      WayInside(cands, members, part, way, a, b);
    }
  }

  /** Connected members have the same connected part. */
  lemma ComponentSame(cands: seq<Candidate>, members: set<string>, a: string, b: string)
    requires b in Component(cands, members, a)
    ensures Component(cands, members, b) == Component(cands, members, a)
  {
    hide Way, Adjacent;
    ConnectedBack(cands, members, a, b);
    forall c | c in members ensures Connected(cands, members, a, c) <==> Connected(cands, members, b, c) {
      if Connected(cands, members, a, c) { ConnectedThrough(cands, members, b, a, c); }
      if Connected(cands, members, b, c) { ConnectedThrough(cands, members, a, b, c); }
    }
  }

  // ---------------------------------------------------------------- the search

  function Near(table: map<string, seq<string>>, a: string): seq<string> {
    if a in table then table[a] else []
  }

  /** The table lists exactly the adjacent members. */
  ghost predicate NearExact(table: map<string, seq<string>>, cands: seq<Candidate>, members: set<string>) {
    forall a, b :: b in Near(table, a) <==> Adjacent(cands, members, a, b)
  }

  lemma JumpsViaAppend(cands: seq<Candidate>, c: Candidate, a: string, b: string)
    ensures JumpsVia(cands + [c], a, b) <==> JumpsVia(cands, a, b) || (c.alias == a && b in c.jumps)
  {
    assert (cands + [c])[|cands|] == c;
    assert forall d <- cands :: d in cands + [c];
  }

  /** One more jump of the last candidate. */
  lemma AdjacentMore(cands: seq<Candidate>, c: Candidate, n: nat, members: set<string>, a: string, b: string)
    requires n < |c.jumps| && c.alias in members
    ensures Adjacent(cands + [c.(jumps := c.jumps[..n + 1])], members, a, b) <==>
      || Adjacent(cands + [c.(jumps := c.jumps[..n])], members, a, b)
      || (c.jumps[n] in members && ((a == c.alias && b == c.jumps[n]) || (b == c.alias && a == c.jumps[n])))
  {
    hide JumpsVia;
    var more, less := c.(jumps := c.jumps[..n + 1]), c.(jumps := c.jumps[..n]);
    assert c.jumps[..n + 1] == c.jumps[..n] + [c.jumps[n]];
    JumpsViaAppend(cands, more, a, b);
    JumpsViaAppend(cands, more, b, a);
    JumpsViaAppend(cands, less, a, b);
    JumpsViaAppend(cands, less, b, a);
  }

  lemma AdjacentNoJumps(cands: seq<Candidate>, c: Candidate, members: set<string>, a: string, b: string)
    requires c.jumps == [] || c.alias !in members
    ensures Adjacent(cands + [c], members, a, b) <==> Adjacent(cands, members, a, b)
  {
    JumpsViaAppend(cands, c, a, b);
    JumpsViaAppend(cands, c, b, a);
    hide JumpsVia;
  }

  lemma NearLink(table: map<string, seq<string>>, a: string, b: string)
    ensures var one := table[a := Near(table, a) + [b]]; var two := one[b := Near(one, b) + [a]];
      forall x, y :: y in Near(two, x) <==> y in Near(table, x) || (x == a && y == b) || (x == b && y == a)
  {
  }

  method NeighborsOf(table: map<string, seq<string>>, ghost before: seq<Candidate>, c: Candidate, members: set<string>)
    returns (r: map<string, seq<string>>)
    requires NearExact(table, before, members) && c.alias in members
    ensures NearExact(r, before + [c], members)
  {
    hide Adjacent, Near;
    r := table;
    forall a, b ensures Adjacent(before + [c.(jumps := c.jumps[..0])], members, a, b) <==> Adjacent(before, members, a, b) {
      AdjacentNoJumps(before, c.(jumps := c.jumps[..0]), members, a, b);
    }
    for i := 0 to |c.jumps|
      invariant NearExact(r, before + [c.(jumps := c.jumps[..i])], members)
    {
      var hop := c.jumps[i];
      forall a, b
        ensures Adjacent(before + [c.(jumps := c.jumps[..i + 1])], members, a, b) <==>
          || Adjacent(before + [c.(jumps := c.jumps[..i])], members, a, b)
          || (hop in members && ((a == c.alias && b == hop) || (b == c.alias && a == hop)))
      {
        AdjacentMore(before, c, i, members, a, b);
      }
      if hop in members {
        NearLink(r, c.alias, hop);
        r := r[c.alias := Near(r, c.alias) + [hop]];
        r := r[hop := Near(r, hop) + [c.alias]];
      }
    }
    assert c.(jumps := c.jumps[..|c.jumps|]) == c;
  }

  method Neighbors(cands: seq<Candidate>, members: set<string>) returns (table: map<string, seq<string>>)
    ensures NearExact(table, cands, members)
  {
    table := map[];
    assert NearExact(table, cands[..0], members);
    hide Adjacent, Near;
    for i := 0 to |cands|
      invariant NearExact(table, cands[..i], members)
    {
      assert cands[..i + 1] == cands[..i] + [cands[i]];
      if cands[i].alias in members {
        table := NeighborsOf(table, cands[..i], cands[i], members);
      } else {
        forall a, b ensures Adjacent(cands[..i + 1], members, a, b) <==> Adjacent(cands[..i], members, a, b) {
          AdjacentNoJumps(cands[..i], cands[i], members, a, b);
        }
      }
    }
    assert cands[..|cands|] == cands;
  }

  /** Everything adjacent to what was found is found or waiting. */
  ghost predicate Frontier(cands: seq<Candidate>, members: set<string>, found: set<string>, queue: seq<string>) {
    forall a, b :: a in found && Adjacent(cands, members, a, b) ==> b in found || b in queue
  }

  /** The search from one member. Earlier searches visited whole parts, so it finds its own part. */
  method Search(cands: seq<Candidate>, members: set<string>, table: map<string, seq<string>>, visited: set<string>, start: string)
    returns (group: seq<string>, selected: set<string>)
    requires NearExact(table, cands, members) && visited <= members && Whole(cands, members, visited)
    requires start in members && start !in visited
    ensures selected == Component(cands, members, start)
    ensures Listed(group, selected) && selected !! visited
  {
    hide Adjacent, Near, Component;
    group, selected := [], {};
    ComponentExact(cands, members, start);
    ghost var comp := Component(cands, members, start);
    ApartFrom(cands, members, visited, start);
    var queue := [start];
    while queue != []
      invariant selected <= comp && forall a <- queue :: a in comp
      invariant start in selected || start in queue
      invariant Listed(group, selected)
      invariant Frontier(cands, members, selected, queue)
      decreases |comp - selected|, |queue|
    {
      var alias := queue[0];
      assert queue == [alias] + queue[1..];
      if alias in visited || alias in selected {
        queue := queue[1..];
      } else {
        ListedStep(group, selected, alias);
        Smaller(comp - (selected + {alias}), comp - selected);
        FrontierStep(cands, members, table, selected, queue, comp);
        group, selected, queue := group + [alias], selected + {alias}, queue[1..] + Near(table, alias);
      }
    }
    assert Whole(cands, members, selected);
  }

  lemma FrontierStep(cands: seq<Candidate>, members: set<string>, table: map<string, seq<string>>, found: set<string>,
                     queue: seq<string>, comp: set<string>)
    requires NearExact(table, cands, members) && queue != [] && Frontier(cands, members, found, queue)
    requires Whole(cands, members, comp) && forall a <- queue :: a in comp
    ensures Frontier(cands, members, found + {queue[0]}, queue[1..] + Near(table, queue[0]))
    ensures forall a <- queue[1..] + Near(table, queue[0]) :: a in comp
  {
    hide Adjacent, Near;
    assert queue == [queue[0]] + queue[1..];
  }

  lemma ApartFrom(cands: seq<Candidate>, members: set<string>, visited: set<string>, start: string)
    requires visited <= members && Whole(cands, members, visited) && start !in visited
    ensures Component(cands, members, start) !! visited
  {
    hide Connected;
    forall b | b in Component(cands, members, start) ensures b in visited ==> start in visited {
      ConnectedInside(cands, members, visited, start, b);
    }
  }

  lemma ConnectedInside(cands: seq<Candidate>, members: set<string>, part: set<string>, a: string, b: string)
    requires Connected(cands, members, a, b) && Whole(cands, members, part)
    ensures b in part ==> a in part
  {
    hide Way, Adjacent;
    ConnectedBack(cands, members, a, b);
    var way :| Way(cands, members, way, b, a);
    if b in part {
      WayInside(cands, members, part, way, b, a);
    }
  }

  // ---------------------------------------------------------------- the groups

  /** The union of some groups. */
  ghost function Covered(groups: seq<set<string>>): set<string> {
    if groups == [] then {} else Covered(groups[..|groups| - 1]) + groups[|groups| - 1]
  }

  /** The groups found by the first `n` candidates, in order. */
  ghost function GroupsOf(cands: seq<Candidate>, members: set<string>, n: nat): seq<set<string>>
    requires n <= |cands|
  {
    if n == 0 then []
    else
      var before := GroupsOf(cands, members, n - 1);
      var a := cands[n - 1].alias;
      if a in members && a !in Covered(before) then before + [Component(cands, members, a)] else before
  }

  /** Every group is the connected part of one of its members. */
  ghost predicate IsGroup(cands: seq<Candidate>, members: set<string>, group: set<string>) {
    exists a :: a in group && a in members && group == Component(cands, members, a)
  }

  ghost predicate Disjoint(groups: seq<set<string>>) {
    forall i, j :: 0 <= i < j < |groups| ==> groups[i] !! groups[j]
  }

  lemma CoveredStep(groups: seq<set<string>>, group: set<string>)
    ensures Covered(groups + [group]) == Covered(groups) + group
  {
    assert (groups + [group])[..|groups|] == groups;
  }

  lemma {:induction false} CoveredMember(groups: seq<set<string>>, a: string)
    ensures a in Covered(groups) <==> exists i :: 0 <= i < |groups| && a in groups[i]
  {
    if groups != [] {
      var n := |groups| - 1;
      CoveredMember(groups[..n], a);
      if a in groups[n] { assert a in groups[|groups| - 1]; }
      if i :| 0 <= i < n && a in groups[..n][i] { assert a in groups[i]; }
      if i :| 0 <= i < |groups| && a in groups[i] { assert i < n ==> a in groups[..n][i]; }
    }
  }

  lemma WholeUnion(cands: seq<Candidate>, members: set<string>, a: set<string>, b: set<string>)
    requires Whole(cands, members, a) && Whole(cands, members, b)
    ensures Whole(cands, members, a + b)
  {
    hide Adjacent;
  }

  /** Connected parts that do not overlap. */
  ghost predicate Parts(cands: seq<Candidate>, members: set<string>, groups: seq<set<string>>) {
    && Disjoint(groups)
    && Covered(groups) <= members && Whole(cands, members, Covered(groups))
    && (forall i :: 0 <= i < |groups| ==> IsGroup(cands, members, groups[i]))
  }

  lemma PartsStep(cands: seq<Candidate>, members: set<string>, before: seq<set<string>>, a: string)
    requires Parts(cands, members, before) && a in members && a !in Covered(before)
    ensures Parts(cands, members, before + [Component(cands, members, a)])
    ensures Covered(before + [Component(cands, members, a)]) == Covered(before) + Component(cands, members, a)
    ensures a in Component(cands, members, a)
  {
    hide Adjacent, Component, Whole, Covered;
    var comp := Component(cands, members, a);
    ComponentExact(cands, members, a);
    ApartFrom(cands, members, Covered(before), a);
    CoveredStep(before, comp);
    WholeUnion(cands, members, Covered(before), comp);
    ComponentMembers(cands, members, a);
    forall i | 0 <= i < |before| ensures before[i] !! comp {
      CoveredAll(before, i);
    }
    assert IsGroup(cands, members, comp);
  }

  lemma PartsNone(cands: seq<Candidate>, members: set<string>)
    ensures Parts(cands, members, [])
  {
  }

  /** The groups are connected parts, pairwise disjoint, and leave no listed member out. */
  lemma {:induction false} GroupsPartition(cands: seq<Candidate>, members: set<string>, n: nat)
    requires n <= |cands|
    ensures Parts(cands, members, GroupsOf(cands, members, n)) && |GroupsOf(cands, members, n)| <= n
    ensures forall i :: 0 <= i < n && cands[i].alias in members ==> cands[i].alias in Covered(GroupsOf(cands, members, n))
  {
    hide Parts, Covered, Component;
    if n == 0 {
      PartsNone(cands, members);
    } else {
      GroupsPartition(cands, members, n - 1);
      var before := GroupsOf(cands, members, n - 1);
      var a := cands[n - 1].alias;
      if a in members && a !in Covered(before) {
        PartsStep(cands, members, before, a);
      }
    }
  }

  lemma WholeNone(cands: seq<Candidate>, members: set<string>)
    ensures Whole(cands, members, {})
  {
  }

  lemma ComponentMembers(cands: seq<Candidate>, members: set<string>, a: string)
    ensures Component(cands, members, a) <= members
  {
  }

  lemma CoveredAll(groups: seq<set<string>>, i: nat)
    requires i < |groups|
    ensures groups[i] <= Covered(groups)
  {
    forall a | a in groups[i] ensures a in Covered(groups) {
      CoveredMember(groups, a);
    }
  }

  /** The group of a member is its connected part. */
  lemma GroupOf(cands: seq<Candidate>, members: set<string>, n: nat, i: nat, a: string)
    requires n <= |cands| && i < |GroupsOf(cands, members, n)| && a in GroupsOf(cands, members, n)[i]
    ensures a in members && GroupsOf(cands, members, n)[i] == Component(cands, members, a)
  {
    GroupsPartition(cands, members, n);
    var group := GroupsOf(cands, members, n)[i];
    hide Component, GroupsOf, Whole, Covered;
    assert IsGroup(cands, members, group);
    var b :| b in group && b in members && group == Component(cands, members, b);
    ComponentMembers(cands, members, b);
    ComponentSame(cands, members, b, a);
  }
}
