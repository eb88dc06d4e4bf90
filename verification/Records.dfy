/**
 Collections of records that carry an identifier: first-match lookup, the two ways an incoming
 collection is merged into a stored one, and filtering.
 A collection is a sequence because its order is stored and shown.
 */
module Records {
  import opened Wrappers

  /** Position of the first record with this identifier, or |xs|. */
  function IndexOf<T>(xs: seq<T>, id: T -> string, key: string): (i: nat)
    ensures i <= |xs|
    ensures forall j :: 0 <= j < i ==> id(xs[j]) != key
    ensures i < |xs| ==> id(xs[i]) == key
  {
    if xs == [] || id(xs[0]) == key then 0 else 1 + IndexOf(xs[1..], id, key)
  }

  function Find<T>(xs: seq<T>, id: T -> string, key: string): Option<T> {
    var i := IndexOf(xs, id, key);
    if i < |xs| then Some(xs[i]) else None
  }

  predicate Has<T>(xs: seq<T>, id: T -> string, key: string) {
    IndexOf(xs, id, key) < |xs|
  }

  /** No two records share an identifier. The program never checks this; it has to be kept. */
  predicate Unique<T>(xs: seq<T>, id: T -> string) {
    forall i, j :: 0 <= i < j < |xs| ==> id(xs[i]) != id(xs[j])
  }

  predicate NonEmptyIds<T>(xs: seq<T>, id: T -> string) {
    forall i :: 0 <= i < |xs| ==> id(xs[i]) != ""
  }

  lemma IndexOfAt<T>(xs: seq<T>, id: T -> string, i: nat)
    requires i < |xs|
    ensures IndexOf(xs, id, id(xs[i])) <= i
  {
  }

  lemma FindAt<T>(xs: seq<T>, id: T -> string, i: nat)
    requires Unique(xs, id) && i < |xs|
    ensures IndexOf(xs, id, id(xs[i])) == i && Find(xs, id, id(xs[i])) == Some(xs[i])
  {
    IndexOfAt(xs, id, i);
  }

  lemma FindMember<T>(xs: seq<T>, id: T -> string, x: T)
    requires Unique(xs, id) && x in xs
    ensures Find(xs, id, id(x)) == Some(x)
  {
    var i :| 0 <= i < |xs| && xs[i] == x;
    FindAt(xs, id, i);
  }

  lemma HasMember<T>(xs: seq<T>, id: T -> string, x: T)
    requires x in xs
    ensures Has(xs, id, id(x))
  {
    var i :| 0 <= i < |xs| && xs[i] == x;
    IndexOfAt(xs, id, i);
  }

  lemma HasWitness<T>(xs: seq<T>, id: T -> string, key: string)
    ensures Has(xs, id, key) ==> Find(xs, id, key).Some? && Find(xs, id, key).value in xs && id(Find(xs, id, key).value) == key
  {
  }

  /** Some record has this identifier. */
  ghost predicate Stored<T>(xs: seq<T>, id: T -> string, key: string) { exists x <- xs :: id(x) == key }

  lemma StoredHas<T>(xs: seq<T>, id: T -> string, key: string)
    ensures Stored(xs, id, key) <==> Has(xs, id, key)
  {
    HasWitness(xs, id, key);
    if x :| x in xs && id(x) == key { HasMember(xs, id, x); }
  }

  /** Appending can only answer lookups that found nothing before. */
  lemma IndexOfAppend<T>(xs: seq<T>, ys: seq<T>, id: T -> string, key: string)
    ensures IndexOf(xs + ys, id, key) ==
            if Has(xs, id, key) then IndexOf(xs, id, key) else |xs| + IndexOf(ys, id, key)
    ensures Find(xs + ys, id, key) == if Has(xs, id, key) then Find(xs, id, key) else Find(ys, id, key)
  {
    if xs == [] {
      assert xs + ys == ys;
    } else {
      assert (xs + ys)[1..] == xs[1..] + ys;
      IndexOfAppend(xs[1..], ys, id, key);
    }
  }

  lemma OneUnique<T>(xs: seq<T>, id: T -> string)
    requires |xs| <= 1
    ensures Unique(xs, id)
  {
  }

  lemma AppendUnique<T>(xs: seq<T>, id: T -> string, x: T)
    requires Unique(xs, id) && !Has(xs, id, id(x))
    ensures Unique(xs + [x], id)
  {
    forall i | 0 <= i < |xs| ensures id(xs[i]) != id(x) {
      IndexOfAt(xs, id, i);
    }
  }

  /** The last record with this identifier, the one a map filled in order keeps. */
  function FindLast<T>(xs: seq<T>, id: T -> string, key: string): Option<T> {
    if xs == [] then None
    else if id(xs[|xs| - 1]) == key then Some(xs[|xs| - 1])
    else FindLast(xs[..|xs| - 1], id, key)
  }

  lemma FindLastUnique<T>(xs: seq<T>, id: T -> string, key: string)
    requires Unique(xs, id)
    ensures FindLast(xs, id, key) == Find(xs, id, key)
  {
    if xs != [] {
      var n := |xs| - 1;
      assert xs == xs[..n] + [xs[n]];
      FindLastUnique(xs[..n], id, key);
      IndexOfAppend(xs[..n], [xs[n]], id, key);
      FindAt(xs, id, n);
    }
  }

  lemma FindLastHas<T>(xs: seq<T>, id: T -> string, key: string)
    ensures FindLast(xs, id, key).Some? <==> Has(xs, id, key)
    ensures FindLast(xs, id, key).Some? ==> FindLast(xs, id, key).value in xs && id(FindLast(xs, id, key).value) == key
  {
    if xs != [] {
      var n := |xs| - 1;
      assert xs == xs[..n] + [xs[n]];
      FindLastHas(xs[..n], id, key);
      IndexOfAppend(xs[..n], [xs[n]], id, key);
    }
  }

  /** The map a loop over `xs` fills with one entry per record. */
  function ById<T>(xs: seq<T>, id: T -> string): (m: map<string, T>)
    ensures forall k :: k in m <==> FindLast(xs, id, k).Some?
    ensures forall k <- m :: FindLast(xs, id, k) == Some(m[k])
  {
    if xs == [] then map[] else ById(xs[..|xs| - 1], id)[id(xs[|xs| - 1]) := xs[|xs| - 1]]
  }

  /** The loop that fills it. */
  method IndexRecords<T>(xs: seq<T>, id: T -> string) returns (records: map<string, T>)
    ensures records == ById(xs, id)
  {
    records := map[];
    for i := 0 to |xs|
      invariant records == ById(xs[..i], id)
    {
      assert xs[..i + 1][..i] == xs[..i];
      records := records[id(xs[i]) := xs[i]];
    }
    assert xs[..|xs|] == xs;
  }

  ghost function AllIds<T>(xs: seq<T>, id: T -> string): set<string> { set x | x in xs :: id(x) }

  lemma IdsStep<T>(xs: seq<T>, id: T -> string, i: nat)
    requires i < |xs| && Unique(xs[..i], id)
    ensures AllIds(xs[..i + 1], id) == AllIds(xs[..i], id) + {id(xs[i])}
    ensures id(xs[i]) in AllIds(xs[..i], id) ==> !Unique(xs, id)
    ensures id(xs[i]) !in AllIds(xs[..i], id) ==> Unique(xs[..i + 1], id)
  {
    assert xs[..i + 1] == xs[..i] + [xs[i]];
    if id(xs[i]) in AllIds(xs[..i], id) {
      var g :| g in xs[..i] && id(g) == id(xs[i]);
      var j :| 0 <= j < i && xs[j] == g;
      assert id(xs[j]) == id(xs[i]);
    } else {
      forall j | 0 <= j < i ensures id(xs[j]) != id(xs[i]) {
        assert xs[..i][j] in xs[..i];
      }
    }
  }

  // ---------------------------------------------------------------- overwrite-and-append

  /** The stored record with this position after `incoming` overwrote what it mentions. */
  function Overlaid<T>(stored: seq<T>, incoming: seq<T>, id: T -> string, i: nat): T
    requires i < |stored|
  {
    var key := id(stored[i]);
    if IndexOf(stored, id, key) == i && Has(incoming, id, key)
    then Find(incoming, id, key).value else stored[i]
  }

  function Overlay<T>(stored: seq<T>, incoming: seq<T>, id: T -> string): (r: seq<T>)
    ensures |r| == |stored|
  {
    seq(|stored|, i requires 0 <= i < |stored| => Overlaid(stored, incoming, id, i))
  }

  /** The incoming records whose identifier is not stored yet, in incoming order. */
  function Additions<T>(stored: seq<T>, incoming: seq<T>, id: T -> string): seq<T> {
    if incoming == [] then []
    else Additions(stored, incoming[..|incoming| - 1], id) +
         if Has(stored, id, id(incoming[|incoming| - 1])) then [] else [incoming[|incoming| - 1]]
  }

  function Synced<T>(stored: seq<T>, incoming: seq<T>, id: T -> string): seq<T> {
    Overlay(stored, incoming, id) + Additions(stored, incoming, id)
  }

  lemma AdditionsMembers<T>(stored: seq<T>, incoming: seq<T>, id: T -> string)
    ensures forall x <- Additions(stored, incoming, id) :: x in incoming && !Has(stored, id, id(x))
    ensures forall x <- incoming :: !Has(stored, id, id(x)) ==> x in Additions(stored, incoming, id)
  {
    if incoming != [] {
      var n := |incoming| - 1;
      AdditionsMembers(stored, incoming[..n], id);
      assert incoming == incoming[..n] + [incoming[n]];
    }
  }

  lemma AdditionsUnique<T>(stored: seq<T>, incoming: seq<T>, id: T -> string)
    requires Unique(incoming, id)
    ensures Unique(Additions(stored, incoming, id), id)
  {
    if incoming != [] {
      var n := |incoming| - 1;
      AdditionsUnique(stored, incoming[..n], id);
      AdditionsMembers(stored, incoming[..n], id);
      var a := Additions(stored, incoming[..n], id);
      forall i | 0 <= i < |a| ensures id(a[i]) != id(incoming[n]) {
        assert a[i] in a;
        assert a[i] in incoming[..n];
      }
    }
  }

  lemma SameIndex<T>(xs: seq<T>, ys: seq<T>, id: T -> string, key: string)
    requires |xs| == |ys| && forall i :: 0 <= i < |xs| ==> id(xs[i]) == id(ys[i])
    ensures IndexOf(xs, id, key) == IndexOf(ys, id, key)
  {
  }

  lemma OverlayIndex<T>(stored: seq<T>, incoming: seq<T>, id: T -> string, key: string)
    ensures IndexOf(Overlay(stored, incoming, id), id, key) == IndexOf(stored, id, key)
  {
    var o := Overlay(stored, incoming, id);
    assert forall i :: 0 <= i < |stored| ==> o[i] == Overlaid(stored, incoming, id, i);
    SameIndex(o, stored, id, key);
  }

  lemma AdditionsFind<T>(stored: seq<T>, incoming: seq<T>, id: T -> string, key: string)
    requires Unique(incoming, id) && !Has(stored, id, key)
    ensures Find(Additions(stored, incoming, id), id, key) == Find(incoming, id, key)
  {
    var a := Additions(stored, incoming, id);
    AdditionsUnique(stored, incoming, id);
    AdditionsMembers(stored, incoming, id);
    if Has(incoming, id, key) {
      var x := Find(incoming, id, key).value;
      assert x in incoming;
      FindMember(a, id, x);
    } else if Has(a, id, key) {
      var x := Find(a, id, key).value;
      assert x in a;
      FindMember(incoming, id, x);
    }
  }

  /** What an overwrite-and-append merge means for lookups: the incoming version wins. */
  lemma SyncedFind<T>(stored: seq<T>, incoming: seq<T>, id: T -> string, key: string)
    requires Unique(incoming, id)
    ensures Find(Synced(stored, incoming, id), id, key) ==
            if Has(incoming, id, key) then Find(incoming, id, key) else Find(stored, id, key)
  {
    var o := Overlay(stored, incoming, id);
    IndexOfAppend(o, Additions(stored, incoming, id), id, key);
    OverlayIndex(stored, incoming, id, key);
    var i := IndexOf(stored, id, key);
    if i < |stored| {
      assert o[i] == Overlaid(stored, incoming, id, i);
    } else {
      AdditionsFind(stored, incoming, id, key);
    }
  }

  /** Positions are stable: every stored identifier keeps its place and nothing is dropped. */
  lemma SyncedPositions<T>(stored: seq<T>, incoming: seq<T>, id: T -> string)
    ensures |stored| <= |Synced(stored, incoming, id)|
    ensures forall i :: 0 <= i < |stored| ==> id(Synced(stored, incoming, id)[i]) == id(stored[i])
    ensures forall i :: 0 <= i < |stored| && !Has(incoming, id, id(stored[i])) ==> Synced(stored, incoming, id)[i] == stored[i]
  {
    var o := Overlay(stored, incoming, id);
    forall i | 0 <= i < |stored| ensures Synced(stored, incoming, id)[i] == Overlaid(stored, incoming, id, i) {
      assert o[i] == Overlaid(stored, incoming, id, i);
    }
  }

  lemma SyncedUnique<T>(stored: seq<T>, incoming: seq<T>, id: T -> string)
    requires Unique(stored, id) && Unique(incoming, id)
    ensures Unique(Synced(stored, incoming, id), id)
  {
    var s := Synced(stored, incoming, id);
    var a := Additions(stored, incoming, id);
    SyncedPositions(stored, incoming, id);
    AdditionsUnique(stored, incoming, id);
    AdditionsMembers(stored, incoming, id);
    forall i, j | 0 <= i < j < |s| ensures id(s[i]) != id(s[j]) {
      if i < |stored| <= j {
        assert s[j] == a[j - |stored|] && a[j - |stored|] in a;
        assert id(s[i]) == id(stored[i]);
        IndexOfAt(stored, id, i);
        assert !Has(stored, id, id(s[j]));
      } else if |stored| <= i {
        assert s[i] == a[i - |stored|] && s[j] == a[j - |stored|];
      }
    }
  }

  /** Where each record of the merged collection comes from. */
  lemma SyncedMembers<T>(stored: seq<T>, incoming: seq<T>, id: T -> string, x: T)
    requires Unique(stored, id)
    requires x in Synced(stored, incoming, id)
    ensures x in incoming || (x in stored && !Has(incoming, id, id(x)))
  {
    var o, a := Overlay(stored, incoming, id), Additions(stored, incoming, id);
    AdditionsMembers(stored, incoming, id);
    var i :| 0 <= i < |o + a| && (o + a)[i] == x;
    if i < |o| {
      assert o[i] == Overlaid(stored, incoming, id, i);
      FindAt(stored, id, i);
    } else {
      assert x == a[i - |o|];
    }
  }

  lemma SyncedHolds<T>(stored: seq<T>, incoming: seq<T>, id: T -> string)
    requires Unique(stored, id) && Unique(incoming, id)
    ensures forall x :: x in incoming ==> x in Synced(stored, incoming, id)
    ensures forall x :: x in stored && !Has(incoming, id, id(x)) ==> x in Synced(stored, incoming, id)
  {
    forall x | x in incoming ensures x in Synced(stored, incoming, id) {
      FindMember(incoming, id, x);
      SyncedFind(stored, incoming, id, id(x));
    }
    forall x | x in stored && !Has(incoming, id, id(x)) ensures x in Synced(stored, incoming, id) {
      FindMember(stored, id, x);
      SyncedFind(stored, incoming, id, id(x));
    }
  }

  // ---------------------------------------------------------------- filtering

  function Filter<T>(xs: seq<T>, p: T -> bool): seq<T> {
    if xs == [] then []
    else Filter(xs[..|xs| - 1], p) + if p(xs[|xs| - 1]) then [xs[|xs| - 1]] else []
  }

  lemma FilterMembers<T>(xs: seq<T>, p: T -> bool)
    ensures forall x <- Filter(xs, p) :: x in xs && p(x)
    ensures forall x <- xs :: p(x) ==> x in Filter(xs, p)
  {
    if xs != [] {
      FilterMembers(xs[..|xs| - 1], p);
      assert xs == xs[..|xs| - 1] + [xs[|xs| - 1]];
    }
  }

  lemma FilterUnique<T>(xs: seq<T>, p: T -> bool, id: T -> string)
    requires Unique(xs, id)
    ensures Unique(Filter(xs, p), id)
  {
    if xs != [] {
      var n := |xs| - 1;
      FilterUnique(xs[..n], p, id);
      FilterMembers(xs[..n], p);
      var f := Filter(xs[..n], p);
      forall i | 0 <= i < |f| ensures id(f[i]) != id(xs[n]) {
        assert f[i] in xs[..n];
      }
    }
  }

  lemma FilterFind<T>(xs: seq<T>, p: T -> bool, id: T -> string, key: string)
    requires Unique(xs, id)
    ensures Find(Filter(xs, p), id, key) ==
            if Has(xs, id, key) && p(Find(xs, id, key).value) then Find(xs, id, key) else None
  {
    var f := Filter(xs, p);
    FilterMembers(xs, p);
    FilterUnique(xs, p, id);
    if Has(f, id, key) {
      var x := Find(f, id, key).value;
      assert x in f;
      FindMember(xs, id, x);
    }
    if Has(xs, id, key) && p(Find(xs, id, key).value) {
      var x := Find(xs, id, key).value;
      assert x in xs;
      FindMember(f, id, x);
    }
  }

  lemma FilterSame<T>(xs: seq<T>, p: T -> bool, q: T -> bool)
    requires forall x :: p(x) == q(x)
    ensures Filter(xs, p) == Filter(xs, q)
  {
  }

  lemma {:induction false} FilterSum<T>(xs: seq<T>, ys: seq<T>, p: T -> bool)
    ensures Filter(xs + ys, p) == Filter(xs, p) + Filter(ys, p)
  {
    if ys == [] {
      assert xs + ys == xs;
    } else {
      var n := |ys| - 1;
      assert (xs + ys)[..|xs + ys| - 1] == xs + ys[..n];
      FilterSum(xs, ys[..n], p);
    }
  }

  lemma FilterAll<T>(xs: seq<T>, p: T -> bool)
    requires forall x :: x in xs ==> p(x)
    ensures Filter(xs, p) == xs
  {
    if xs != [] {
      FilterAll(xs[..|xs| - 1], p);
      assert xs == xs[..|xs| - 1] + [xs[|xs| - 1]];
    }
  }
}
