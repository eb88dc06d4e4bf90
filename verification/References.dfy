/**
 Which updates leave a reference dangling. Only the jump of a host without identifier escapes the
 commit check, so only joining a bundle and deleting a host can do it.
 */
module References {
  import opened Wrappers
  import opened Text
  import opened Records
  import opened Model
  import opened Store
  import E = Editing
  import I = Importer
  import B = Backup
  import opened Sync
  import opened FeedSound
  import opened Bundles

  /** No host is lost, and no host without identifier is new. */
  ghost predicate HostsGrow(a: seq<Host>, b: seq<Host>) {
    && (forall id :: Has(a, HostId, id) ==> Has(b, HostId, id))
    && (forall h <- b :: h.id == "" ==> h in a)
  }

  lemma GrowthResolves(a: seq<Host>, b: seq<Host>)
    requires HostsGrow(a, b) && NoneHangs(a)
    ensures NoneHangs(b)
  {
    hide Has;
    assert forall h <- a :: !Hangs(a, h);
  }

  // ---------------------------------------------------------------- edits

  lemma ReplacedHas<T>(xs: seq<T>, key: string, value: T, id: T -> string, other: string)
    requires Replaced(xs, key, value, id).Ok? && (key != "" ==> id(value) == key)
    ensures Has(xs, id, other) ==> Has(Replaced(xs, key, value, id).value, id, other)
  {
    if Has(xs, id, other) {
      var i, r := IndexOf(xs, id, other), Replaced(xs, key, value, id).value;
      assert id(r[i]) == other;
      IndexOfAt(r, id, i);
    }
  }

  lemma ReplacedGrows(hosts: seq<Host>, key: string, value: Host)
    requires Replaced(hosts, key, value, HostId).Ok? && (key != "" ==> value.id == key) && value.id != ""
    ensures HostsGrow(hosts, Replaced(hosts, key, value, HostId).value)
  {
    var r := Replaced(hosts, key, value, HostId).value;
    forall id | Has(hosts, HostId, id) ensures Has(r, HostId, id) { ReplacedHas(hosts, key, value, HostId, id); }
    hide Has, IndexOf;
    assert forall h <- r :: h in hosts || h == value;
  }

  /** Deleting a host leaves a reference dangling exactly when a host without identifier jumps to it. */
  lemma DeletedHangs(hosts: seq<Host>, id: string)
    requires Unique(hosts, HostId) && Deleted(hosts, id, HostId).Ok? && NoneHangs(hosts)
    ensures NoneHangs(Deleted(hosts, id, HostId).value) <==>
      forall h <- hosts :: h.id == "" && h.id != id ==> h.jumpId != id
  {
    var r := Deleted(hosts, id, HostId).value;
    forall h ensures h in r <==> h in hosts && h.id != id { DeletedMembers(hosts, id, HostId, h); }
    forall other ensures Has(r, HostId, other) <==> Has(hosts, HostId, other) && other != id { DeletedFind(hosts, id, HostId, other); }
    hide Has, Deleted, Unique;
    assert forall h <- hosts :: !Hangs(hosts, h);
  }

  lemma EditHosts(s: State, e: E.Edit, newIds: seq<string>)
    requires |newIds| >= E.Needs(e) && E.Edited(s, e, newIds).Ok? && !e.SaveHost? && !e.DeleteHost?
    ensures E.Edited(s, e, newIds).value.hosts == s.hosts
  {
    hide Replaced, Deleted, Filter, E.Linked, IndexOf;
  }

  // ---------------------------------------------------------------- imports and feeds

  lemma {:induction false} AddAllGrowsBy(s: State, cands: seq<I.Candidate>, chosen: set<string>, files: I.Files, newIds: seq<string>)
    requires 2 * |cands| <= |newIds| && I.AddAll(s, cands, chosen, files, newIds).Ok?
    ensures var r := I.AddAll(s, cands, chosen, files, newIds).value;
      && s.hosts <= r.hosts && s.keys <= r.keys && r == s.(hosts := r.hosts, keys := r.keys)
      && forall i :: |s.hosts| <= i < |r.hosts| ==> r.hosts[i].id in newIds
  {
    hide I.IdOf, I.KeyFor;
    if cands != [] {
      AddAllGrowsBy(s, cands[..|cands| - 1], chosen, files, newIds);
    }
  }

  lemma {:induction false} LinkAllPrefix(hosts: seq<Host>, base: nat, ds: seq<I.Demand>)
    requires base <= |hosts| && I.LinkAll(hosts, base, ds).Some?
    ensures var r := I.LinkAll(hosts, base, ds).value; |r| == |hosts| && r[..base] == hosts[..base]
  {
    hide I.IdOf, IndexOf;
    if ds != [] {
      LinkAllPrefix(hosts, base, ds[..|ds| - 1]);
    }
  }

  lemma PrefixHas<T>(a: seq<T>, b: seq<T>, id: T -> string, key: string)
    requires a <= b
    ensures Has(a, id, key) ==> Has(b, id, key) && Find(b, id, key) == Find(a, id, key)
  {
    assert b == a + b[|a|..];
    IndexOfAppend(a, b[|a|..], id, key);
  }

  /** Stored hosts are an unchanged prefix of what an accepted import leaves. */
  lemma ImportPrefix(s: State, cands: seq<I.Candidate>, chosen: set<string>, files: I.Files, newIds: seq<string>)
    requires 2 * |cands| <= |newIds| && I.ApplySelected(s, cands, chosen, files, newIds).Ok?
    ensures var r := I.ApplySelected(s, cands, chosen, files, newIds).value;
      && s.hosts <= r.hosts && s.keys <= r.keys && r == s.(hosts := r.hosts, keys := r.keys)
      && forall i :: |s.hosts| <= i < |r.hosts| ==> r.hosts[i].id in newIds
  {
    AddAllGrowsBy(s, cands, chosen, files, newIds);
    var t := I.AddAll(s, cands, chosen, files, newIds).value;
    hide I.AddAll, I.LinkAll, I.Demands, I.AllFound, I.HopsKnown;
    var ds := I.Demands(cands, chosen);
    LinkAllPrefix(t.hosts, |s.hosts|, ds);
    I.LinkAllSame(t.hosts, |s.hosts|, ds);
    var linked := I.LinkAll(t.hosts, |s.hosts|, ds).value;
    assert s.hosts == t.hosts[..|s.hosts|] == linked[..|s.hosts|];
    forall i | |s.hosts| <= i < |linked| ensures linked[i].id in newIds {
      assert linked[i].id == t.hosts[i].id;
    }
  }

  lemma PrefixGrows(a: seq<Host>, b: seq<Host>)
    requires a <= b && forall i :: |a| <= i < |b| ==> b[i].id != ""
    ensures HostsGrow(a, b)
  {
    forall id | Has(a, HostId, id) ensures Has(b, HostId, id) { PrefixHas(a, b, HostId, id); }
    hide Has;
    forall h | h in b && h.id == "" ensures h in a {
      var i :| 0 <= i < |b| && b[i] == h;
      assert a[i] == h;
    }
  }

  lemma ImportGrows(s: State, cands: seq<I.Candidate>, chosen: set<string>, files: I.Files, newIds: seq<string>)
    requires 2 * |cands| <= |newIds| && I.ApplySelected(s, cands, chosen, files, newIds).Ok?
    requires forall i :: 0 <= i < |newIds| ==> newIds[i] != ""
    ensures HostsGrow(s.hosts, I.ApplySelected(s, cands, chosen, files, newIds).value.hosts)
  {
    ImportPrefix(s, cands, chosen, files, newIds);
    hide I.ApplySelected;
    PrefixGrows(s.hosts, I.ApplySelected(s, cands, chosen, files, newIds).value.hosts);
  }

  lemma BackupGrows(s: State, file: B.File, withSettings: bool, pathOk: B.PathTest)
    requires B.Import(s, file, withSettings, pathOk).Ok?
    ensures HostsGrow(s.hosts, B.Import(s, file, withSettings, pathOk).value.0.hosts)
  {
    hide Valid, Additions, IndexOf, FindLast, GoodId;
    var extra := Additions(s.hosts, file.hosts, HostId);
    AdditionsMembers(s.hosts, file.hosts, HostId);
    forall i | 0 <= i < |extra| ensures extra[i].id != "" {
      assert extra[i] in extra;
      var j :| 0 <= j < |file.hosts| && file.hosts[j] == extra[i];
      assert GoodId(HostId(file.hosts[j]));
      GoodNonEmpty(extra[i].id);
    }
    hide B.AllMergeable;
    PrefixGrows(s.hosts, s.hosts + extra);
  }

  lemma GoodNonEmpty(id: string)
    requires GoodId(id)
    ensures id != ""
  {
  }

  /** A feed brings only good identifiers and deletes nothing. */
  lemma FeedGrows(s: State, index: nat, feed: State, now: string)
    requires Applies(s, index, feed)
    ensures HostsGrow(s.hosts, Applied(s, index, feed, now).hosts)
  {
    var r := Applied(s, index, feed, now);
    FeedKeepsIds(s, index, feed, now);
    NoNameless(feed.hosts);
    HostLookup(s, index, feed, now, "");
    hide Applied, Applies, NonEmptyIds, GoodIds;
    forall id | Has(s.hosts, HostId, id) ensures Has(r.hosts, HostId, id) { HostLookup(s, index, feed, now, id); }
    forall h | h in r.hosts && h.id == "" ensures h in s.hosts {
      FindMember(r.hosts, HostId, h);
      HasWitness(s.hosts, HostId, "");
    }
  }

  lemma NoNameless(hosts: seq<Host>)
    requires GoodIds(hosts, HostId)
    ensures !Has(hosts, HostId, "")
  {
    hide IndexOf;
    HasWitness(hosts, HostId, "");
  }

  /** A host without identifier in the bundle jumps to a host that is neither stored nor in the bundle. */
  predicate BundleHangs(stored: seq<Host>, feed: seq<Host>) {
    exists h <- feed :: Hangs(feed, h) && !Has(stored, HostId, h.jumpId)
  }

  /** Joining a bundle leaves a reference dangling exactly when the bundle brings it. */
  lemma JoinHangs(s: State, feed: State)
    requires UniqueIds(s) && JoinAll(s, feed).Ok? && NoneHangs(s.hosts)
    ensures NoneHangs(JoinAll(s, feed).value.hosts) <==> !BundleHangs(s.hosts, feed.hosts)
  {
    hide Joined, Unique;
    var r := JoinAll(s, feed).value;
    JoinedMeaning(s.hosts, feed.hosts, HostId);
    forall id ensures Has(r.hosts, HostId, id) <==> Has(s.hosts, HostId, id) || Has(feed.hosts, HostId, id) {
      JoinedFind(s.hosts, feed.hosts, HostId, id);
    }
    hide Has, JoinAll;
    assert forall h <- s.hosts :: !Hangs(s.hosts, h);
    if BundleHangs(s.hosts, feed.hosts) {
      var h :| h in feed.hosts && Hangs(feed.hosts, h) && !Has(s.hosts, HostId, h.jumpId);
      assert h in r.hosts && Hangs(r.hosts, h);
    }
  }

  lemma {:induction false} AdoptedHosts(s: State, index: nat, keys: seq<Key>)
    requires index < |s.team| && AdoptKeys(s, index, keys).Ok?
    ensures AdoptKeys(s, index, keys).value.hosts == s.hosts && |AdoptKeys(s, index, keys).value.team| == |s.team|
  {
    hide Synced, Has, GoodId;
    if keys != [] {
      AdoptedHosts(s, index, keys[..|keys| - 1]);
    }
  }
}
