/**
 Exactly when an import is committed: it is accepted, its hosts pass the record checks, every route
 ends within the hop limit, and every new key gets a usable label.
 */
module ImportCommits {
  import opened Wrappers
  import opened Text
  import opened Records
  import opened Model
  import opened Store
  import opened Importer
  import opened ImportSound
  import opened ImportLinks
  import opened ImportRoutes

  /** The name of the host with this identifier, or "". */
  function NameOf(hosts: seq<Host>, id: string): string {
    match Find(hosts, HostId, id)
    case None => ""
    case Some(h) => if id == "" then "" else h.name
  }

  /** The name a host is reached through: its stored jump, or what the chosen lists demand. */
  function Upstream(hosts: seq<Host>, ds: seq<Demand>, name: string): string {
    match Find(hosts, HostName, name)
    case Some(h) => NameOf(hosts, h.jumpId)
    case None => ViaOf(ds, name).UnwrapOr("")
  }

  /** Following names upstream ends at a direct host within `fuel` hosts. */
  predicate Reaches(hosts: seq<Host>, ds: seq<Demand>, name: string, fuel: nat)
    decreases fuel
  {
    name == "" || (fuel > 0 && Reaches(hosts, ds, Upstream(hosts, ds, name), fuel - 1))
  }

  /** A candidate makes a host that passes the record checks. */
  predicate Shape(c: Candidate) { ValidHost(NewHost(c, "", "pending")) }

  /** Every key that has to be registered gets a usable label. */
  predicate LabelsFit(keys: seq<Key>, picks: seq<Candidate>, files: Files) {
    picks == [] || (
      var c := picks[|picks| - 1];
      && LabelsFit(keys, picks[..|picks| - 1], files)
      && LabelFits(keys, picks[..|picks| - 1], c, files))
  }

  predicate LabelFits(keys: seq<Key>, picks: seq<Candidate>, c: Candidate, files: Files) {
    match files.path(c.identityFile)
    case None => true
    case Some(path) => Has(keys, KeyPath, path) || PathUsed(picks, files, path) || ValidKey(NewKey(c, "", path))
  }

  /** The conditions under which an import is committed, all on the configuration and the state before. */
  predicate Committable(s: State, cands: seq<Candidate>, chosen: set<string>, files: Files) {
    var picks, ds := Picks(cands, chosen), Demands(cands, chosen);
    && Addable(s, cands, chosen, files) && Consistent(ds) && StoredLinks(s.hosts, ds)
    && (forall c <- picks :: Shape(c) && Reaches(s.hosts, ds, c.alias, MAX_HOPS))
    && LabelsFit(s.keys, picks, files)
  }

  /** The longest alias whose key label is certain to be accepted, in bytes. */
  const LABEL_ROOM := 156

  lemma ShortLabel(c: Candidate, path: string)
    requires Shape(c) && ByteLen(c.alias) <= LABEL_ROOM && path != ""
    ensures ValidKey(NewKey(c, "", path))
  {
    ByteLenAppend(c.alias, " key");
    ByteLenAppend(" ", "key");
    hide Address, Avoids;
    assert ByteLen(" key") == 4;
    var name := c.alias + " key";
    assert !Blank(name) by {
      var i :| 0 <= i < |c.alias| && !IsSpace(c.alias[i]);
      assert name[i] == c.alias[i];
    }
    AvoidsConcat(c.alias, " key", "\0\r\n");
  }

  lemma AvoidsConcat(a: string, b: string, chars: string)
    requires Avoids(a, chars) && Avoids(b, chars)
    ensures Avoids(a + b, chars)
  {
  }

  ghost predicate KeysValid(keys: seq<Key>) { forall k <- keys :: ValidKey(k) }

  lemma KeysValidAppend(keys: seq<Key>, k: Key)
    ensures KeysValid(keys + [k]) <==> KeysValid(keys) && ValidKey(k)
  {
    hide ValidKey;
    assert (keys + [k])[|keys|] == k;
    assert forall x :: x in keys + [k] <==> x in keys || x == k;
  }

  /** The keys after the first pass pass their check exactly when every new label is usable. */
  lemma {:induction false} LabelsExact(s: State, cands: seq<Candidate>, chosen: set<string>, files: Files, newIds: seq<string>)
    requires WellFormed(s) && Unique(s.hosts, HostName) && 2 * |cands| <= |newIds| && Fresh(s, newIds)
    requires AddAll(s, cands, chosen, files, newIds).Ok? && KeysValid(s.keys)
    ensures KeysValid(AddAll(s, cands, chosen, files, newIds).value.keys) <==> LabelsFit(s.keys, Picks(cands, chosen), files)
  {
    NoLabels(s.keys, files);
    hide AddOne, KeysValid, Fresh, WellFormed, Unique, Extended, Paths, Known, LabelsFit, Importable;
    if cands != [] {
      var n := |cands| - 1;
      LabelsExact(s, cands[..n], chosen, files, newIds);
      AddAllExact(s, cands[..n], chosen, files, newIds);
      var t, picks, c := AddAll(s, cands[..n], chosen, files, newIds).value, Picks(cands[..n], chosen), cands[n];
      if c.alias in chosen {
        FreshNext(s, t, newIds, n);
        LabelStep(s, t, picks, c, files, newIds[2 * n], newIds[2 * n + 1]);
      } else {
        assert picks + [] == picks;
      }
    }
  }

  lemma NoLabels(keys: seq<Key>, files: Files)
    ensures LabelsFit(keys, [], files)
  {
  }

  lemma LabelStep(s: State, t: State, picks: seq<Candidate>, c: Candidate, files: Files, keyId: string, hostId: string)
    requires Extended(s, t, picks, files) && Paths(s, t, picks, files)
    requires keyId != "" && hostId != "" && !Has(t.keys, KeyId, keyId) && !Has(t.hosts, HostId, hostId)
    requires AddOne(t, c, files, keyId, hostId).Ok?
    ensures KeysValid(AddOne(t, c, files, keyId, hostId).value.keys) <==> KeysValid(t.keys) && LabelFits(s.keys, picks, c, files)
    ensures LabelsFit(s.keys, picks + [c], files) <==> LabelsFit(s.keys, picks, files) && LabelFits(s.keys, picks, c, files)
  {
    AddOneExtends(s, t, picks, c, files, keyId, hostId);
    assert (picks + [c])[..|picks|] == picks;
    hide AddOne, Extended, Has, IndexOf, KeysValid, PathUsed;
    var path := files.path(c.identityFile).value by { AddOneFile(t, c, files, keyId, hostId); }
    KeysValidAppend(t.keys, NewKey(c, keyId, path));
  }

  lemma AddOneFile(t: State, c: Candidate, files: Files, keyId: string, hostId: string)
    requires AddOne(t, c, files, keyId, hostId).Ok?
    ensures files.path(c.identityFile).Some?
  {
    hide IdOf;
  }

  // ---------------------------------------------------------------- routes by name

  /** The links of `r`, read as names, are the upstream names. */
  ghost predicate ReadsAs(r: seq<Host>, hosts: seq<Host>, ds: seq<Demand>) {
    && (forall i :: 0 <= i < |r| ==> r[i].name != "")
    && (forall i :: 0 <= i < |r| ==> r[i].jumpId == "" || Has(r, HostId, r[i].jumpId))
    && (forall i :: 0 <= i < |r| ==> Upstream(hosts, ds, r[i].name) == NameOf(r, r[i].jumpId))
  }

  lemma {:induction false} WalkReaches(r: seq<Host>, hosts: seq<Host>, ds: seq<Demand>, i: nat, fuel: nat)
    requires Distinct(r) && ReadsAs(r, hosts, ds) && i < |r|
    ensures Walk(r, r[i].id, fuel).Some? <==> Reaches(hosts, ds, r[i].name, fuel)
    decreases fuel
  {
    FindAt(r, HostId, i);
    NonEmptyAt(r, HostId, i);
    hide Distinct, IndexOf, Upstream;
    if fuel > 0 {
      if r[i].jumpId != "" {
        var j := IndexOf(r, HostId, r[i].jumpId);
        WalkReaches(r, hosts, ds, j, fuel - 1);
      }
    }
  }

  lemma NameOfSame(a: seq<Host>, b: seq<Host>, id: string)
    requires SameButLinks(a, b)
    ensures NameOf(b, id) == NameOf(a, id) && (Has(b, HostId, id) <==> Has(a, HostId, id))
  {
    assert forall i :: 0 <= i < |a| ==> b[i].id == a[i].id && b[i].name == a[i].name;
    SameIndex(a, b, HostId, id);
  }

  lemma StoredReads(s: State, r: seq<Host>, ds: seq<Demand>, i: nat)
    requires Distinct(s.hosts) && Distinct(r) && JumpsResolve(s.hosts) && i < |s.hosts| <= |r|
    requires forall k :: 0 <= k < |s.hosts| ==> r[k] == s.hosts[k]
    ensures r[i].jumpId == "" || Has(r, HostId, r[i].jumpId)
    ensures Upstream(s.hosts, ds, r[i].name) == NameOf(r, r[i].jumpId)
  {
    FindAt(s.hosts, HostName, i);
    assert r == s.hosts + r[|s.hosts|..];
    IndexOfAppend(s.hosts, r[|s.hosts|..], HostId, r[i].jumpId);
    hide IndexOf, Distinct;
  }

  lemma NotStored(s: seq<Host>, t: seq<Host>, i: nat)
    requires Distinct(t) && |s| <= i < |t| && forall k :: 0 <= k < |s| ==> t[k] == s[k]
    ensures Find(s, HostName, t[i].name).None?
  {
    FindAt(t, HostName, i);
    assert t == s + t[|s|..];
    IndexOfAppend(s, t[|s|..], HostName, t[i].name);
  }

  lemma NamedVia(t: seq<Host>, ds: seq<Demand>, name: string)
    requires Distinct(t) && Named(t, ds) && ViaOf(ds, name).Some?
    ensures var via := ViaOf(ds, name).value; Has(t, HostId, IdOf(t, via)) && NameOf(t, IdOf(t, via)) == via
  {
    ViaOfMember(ds, name);
    var via := ViaOf(ds, name).value;
    assert Demand(name, via) in ds;
    IdOfName(t, via);
    hide IdOf, IndexOf, ViaOf;
  }

  lemma NewReads(s: State, t: seq<Host>, ds: seq<Demand>, r: seq<Host>, i: nat)
    requires Distinct(t) && Linked(t, |s.hosts|, ds, r) && Named(t, ds) && |s.hosts| <= i < |r|
    requires forall k :: 0 <= k < |s.hosts| ==> t[k] == s.hosts[k]
    ensures r[i].jumpId == "" || Has(r, HostId, r[i].jumpId)
    ensures Upstream(s.hosts, ds, r[i].name) == NameOf(r, r[i].jumpId)
  {
    LinkedSame(t, |s.hosts|, ds, r);
    hide IndexOf, Distinct, IdOf, ViaOf, Named, SameButLinks, NameOf, Has, Find;
    var name := t[i].name;
    assert r[i] == t[i].(jumpId := LinkFor(t, |s.hosts|, ds, i));
    NotStored(s.hosts, t, i);
    NameOfSame(t, r, r[i].jumpId);
    if ViaOf(ds, name).Some? {
      NamedVia(t, ds, name);
    } else {
      NameOfNone(r);
    }
  }

  lemma NameOfNone(hosts: seq<Host>)
    ensures NameOf(hosts, "") == ""
  {
  }

  /** After linking, the jump links say what the stored links and the lists demand. */
  lemma ImportedReads(s: State, t: State, picks: seq<Candidate>, files: Files, ds: seq<Demand>, r: seq<Host>)
    requires Extended(s, t, picks, files) && Linked(t.hosts, |s.hosts|, ds, r) && Named(t.hosts, ds)
    requires JumpsResolve(s.hosts)
    requires forall i :: 0 <= i < |t.hosts| ==> t.hosts[i].name != ""
    ensures Distinct(r) && ReadsAs(r, s.hosts, ds) && |s.hosts| <= |r|
    ensures forall i :: 0 <= i < |s.hosts| ==> r[i] == s.hosts[i]
  {
    ExtendedDistinct(s, t, picks, files);
    DistinctPrefix(s, t, picks, files);
    LinkedSame(t.hosts, |s.hosts|, ds, r);
    DistinctSame(t.hosts, r);
    hide Extended, Distinct, Upstream, NameOf, Has, IndexOf, Named, JumpsResolve;
    assert forall i :: 0 <= i < |s.hosts| ==> r[i] == t.hosts[i].(jumpId := LinkFor(t.hosts, |s.hosts|, ds, i));
    hide LinkFor, Linked;
    forall i | 0 <= i < |r|
      ensures r[i].jumpId == "" || Has(r, HostId, r[i].jumpId)
      ensures Upstream(s.hosts, ds, r[i].name) == NameOf(r, r[i].jumpId)
    {
      if i < |s.hosts| {
        StoredReads(s, r, ds, i);
      } else {
        NewReads(s, t.hosts, ds, r, i);
      }
    }
    assert forall i :: 0 <= i < |r| ==> r[i].name == t.hosts[i].name;
  }

  // ---------------------------------------------------------------- the record checks after an import

  lemma RouteKept(a: seq<Host>, b: seq<Host>, id: string)
    requires a <= b && Route(a, id).Some?
    ensures Route(b, id) == Route(a, id)
  {
    WalkLinks(a, id, MAX_HOPS);
    hide Walk, IndexOf;
    var w := Walk(a, id, MAX_HOPS).value;
    forall g | g in w ensures Find(b, HostId, g.id) == Some(g) {
      var k :| 0 <= k < |w| && w[k] == g;
      FindKept(a, b, HostId, g.id);
    }
    WalkSame(a, b, id, MAX_HOPS);
  }

  lemma FindKept<T>(a: seq<T>, b: seq<T>, id: T -> string, key: string)
    requires a <= b
    ensures Has(a, id, key) ==> Has(b, id, key) && Find(b, id, key) == Find(a, id, key)
  {
    assert b == a + b[|a|..];
    IndexOfAppend(a, b[|a|..], id, key);
  }

  /** Stored hosts keep passing. */
  lemma StoredHostOk(s: State, r: State, h: Host)
    requires s.hosts <= r.hosts && s.keys <= r.keys && HostOk(s.keys, s.hosts, h)
    ensures HostOk(r.keys, r.hosts, h)
  {
    FindKept(s.keys, r.keys, KeyId, h.keyId);
    RouteKept(s.hosts, r.hosts, h.id);
    hide Route, IndexOf, ValidHost;
  }

  /** An imported host passes exactly when its candidate has the right shape and its route ends. */
  lemma NewHostOk(r: State, hosts: seq<Host>, ds: seq<Demand>, c: Candidate, i: nat)
    requires Distinct(r.hosts) && ReadsAs(r.hosts, hosts, ds) && i < |r.hosts|
    requires r.hosts[i] == NewHost(c, r.hosts[i].id, r.hosts[i].keyId).(jumpId := r.hosts[i].jumpId)
    requires Has(r.keys, KeyId, r.hosts[i].keyId) && NonEmptyIds(r.keys, KeyId)
    ensures HostOk(r.keys, r.hosts, r.hosts[i]) <==> Shape(c) && Reaches(hosts, ds, c.alias, MAX_HOPS)
  {
    var h := r.hosts[i];
    WalkReaches(r.hosts, hosts, ds, i, MAX_HOPS);
    NonEmptyAt(r.keys, KeyId, IndexOf(r.keys, KeyId, h.keyId));
    NonEmptyAt(r.hosts, HostId, i);
    if Walk(r.hosts, h.id, MAX_HOPS).Some? {
      FindAt(r.hosts, HostId, i);
      NoSelfJump(r.hosts, h, MAX_HOPS);
    }
    hide Walk, IndexOf, Distinct, ReadsAs, Reaches, Name, Address;
  }

  lemma NoSelfJump(hosts: seq<Host>, h: Host, fuel: nat)
    requires Find(hosts, HostId, h.id) == Some(h) && h.id != "" && Walk(hosts, h.id, fuel).Some?
    ensures h.jumpId != h.id
  {
    WalkLinks(hosts, h.id, fuel);
    WalkDistinct(hosts, h.id, fuel);
    var w := Walk(hosts, h.id, fuel).value;
    hide Walk, IndexOf;
    assert w[0] == h;
    assert |w| > 1 ==> HostId(w[0]) != HostId(w[1]);
  }

  lemma ShapeOf(c: Candidate, h: Host)
    requires h == NewHost(c, h.id, h.keyId).(jumpId := h.jumpId)
    ensures ValidHost(h) ==> Shape(c)
    ensures Shape(c) ==> h.name != ""
  {
    hide Address;
  }

  lemma ValidHostName(h: Host)
    ensures ValidHost(h) ==> h.name != ""
  {
    hide Address;
  }

  /** The host made from the i-th chosen candidate. */
  lemma ImportedHost(s: State, t: State, picks: seq<Candidate>, files: Files, ds: seq<Demand>, r: State, i: nat)
    requires Extended(s, t, picks, files) && r == t.(hosts := r.hosts) && i < |picks|
    requires Linked(t.hosts, |s.hosts|, ds, r.hosts)
    ensures |r.hosts| == |t.hosts| == |s.hosts| + |picks|
    ensures var h := r.hosts[|s.hosts| + i];
      && h == NewHost(picks[i], h.id, h.keyId).(jumpId := h.jumpId)
      && Has(r.keys, KeyId, h.keyId)
      && (HostOk(r.keys, r.hosts, h) ==> Shape(picks[i]))
    ensures Shape(picks[i]) ==> t.hosts[|s.hosts| + i].name != ""
  {
    hide Shape, ValidHost, Route, Has, LinkFor, Unique, OncePerPath, WellFormed;
    var n := |s.hosts|;
    assert MadeFrom(t.hosts[n + i], picks[i], t.keys, files);
    assert r.hosts[n + i] == t.hosts[n + i].(jumpId := LinkFor(t.hosts, n, ds, n + i));
    ShapeOf(picks[i], r.hosts[n + i]);
    ShapeOf(picks[i], t.hosts[n + i]);
  }

  /** If every candidate has the right shape, the hosts after an import are checked one by one. */
  lemma ImportedHostOk(s: State, t: State, picks: seq<Candidate>, files: Files, ds: seq<Demand>, r: State, i: nat)
    requires Extended(s, t, picks, files) && r == t.(hosts := r.hosts) && i < |r.hosts|
    requires Linked(t.hosts, |s.hosts|, ds, r.hosts) && Named(t.hosts, ds)
    requires JumpsResolve(s.hosts) && forall h <- s.hosts :: HostOk(s.keys, s.hosts, h)
    requires forall c <- picks :: Shape(c)
    ensures |r.hosts| == |s.hosts| + |picks|
    ensures HostOk(r.keys, r.hosts, r.hosts[i]) <==>
            i < |s.hosts| || Reaches(s.hosts, ds, picks[i - |s.hosts|].alias, MAX_HOPS)
  {
    hide *;
    var n := |s.hosts|;
    ExtendedOnly(s, t, picks, files);
    WellFormedKeys(t);
    ExtendedNamed(s, t, picks, files);
    ImportedReads(s, t, picks, files, ds, r.hosts);
    LinkedPrefix(s, t, picks, files, ds, r.hosts);
    LinkedSame(t.hosts, n, ds, r.hosts);
    if i < n {
      assert r.hosts[i] in s.hosts;
      StoredHostOk(s, r, r.hosts[i]);
    } else {
      ImportedHost(s, t, picks, files, ds, r, i - n);
      NewHostOk(r, s.hosts, ds, picks[i - n], i);
    }
  }

  lemma ExtendedNamed(s: State, t: State, picks: seq<Candidate>, files: Files)
    requires Extended(s, t, picks, files)
    requires forall h <- s.hosts :: HostOk(s.keys, s.hosts, h)
    requires forall c <- picks :: Shape(c)
    ensures |t.hosts| == |s.hosts| + |picks|
    ensures forall i :: 0 <= i < |t.hosts| ==> t.hosts[i].name != ""
  {
    hide Shape, ValidHost, Route, Has, Unique, OncePerPath, WellFormed;
    var n := |s.hosts|;
    forall i | 0 <= i < |t.hosts| ensures t.hosts[i].name != "" {
      if i < n {
        assert HostOk(s.keys, s.hosts, s.hosts[i]);
        ValidHostName(s.hosts[i]);
      } else {
        assert MadeFrom(t.hosts[n + (i - n)], picks[i - n], t.keys, files);
        ShapeOf(picks[i - n], t.hosts[i]);
      }
    }
  }

  lemma ImportedHostsOk(s: State, t: State, picks: seq<Candidate>, files: Files, ds: seq<Demand>, r: State)
    requires Extended(s, t, picks, files) && r == t.(hosts := r.hosts)
    requires Linked(t.hosts, |s.hosts|, ds, r.hosts) && Named(t.hosts, ds)
    requires JumpsResolve(s.hosts) && forall h <- s.hosts :: HostOk(s.keys, s.hosts, h)
    ensures (forall i :: 0 <= i < |r.hosts| ==> HostOk(r.keys, r.hosts, r.hosts[i])) <==>
            forall c <- picks :: Shape(c) && Reaches(s.hosts, ds, c.alias, MAX_HOPS)
  {
    hide Named, JumpsResolve, Shape, HostOk, Has, Reaches, LinkFor, Distinct, Extended, Linked;
    var n := |s.hosts|;
    if forall c <- picks :: Shape(c) {
      forall i | 0 <= i < |r.hosts|
        ensures |r.hosts| == n + |picks|
        ensures HostOk(r.keys, r.hosts, r.hosts[i]) <==> i < n || Reaches(s.hosts, ds, picks[i - n].alias, MAX_HOPS)
      {
        ImportedHostOk(s, t, picks, files, ds, r, i);
      }
      forall i | 0 <= i < |picks|
        ensures |r.hosts| == n + |picks|
        ensures HostOk(r.keys, r.hosts, r.hosts[n + i]) <==> Reaches(s.hosts, ds, picks[i].alias, MAX_HOPS)
      {
        ImportedHost(s, t, picks, files, ds, r, i);
      }
    } else {
      var c :| c in picks && !Shape(c);
      var i :| 0 <= i < |picks| && picks[i] == c;
      ImportedHost(s, t, picks, files, ds, r, i);
      assert !HostOk(r.keys, r.hosts, r.hosts[n + i]);
    }
  }

  lemma WellFormedKeys(s: State)
    requires WellFormed(s)
    ensures NonEmptyIds(s.keys, KeyId)
  {
  }

  /** The pieces of the commit check. */
  lemma ValidParts(s: State)
    ensures Valid(s) <==>
      && KeysValid(s.keys) && Unique(s.hosts, HostName)
      && (forall i :: 0 <= i < |s.hosts| ==> HostOk(s.keys, s.hosts, s.hosts[i]))
      && (forall x <- s.tunnels :: TunnelOk(s.hosts, x))
      && (forall v <- s.services :: ServiceOk(s.tunnels, v))
  {
    hide ValidKey, HostOk, TunnelOk, ServiceOk, Unique;
  }

  lemma TunnelsKept(s: State, r: State)
    requires s.hosts <= r.hosts && r.tunnels == s.tunnels
    requires forall x <- s.tunnels :: TunnelOk(s.hosts, x)
    ensures forall x <- r.tunnels :: TunnelOk(r.hosts, x)
  {
    hide IndexOf, ValidTunnel, Has;
    forall x | x in r.tunnels ensures TunnelOk(r.hosts, x) {
      assert TunnelOk(s.hosts, x);
      FindKept(s.hosts, r.hosts, HostId, x.hostId);
    }
  }

  lemma LinkedPrefix(s: State, t: State, picks: seq<Candidate>, files: Files, ds: seq<Demand>, r: seq<Host>)
    requires Extended(s, t, picks, files) && Linked(t.hosts, |s.hosts|, ds, r)
    ensures s.hosts <= r && Distinct(r)
  {
    ExtendedDistinct(s, t, picks, files);
    LinkedSame(t.hosts, |s.hosts|, ds, r);
    DistinctSame(t.hosts, r);
    hide Extended, Distinct;
    forall i | 0 <= i < |s.hosts| ensures r[i] == s.hosts[i] {
      assert r[i] == t.hosts[i].(jumpId := LinkFor(t.hosts, |s.hosts|, ds, i));
    }
  }

  /** An import is committed exactly under conditions on the configuration and the state before it. */
  lemma CommitExact(s: State, cands: seq<Candidate>, chosen: set<string>, files: Files, newIds: seq<string>)
    requires Valid(s) && WellFormed(s) && 2 * |cands| <= |newIds| && Fresh(s, newIds)
    ensures var r := ApplySelected(s, cands, chosen, files, newIds);
      r.Ok? && Valid(r.value) <==> Committable(s, cands, chosen, files)
  {
    ImportAccepted(s, cands, chosen, files, newIds);
    var r := ApplySelected(s, cands, chosen, files, newIds);
    if r.Ok? {
      ValidParts(s);
      ValidJumps(s);
      var picks, ds, t := Picks(cands, chosen), Demands(cands, chosen), AddAll(s, cands, chosen, files, newIds).value;
      LabelsExact(s, cands, chosen, files, newIds);
      hide Valid, HostOk, TunnelOk, ServiceOk, KeysValid, Unique, WellFormed, Fresh, Extended, Linked, Addable, Consistent,
        StoredLinks, LabelsFit, Picks, Demands, JumpsResolve, ApplySelected, AddAll, Named, Shape, Reaches, Distinct;
      ImportedHostsOk(s, t, picks, files, ds, r.value);
      LinkedPrefix(s, t, picks, files, ds, r.value.hosts);
      DistinctNames(r.value.hosts);
      ExtendedOnly(s, t, picks, files);
      TunnelsKept(s, r.value);
      ValidParts(r.value);
    }
  }

  lemma DistinctNames(hosts: seq<Host>)
    requires Distinct(hosts)
    ensures Unique(hosts, HostName)
  {
  }

  lemma ExtendedOnly(s: State, t: State, picks: seq<Candidate>, files: Files)
    requires Extended(s, t, picks, files)
    ensures t == s.(keys := t.keys, hosts := t.hosts) && s.keys <= t.keys && WellFormed(t)
  {
  }

  /** An accepted import keeps identifiers well formed and everything stored before in place. */
  lemma ImportKeeps(s: State, cands: seq<Candidate>, chosen: set<string>, files: Files, newIds: seq<string>)
    requires Valid(s) && WellFormed(s) && 2 * |cands| <= |newIds| && Fresh(s, newIds)
    requires ApplySelected(s, cands, chosen, files, newIds).Ok?
    ensures var r := ApplySelected(s, cands, chosen, files, newIds).value;
      && WellFormed(r) && r == s.(keys := r.keys, hosts := r.hosts)
      && s.hosts <= r.hosts && s.keys <= r.keys
      && |r.hosts| == |s.hosts| + |Picks(cands, chosen)|
      && OncePerPath(r.keys, |s.keys|)
      && (forall path :: Has(r.keys, KeyPath, path) <==> Has(s.keys, KeyPath, path) || PathUsed(Picks(cands, chosen), files, path))
      && (forall name :: Has(r.hosts, HostName, name) <==> Has(s.hosts, HostName, name) || Has(Picks(cands, chosen), Alias, name))
      && Known(s, r, newIds)
  {
    ImportAccepted(s, cands, chosen, files, newIds);
    var picks, ds, t := Picks(cands, chosen), Demands(cands, chosen), AddAll(s, cands, chosen, files, newIds).value;
    var r := ApplySelected(s, cands, chosen, files, newIds).value;
    hide Valid, Fresh, Linked, Picks, Demands, ApplySelected, AddAll, Named, Distinct, Has, IndexOf, OncePerPath, Unique, NonEmptyIds;
    LinkedSame(t.hosts, |s.hosts|, ds, r.hosts);
    LinkedPrefix(s, t, picks, files, ds, r.hosts);
    DistinctWellFormed(t, r);
    forall name ensures Has(r.hosts, HostName, name) <==> Has(s.hosts, HostName, name) || Has(picks, Alias, name) {
      ExtendedNames(s, t, picks, files, name);
      HasSameNames(t.hosts, r.hosts, name);
    }
    forall id ensures Has(r.hosts, HostId, id) <==> Has(t.hosts, HostId, id) {
      NameOfSame(t.hosts, r.hosts, id);
    }
  }

  lemma DistinctWellFormed(t: State, r: State)
    requires WellFormed(t) && Distinct(r.hosts) && r == t.(hosts := r.hosts)
    ensures WellFormed(r)
  {
  }
}
