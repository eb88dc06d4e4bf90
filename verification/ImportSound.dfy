/**
 What an import means: exactly when it is accepted and committed, what it adds, and which routes
 the imported hosts get. Statements are in terms of names, the only thing a configuration has.
 */
module ImportSound {
  import opened Wrappers
  import opened Text
  import opened Records
  import opened Model
  import opened Store
  import opened Importer

  /** The chosen candidates in configuration order. */
  function Picks(cands: seq<Candidate>, chosen: set<string>): seq<Candidate> {
    if cands == [] then []
    else
      Picks(cands[..|cands| - 1], chosen) +
      if cands[|cands| - 1].alias in chosen then [cands[|cands| - 1]] else []
  }

  lemma PicksMembers(cands: seq<Candidate>, chosen: set<string>)
    ensures forall c :: c in Picks(cands, chosen) <==> c in cands && c.alias in chosen
  {
    if cands != [] {
      var n := |cands| - 1;
      PicksMembers(cands[..n], chosen);
      assert cands == cands[..n] + [cands[n]];
    }
  }

  /** Generated identifiers: non-empty, distinct and not in use. */
  predicate Fresh(s: State, ids: seq<string>) {
    && (forall i :: 0 <= i < |ids| ==> ids[i] != "" && !Has(s.hosts, HostId, ids[i]) && !Has(s.keys, KeyId, ids[i]))
    && (forall i, j :: 0 <= i < j < |ids| ==> ids[i] != ids[j])
  }

  /** What one candidate needs to be added at all. */
  predicate Importable(hosts: seq<Host>, c: Candidate, files: Files) {
    && c.valid && !Has(hosts, HostName, c.alias)
    && files.path(c.identityFile).Some? && files.usable(files.path(c.identityFile).value)
  }

  /** `h` is the host an import makes of `c`, before links. */
  predicate MadeFrom(h: Host, c: Candidate, keys: seq<Key>, files: Files) {
    && h == NewHost(c, h.id, h.keyId)
    && Has(keys, KeyId, h.keyId)
    && files.path(c.identityFile) == Some(Find(keys, KeyId, h.keyId).value.path)
  }

  predicate PathUsed(picks: seq<Candidate>, files: Files, path: string) {
    exists c <- picks :: files.path(c.identityFile) == Some(path)
  }

  /** Each key file is registered at most once more. */
  predicate OncePerPath(keys: seq<Key>, base: nat) {
    forall i, j :: 0 <= i < j < |keys| && base <= j ==> keys[i].path != keys[j].path
  }

  /** `r` is `s` with one host per pick, in order, and a key for every file not registered yet. */
  ghost predicate Extended(s: State, r: State, picks: seq<Candidate>, files: Files) {
    && r == s.(keys := r.keys, hosts := r.hosts)
    && s.hosts <= r.hosts && s.keys <= r.keys
    && |r.hosts| == |s.hosts| + |picks|
    && (forall i :: 0 <= i < |picks| ==> MadeFrom(r.hosts[|s.hosts| + i], picks[i], r.keys, files))
    && OncePerPath(r.keys, |s.keys|)
    && WellFormed(r) && Unique(r.hosts, HostName)
  }

  /** The registered files are those of `s` and those of the picks. */
  ghost predicate Paths(s: State, r: State, picks: seq<Candidate>, files: Files) {
    forall path :: Has(r.keys, KeyPath, path) <==> Has(s.keys, KeyPath, path) || PathUsed(picks, files, path)
  }

  /** Every identifier of `r` is one of `s` or one of these. */
  ghost predicate Known(s: State, r: State, ids: seq<string>) {
    && (forall id :: Has(r.hosts, HostId, id) ==> Has(s.hosts, HostId, id) || id in ids)
    && (forall id :: Has(r.keys, KeyId, id) ==> Has(s.keys, KeyId, id) || id in ids)
  }

  lemma KnownName(hosts: seq<Host>, name: string)
    requires NonEmptyIds(hosts, HostId)
    ensures IdOf(hosts, name) != "" <==> Has(hosts, HostName, name)
  {
    FindLastHas(hosts, HostName, name);
  }

  lemma KnownPath(keys: seq<Key>, path: string)
    requires Unique(keys, KeyId) && NonEmptyIds(keys, KeyId)
    ensures KeyFor(keys, path) != "" <==> Has(keys, KeyPath, path)
    ensures Has(keys, KeyPath, path) ==> Has(keys, KeyId, KeyFor(keys, path)) && Find(keys, KeyId, KeyFor(keys, path)).value.path == path
  {
    FindLastHas(keys, KeyPath, path);
    if Has(keys, KeyPath, path) {
      var k := FindLast(keys, KeyPath, path).value;
      FindMember(keys, KeyId, k);
    }
  }

  lemma SameKeys<S, T>(xs: seq<S>, f: S -> string, ys: seq<T>, g: T -> string, key: string)
    requires |xs| == |ys| && forall i :: 0 <= i < |xs| ==> f(xs[i]) == g(ys[i])
    ensures Has(xs, f, key) <==> Has(ys, g, key)
  {
    if Has(xs, f, key) { IndexOfAt(ys, g, IndexOf(xs, f, key)); }
    if Has(ys, g, key) { IndexOfAt(xs, f, IndexOf(ys, g, key)); }
  }

  /** The names of the extended state. */
  lemma ExtendedNames(s: State, r: State, picks: seq<Candidate>, files: Files, name: string)
    requires Extended(s, r, picks, files)
    ensures Has(r.hosts, HostName, name) <==> Has(s.hosts, HostName, name) || Has(picks, Alias, name)
  {
    hide IndexOf, WellFormed, Unique, OncePerPath, Has;
    var tail := r.hosts[|s.hosts|..];
    assert r.hosts == s.hosts + tail;
    forall i | 0 <= i < |picks| ensures HostName(tail[i]) == Alias(picks[i]) {
      assert MadeFrom(r.hosts[|s.hosts| + i], picks[i], r.keys, files);
    }
    HasConcat(s.hosts, tail, HostName, name);
    SameKeys(tail, HostName, picks, Alias, name);
  }

  lemma HasConcat<T>(xs: seq<T>, ys: seq<T>, id: T -> string, key: string)
    ensures Has(xs + ys, id, key) <==> Has(xs, id, key) || Has(ys, id, key)
  {
    IndexOfAppend(xs, ys, id, key);
  }

  lemma AppendNonEmpty<T>(xs: seq<T>, id: T -> string, x: T)
    requires NonEmptyIds(xs, id) && id(x) != ""
    ensures NonEmptyIds(xs + [x], id)
  {
  }

  lemma HasAppend<T>(xs: seq<T>, id: T -> string, x: T, key: string)
    ensures Has(xs + [x], id, key) <==> Has(xs, id, key) || id(x) == key
    ensures Has(xs, id, key) ==> Find(xs + [x], id, key) == Find(xs, id, key)
    ensures !Has(xs, id, key) && id(x) == key ==> Find(xs + [x], id, key) == Some(x)
  {
    IndexOfAppend(xs, [x], id, key);
  }

  lemma MadeFromMoreKeys(h: Host, c: Candidate, keys: seq<Key>, k: Key, files: Files)
    requires MadeFrom(h, c, keys, files)
    ensures MadeFrom(h, c, keys + [k], files)
  {
    HasAppend(keys, KeyId, k, h.keyId);
  }

  /** A host is appended to the extended state; its key is registered. */
  lemma ExtendHost(s: State, r: State, picks: seq<Candidate>, files: Files, c: Candidate, h: Host)
    requires Extended(s, r, picks, files) && MadeFrom(h, c, r.keys, files)
    requires h.id != "" && !Has(r.hosts, HostId, h.id) && !Has(r.hosts, HostName, c.alias)
    ensures Extended(s, r.(hosts := r.hosts + [h]), picks + [c], files)
  {
    AppendUnique(r.hosts, HostId, h);
    AppendUnique(r.hosts, HostName, h);
    AppendNonEmpty(r.hosts, HostId, h);
    hide Unique, NonEmptyIds, OncePerPath, IndexOf;
    var t, ps := r.(hosts := r.hosts + [h]), picks + [c];
    forall i | 0 <= i < |ps| ensures MadeFrom(t.hosts[|s.hosts| + i], ps[i], t.keys, files) {
      if i < |picks| {
        assert MadeFrom(r.hosts[|s.hosts| + i], picks[i], r.keys, files);
      }
    }
  }

  /** A key is registered for a file that had none. */
  lemma ExtendKey(s: State, r: State, picks: seq<Candidate>, files: Files, k: Key)
    requires Extended(s, r, picks, files)
    requires k.id != "" && !Has(r.keys, KeyId, k.id) && !Has(r.keys, KeyPath, k.path)
    ensures Extended(s, r.(keys := r.keys + [k]), picks, files)
  {
    hide Unique, NonEmptyIds, IndexOf, MadeFrom;
    AppendUnique(r.keys, KeyId, k);
    AppendNonEmpty(r.keys, KeyId, k);
    var t := r.(keys := r.keys + [k]);
    forall i | 0 <= i < |r.keys| ensures r.keys[i].path != k.path {
      IndexOfAt(r.keys, KeyPath, i);
    }
    hide Has;
    forall i | 0 <= i < |picks| ensures MadeFrom(t.hosts[|s.hosts| + i], picks[i], t.keys, files) {
      MadeFromMoreKeys(r.hosts[|s.hosts| + i], picks[i], r.keys, k, files);
    }
  }

  lemma UsedAppend(picks: seq<Candidate>, c: Candidate, files: Files, path: string)
    ensures PathUsed(picks + [c], files, path) <==> PathUsed(picks, files, path) || files.path(c.identityFile) == Some(path)
  {
    assert (picks + [c])[|picks|] == c;
    if PathUsed(picks, files, path) {
      var d :| d in picks && files.path(d.identityFile) == Some(path);
      assert d in picks + [c];
    }
  }

  // ---------------------------------------------------------------- the first pass

  lemma PathsStep(s: State, r: State, t: State, picks: seq<Candidate>, files: Files, c: Candidate, path: string)
    requires Paths(s, r, picks, files) && files.path(c.identityFile) == Some(path)
    requires forall p :: Has(t.keys, KeyPath, p) <==> Has(r.keys, KeyPath, p) || p == path
    ensures Paths(s, t, picks + [c], files)
  {
    hide IndexOf, Has, PathUsed;
    forall p ensures PathUsed(picks + [c], files, p) <==> PathUsed(picks, files, p) || p == path {
      UsedAppend(picks, c, files, p);
    }
  }

  /** One candidate is added exactly when it can be imported and was not added already. */
  lemma AddOneExtends(s: State, r: State, picks: seq<Candidate>, c: Candidate, files: Files, keyId: string, hostId: string)
    requires Extended(s, r, picks, files) && Paths(s, r, picks, files)
    requires keyId != "" && hostId != "" && !Has(r.keys, KeyId, keyId) && !Has(r.hosts, HostId, hostId)
    ensures var t := AddOne(r, c, files, keyId, hostId);
      && (t.Ok? <==> Importable(s.hosts, c, files) && !Has(picks, Alias, c.alias))
      && (t.Ok? ==> Extended(s, t.value, picks + [c], files) && Paths(s, t.value, picks + [c], files))
      && (t.Ok? ==> t.value.hosts == r.hosts + [t.value.hosts[|r.hosts|]] && t.value.hosts[|r.hosts|].id == hostId)
      && (t.Ok? ==> t.value.keys == r.keys + if Has(r.keys, KeyPath, files.path(c.identityFile).value) then []
                                            else [NewKey(c, keyId, files.path(c.identityFile).value)])
  {
    ExtendedNames(s, r, picks, files, c.alias);
    KnownName(r.hosts, c.alias);
    hide IdOf, IndexOf, Has, KeyFor, Extended, Paths, MadeFrom;
    var t := AddOne(r, c, files, keyId, hostId);
    if t.Ok? {
      var path := files.path(c.identityFile).value;
      assert WellFormed(r) by { hide MadeFrom; ExtendedWellFormed(s, r, picks, files); }
      KnownPath(r.keys, path);
      var known := KeyFor(r.keys, path);
      if known != "" {
        RegisteredFrom(c, hostId, known, r.keys, files, path);
        ExtendHost(s, r, picks, files, c, NewHost(c, hostId, known));
        PathsStep(s, r, t.value, picks, files, c, path);
      } else {
        var k := NewKey(c, keyId, path);
        ExtendKey(s, r, picks, files, k);
        HasAppend(r.keys, KeyId, k, keyId);
        RegisteredFrom(c, hostId, keyId, r.keys + [k], files, path);
        ExtendHost(s, r.(keys := r.keys + [k]), picks, files, c, NewHost(c, hostId, keyId));
        forall p ensures Has(t.value.keys, KeyPath, p) <==> Has(r.keys, KeyPath, p) || p == path {
          HasAppend(r.keys, KeyPath, k, p);
        }
        PathsStep(s, r, t.value, picks, files, c, path);
      }
    }
  }

  lemma ExtendedWellFormed(s: State, r: State, picks: seq<Candidate>, files: Files)
    requires Extended(s, r, picks, files)
    ensures WellFormed(r) && Unique(r.hosts, HostName) && |s.hosts| <= |r.hosts|
  {
  }

  lemma RegisteredFrom(c: Candidate, hostId: string, keyId: string, keys: seq<Key>, files: Files, path: string)
    requires files.path(c.identityFile) == Some(path)
    requires Has(keys, KeyId, keyId) && Find(keys, KeyId, keyId).value.path == path
    ensures MadeFrom(NewHost(c, hostId, keyId), c, keys, files)
  {
  }

  lemma ExtendedSelf(s: State, files: Files)
    requires WellFormed(s) && Unique(s.hosts, HostName)
    ensures Extended(s, s, [], files) && Paths(s, s, [], files) && Known(s, s, [])
  {
  }

  lemma KnownStep(s: State, r: State, t: State, ids: seq<string>, hostId: string, keyId: string)
    requires Known(s, r, ids)
    requires forall id :: Has(t.hosts, HostId, id) ==> Has(r.hosts, HostId, id) || id == hostId
    requires forall id :: Has(t.keys, KeyId, id) ==> Has(r.keys, KeyId, id) || id == keyId
    ensures Known(s, t, ids + [keyId, hostId])
  {
    hide Has, IndexOf;
  }

  lemma FreshNext(s: State, r: State, newIds: seq<string>, n: nat)
    requires Fresh(s, newIds) && 2 * n + 2 <= |newIds| && Known(s, r, newIds[..2 * n])
    ensures newIds[2 * n] != "" && newIds[2 * n + 1] != ""
    ensures !Has(r.keys, KeyId, newIds[2 * n]) && !Has(r.hosts, HostId, newIds[2 * n + 1])
  {
    hide Has, IndexOf;
    assert newIds[2 * n] !in newIds[..2 * n];
    assert newIds[2 * n + 1] !in newIds[..2 * n];
  }

  /** The first pass succeeds exactly when every chosen candidate can be imported and no alias
      comes twice; it then adds one host per chosen candidate. */
  lemma {:induction false} AddAllExact(s: State, cands: seq<Candidate>, chosen: set<string>, files: Files, newIds: seq<string>)
    requires WellFormed(s) && Unique(s.hosts, HostName) && 2 * |cands| <= |newIds| && Fresh(s, newIds)
    ensures var picks, t := Picks(cands, chosen), AddAll(s, cands, chosen, files, newIds);
      && (t.Ok? <==> Unique(picks, Alias) && forall c <- picks :: Importable(s.hosts, c, files))
      && (t.Ok? ==> Extended(s, t.value, picks, files) && Paths(s, t.value, picks, files))
      && (t.Ok? ==> Known(s, t.value, newIds[..2 * |cands|]))
  {
    ExtendedSelf(s, files);
    if cands != [] {
      var n := |cands| - 1;
      AddAllExact(s, cands[..n], chosen, files, newIds);
      AddLast(s, cands, chosen, files, newIds);
    }
  }

  lemma AddLast(s: State, cands: seq<Candidate>, chosen: set<string>, files: Files, newIds: seq<string>)
    requires cands != [] && 2 * |cands| <= |newIds| && Fresh(s, newIds)
    requires var n := |cands| - 1; var picks, t := Picks(cands[..n], chosen), AddAll(s, cands[..n], chosen, files, newIds);
      && (t.Ok? <==> Unique(picks, Alias) && forall c <- picks :: Importable(s.hosts, c, files))
      && (t.Ok? ==> Extended(s, t.value, picks, files) && Paths(s, t.value, picks, files))
      && (t.Ok? ==> Known(s, t.value, newIds[..2 * n]))
    ensures var picks, t := Picks(cands, chosen), AddAll(s, cands, chosen, files, newIds);
      && (t.Ok? <==> Unique(picks, Alias) && forall c <- picks :: Importable(s.hosts, c, files))
      && (t.Ok? ==> Extended(s, t.value, picks, files) && Paths(s, t.value, picks, files))
      && (t.Ok? ==> Known(s, t.value, newIds[..2 * |cands|]))
  {
    hide Has, IndexOf, Importable, Extended, Paths, AddOne, Fresh, Unique, Known;
    var n := |cands| - 1;
    var c, picks, t := cands[n], Picks(cands[..n], chosen), AddAll(s, cands[..n], chosen, files, newIds);
    assert picks + [] == picks;
    PicksUnique(picks, c);
    if t.Ok? {
      assert newIds[..2 * |cands|] == newIds[..2 * n] + [newIds[2 * n], newIds[2 * n + 1]];
      KnownMore(s, t.value, newIds[..2 * n], [newIds[2 * n], newIds[2 * n + 1]]);
      if c.alias in chosen {
        AddNext(s, t.value, picks, c, files, newIds, n);
      }
    }
  }

  lemma AddNext(s: State, t: State, picks: seq<Candidate>, c: Candidate, files: Files, newIds: seq<string>, n: nat)
    requires 2 * n + 2 <= |newIds| && Fresh(s, newIds)
    requires Extended(s, t, picks, files) && Paths(s, t, picks, files) && Known(s, t, newIds[..2 * n])
    ensures var u := AddOne(t, c, files, newIds[2 * n], newIds[2 * n + 1]);
      && (u.Ok? <==> Importable(s.hosts, c, files) && !Has(picks, Alias, c.alias))
      && (u.Ok? ==> Extended(s, u.value, picks + [c], files) && Paths(s, u.value, picks + [c], files))
      && (u.Ok? ==> Known(s, u.value, newIds[..2 * n] + [newIds[2 * n], newIds[2 * n + 1]]))
  {
    hide Has, IndexOf, Importable, Extended, Paths, AddOne, Fresh, Unique, Known;
    FreshNext(s, t, newIds, n);
    AddOneExtends(s, t, picks, c, files, newIds[2 * n], newIds[2 * n + 1]);
    var u := AddOne(t, c, files, newIds[2 * n], newIds[2 * n + 1]);
    if u.Ok? {
      GrownIds(t.hosts, u.value.hosts, HostId);
      GrownIds(t.keys, u.value.keys, KeyId);
      KnownStep(s, t, u.value, newIds[..2 * n], newIds[2 * n + 1], newIds[2 * n]);
    }
  }

  lemma PicksUnique(picks: seq<Candidate>, c: Candidate)
    ensures Unique(picks + [c], Alias) <==> Unique(picks, Alias) && !Has(picks, Alias, c.alias)
    ensures forall d :: d in picks + [c] <==> d in picks || d == c
  {
    var more := picks + [c];
    if Unique(more, Alias) {
      forall i, j | 0 <= i < j < |picks| ensures Alias(picks[i]) != Alias(picks[j]) {
        assert more[i] == picks[i] && more[j] == picks[j];
      }
    }
    if Has(picks, Alias, c.alias) {
      var i := IndexOf(picks, Alias, c.alias);
      assert Alias(more[i]) == Alias(more[|picks|]);
    }
    if Unique(picks, Alias) && !Has(picks, Alias, c.alias) {
      AppendUnique(picks, Alias, c);
    }
  }

  lemma KnownMore(s: State, r: State, ids: seq<string>, more: seq<string>)
    requires Known(s, r, ids)
    ensures Known(s, r, ids + more)
  {
    hide Has, IndexOf;
  }

  /** Appending at most one record adds at most its identifier. */
  lemma GrownIds<T>(xs: seq<T>, ys: seq<T>, id: T -> string)
    requires xs <= ys && |ys| <= |xs| + 1
    ensures forall k :: Has(ys, id, k) ==> Has(xs, id, k) || (|ys| > |xs| && k == id(ys[|xs|]))
  {
    if |ys| > |xs| {
      assert ys == xs + [ys[|xs|]];
      forall k ensures Has(ys, id, k) <==> Has(xs, id, k) || k == id(ys[|xs|]) {
        HasAppend(xs, id, ys[|xs|], k);
      }
    } else {
      assert xs == ys;
    }
  }
}
