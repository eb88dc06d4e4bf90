/**
 Importing a configuration backup: every collection is extended with the records whose id is not
 stored yet; a record that differs from the stored one with the same id rejects the import.
 */
module Backup {
  import opened Wrappers
  import opened Text
  import opened Records
  import opened Model
  import opened Store

  /** The configuration part of a backup file. */
  datatype File = File(format: string, version: int, hosts: seq<Host>, keys: seq<Key>,
                       tunnels: seq<Tunnel>, services: seq<Service>, settings: Settings)

  datatype Counts = Counts(hosts: nat, keys: nat, tunnels: nat, services: nat)

  const NOTHING_ADDED := Counts(0, 0, 0, 0)

  predicate Agrees<T(==)>(stored: seq<T>, incoming: seq<T>, id: T -> string) {
    forall v <- incoming :: FindLast(stored, id, id(v)).None? || FindLast(stored, id, id(v)) == Some(v)
  }

  predicate Mergeable<T(==)>(stored: seq<T>, incoming: seq<T>, id: T -> string) {
    GoodIds(incoming, id) && Unique(incoming, id) && Agrees(stored, incoming, id)
  }

  function Extended<T>(stored: seq<T>, incoming: seq<T>, id: T -> string): seq<T> {
    stored + Additions(stored, incoming, id)
  }

  /** One more record is acceptable exactly when its id is good and new and it agrees. */
  lemma MergeableStep<T>(stored: seq<T>, incoming: seq<T>, id: T -> string, i: nat)
    requires i < |incoming| && Mergeable(stored, incoming[..i], id)
    ensures var v := incoming[i];
      Mergeable(stored, incoming[..i + 1], id) <==>
      GoodId(id(v)) && id(v) !in AllIds(incoming[..i], id)
      && (FindLast(stored, id, id(v)).None? || FindLast(stored, id, id(v)) == Some(v))
    ensures !Mergeable(stored, incoming[..i + 1], id) ==> !Mergeable(stored, incoming, id)
    ensures AllIds(incoming[..i + 1], id) == AllIds(incoming[..i], id) + {id(incoming[i])}
  {
    hide GoodId, FindLast;
    var v := incoming[i];
    assert incoming[..i + 1] == incoming[..i] + [v];
    IdsStep(incoming[..i + 1], id, i);
    assert incoming[..i + 1][..i] == incoming[..i];
    if Mergeable(stored, incoming, id) {
      assert forall j :: 0 <= j < i + 1 ==> incoming[..i + 1][j] == incoming[j] && incoming[j] in incoming;
    }
  }

  lemma ExtendedStep<T>(stored: seq<T>, incoming: seq<T>, id: T -> string, i: nat)
    requires i < |incoming|
    ensures var added := if Has(stored, id, id(incoming[i])) then [] else [incoming[i]];
      && Extended(stored, incoming[..i + 1], id) == Extended(stored, incoming[..i], id) + added
      && |Additions(stored, incoming[..i + 1], id)| == |Additions(stored, incoming[..i], id)| + |added|
  {
    assert incoming[..i + 1][..i] == incoming[..i];
  }

  method MergeRecords<T(==)>(stored: seq<T>, incoming: seq<T>, id: T -> string) returns (r: Result<(seq<T>, nat)>)
    ensures r.Ok? <==> Mergeable(stored, incoming, id)
    ensures r.Ok? ==> r.value == (Extended(stored, incoming, id), |Additions(stored, incoming, id)|)
  {
    var byId := IndexRecords(stored, id);
    var result, seen: set<string>, added := stored, {}, 0;
    assert Mergeable(stored, incoming[..0], id);
    assert Extended(stored, incoming[..0], id) == stored;
    assert AllIds(incoming[..0], id) == {};
    hide GoodId, Has, Mergeable, FindLast, Extended, Additions, AllIds, ById;
    for i := 0 to |incoming|
      invariant seen == AllIds(incoming[..i], id)
      invariant Mergeable(stored, incoming[..i], id)
      invariant result == Extended(stored, incoming[..i], id)
      invariant added == |Additions(stored, incoming[..i], id)|
    {
      var v := incoming[i];
      ExtendedStep(stored, incoming, id, i);
      MergeableStep(stored, incoming, id, i);
      if !GoodId(id(v)) || id(v) in seen {
        return Err;
      }
      seen := seen + {id(v)};
      FindLastHas(stored, id, id(v));
      if id(v) in byId {
        if byId[id(v)] != v {
          return Err;
        }
      } else {
        result := result + [v];
        added := added + 1;
      }
    }
    assert incoming[..|incoming|] == incoming;
    r := Ok((result, added));
  }

  /** Which paths the platform accepts; fixed during an import. */
  type PathTest = string -> bool

  predicate PathsOk(pathOk: PathTest, file: File, withSettings: bool) {
    && (forall k <- file.keys :: pathOk(k.path))
    && (withSettings ==> pathOk(file.settings.knownHosts) && pathOk(file.settings.sshConfig))
  }

  function Merged(s: State, file: File, withSettings: bool): State {
    s.(keys := Extended(s.keys, file.keys, KeyId), hosts := Extended(s.hosts, file.hosts, HostId),
       tunnels := Extended(s.tunnels, file.tunnels, TunnelId), services := Extended(s.services, file.services, ServiceId),
       settings := if withSettings then file.settings else s.settings)
  }

  function Added(s: State, file: File): Counts {
    Counts(|Additions(s.hosts, file.hosts, HostId)|, |Additions(s.keys, file.keys, KeyId)|,
           |Additions(s.tunnels, file.tunnels, TunnelId)|, |Additions(s.services, file.services, ServiceId)|)
  }

  predicate Known(file: File) { file.format == "sshdesk" && file.version == 1 }

  predicate AllMergeable(s: State, file: File) {
    && Mergeable(s.keys, file.keys, KeyId) && Mergeable(s.hosts, file.hosts, HostId)
    && Mergeable(s.tunnels, file.tunnels, TunnelId) && Mergeable(s.services, file.services, ServiceId)
  }

  function Import(s: State, file: File, withSettings: bool, pathOk: PathTest): Result<(State, Counts)> {
    if Known(file) && AllMergeable(s, file) && PathsOk(pathOk, file, withSettings) && Valid(Merged(s, file, withSettings))
    then Ok((Merged(s, file, withSettings), Added(s, file)))
    else Err
  }

  /** The import edits the working copy; on an error the copy is dropped by the update. */
  method MergeBackup(draft: Draft, file: File, withSettings: bool, pathOk: PathTest) returns (r: Result<Counts>)
    modifies draft
    ensures r.Ok? <==> Import(old(draft.View()), file, withSettings, pathOk).Ok?
    ensures r.Ok? ==> Import(old(draft.View()), file, withSettings, pathOk) == Ok((draft.View(), r.value))
  {
    hide Valid, Mergeable, Extended, Additions;
    r := Err;
    if file.format != "sshdesk" || file.version != 1 {
      return;
    }
    var keys := MergeRecords(draft.keys, file.keys, KeyId);
    if keys.Err? { return; }
    draft.keys := keys.value.0;
    var hosts := MergeRecords(draft.hosts, file.hosts, HostId);
    if hosts.Err? { return; }
    draft.hosts := hosts.value.0;
    var tunnels := MergeRecords(draft.tunnels, file.tunnels, TunnelId);
    if tunnels.Err? { return; }
    draft.tunnels := tunnels.value.0;
    var services := MergeRecords(draft.services, file.services, ServiceId);
    if services.Err? { return; }
    draft.services := services.value.0;
    for i := 0 to |file.keys|
      invariant forall k <- file.keys[..i] :: pathOk(k.path)
    {
      if !pathOk(file.keys[i].path) {
        return;
      }
    }
    if withSettings {
      if !pathOk(file.settings.knownHosts) || !pathOk(file.settings.sshConfig) {
        return;
      }
      draft.settings := file.settings;
    }
    assert draft.View() == Merged(old(draft.View()), file, withSettings);
    var valid := Validate(draft.View());
    if valid {
      r := Ok(Counts(hosts.value.1, keys.value.1, tunnels.value.1, services.value.1));
    }
  }

  function Export(s: State): File {
    File("sshdesk", 1, s.hosts, s.keys, s.tunnels, s.services, s.settings)
  }

  // ---------------------------------------------------------------- laws

  /** Two collections give every shared identifier the same record. */
  predicate SameOnShared<T(==)>(a: seq<T>, b: seq<T>, id: T -> string) {
    forall x <- a, y <- b :: id(x) == id(y) ==> x == y
  }

  lemma AgreesExactly<T>(stored: seq<T>, incoming: seq<T>, id: T -> string)
    requires Unique(stored, id)
    ensures Agrees(stored, incoming, id) <==> SameOnShared(stored, incoming, id)
  {
    forall v | v in incoming
      ensures FindLast(stored, id, id(v)) == Find(stored, id, id(v))
      ensures forall x <- stored :: id(x) == id(v) ==> Find(stored, id, id(v)) == Some(x)
      ensures Has(stored, id, id(v)) ==> Find(stored, id, id(v)).value in stored
    {
      FindLastUnique(stored, id, id(v));
      forall x | x in stored && id(x) == id(v) ensures Find(stored, id, id(v)) == Some(x) {
        FindMember(stored, id, x);
      }
    }
    if Agrees(stored, incoming, id) {
      assert SameOnShared(stored, incoming, id);
    }
    if SameOnShared(stored, incoming, id) {
      assert Agrees(stored, incoming, id);
    }
  }

  /** An import is accepted exactly when the two sides agree wherever they share an id and their
      union passes the check; what was stored stays an unchanged prefix. */
  lemma ImportAccepts(s: State, file: File, withSettings: bool, pathOk: PathTest)
    requires UniqueIds(s)
    requires Known(file) && PathsOk(pathOk, file, withSettings)
    requires GoodIds(file.hosts, HostId) && GoodIds(file.keys, KeyId)
    requires GoodIds(file.tunnels, TunnelId) && GoodIds(file.services, ServiceId)
    requires Unique(file.hosts, HostId) && Unique(file.keys, KeyId)
    requires Unique(file.tunnels, TunnelId) && Unique(file.services, ServiceId)
    ensures Import(s, file, withSettings, pathOk).Ok? <==>
      && SameOnShared(s.hosts, file.hosts, HostId) && SameOnShared(s.keys, file.keys, KeyId)
      && SameOnShared(s.tunnels, file.tunnels, TunnelId) && SameOnShared(s.services, file.services, ServiceId)
      && Valid(Merged(s, file, withSettings))
  {
    hide Valid, GoodIds, Unique, Agrees, SameOnShared, Extended;
    AgreesExactly(s.hosts, file.hosts, HostId);
    AgreesExactly(s.keys, file.keys, KeyId);
    AgreesExactly(s.tunnels, file.tunnels, TunnelId);
    AgreesExactly(s.services, file.services, ServiceId);
  }

  lemma ExtendedUnique<T>(stored: seq<T>, incoming: seq<T>, id: T -> string)
    requires Unique(stored, id) && Unique(incoming, id)
    ensures Unique(Extended(stored, incoming, id), id)
    ensures forall v <- incoming :: Has(Extended(stored, incoming, id), id, id(v))
    ensures forall v <- Extended(stored, incoming, id) :: v in stored || v in incoming
  {
    var a, e := Additions(stored, incoming, id), Extended(stored, incoming, id);
    AdditionsUnique(stored, incoming, id);
    AdditionsMembers(stored, incoming, id);
    forall v | v in incoming ensures Has(e, id, id(v)) {
      IndexOfAppend(stored, a, id, id(v));
      if !Has(stored, id, id(v)) {
        HasMember(a, id, v);
      }
    }
    forall i, j | 0 <= i < j < |e| ensures id(e[i]) != id(e[j]) {
      if i < |stored| <= j {
        assert e[j] == a[j - |stored|] && a[j - |stored|] in a;
        IndexOfAt(stored, id, i);
        assert !Has(stored, id, id(e[j]));
      } else if |stored| <= i {
        assert e[i] == a[i - |stored|] && e[j] == a[j - |stored|];
      }
    }
  }

  lemma NothingLeftToAdd<T>(stored: seq<T>, incoming: seq<T>, id: T -> string)
    requires forall v <- incoming :: Has(stored, id, id(v))
    ensures Additions(stored, incoming, id) == []
  {
    if incoming != [] {
      var n := |incoming| - 1;
      assert incoming[n] in incoming;
      NothingLeftToAdd(stored, incoming[..n], id);
    }
  }

  lemma MergeAgain<T>(stored: seq<T>, incoming: seq<T>, id: T -> string)
    requires Unique(stored, id) && Mergeable(stored, incoming, id)
    ensures Mergeable(Extended(stored, incoming, id), incoming, id)
    ensures Additions(Extended(stored, incoming, id), incoming, id) == []
    ensures Extended(Extended(stored, incoming, id), incoming, id) == Extended(stored, incoming, id)
  {
    var e := Extended(stored, incoming, id);
    ExtendedUnique(stored, incoming, id);
    NothingLeftToAdd(e, incoming, id);
    AgreesExactly(stored, incoming, id);
    assert SameOnShared(e, incoming, id) by {
      forall x, y | x in e && y in incoming && id(x) == id(y) ensures x == y {
        if x in incoming {
          FindMember(incoming, id, x);
          FindMember(incoming, id, y);
        }
      }
    }
    AgreesExactly(e, incoming, id);
  }

  /** Importing the same file twice adds nothing the second time. */
  lemma ImportIdempotent(s: State, file: File, withSettings: bool, pathOk: PathTest)
    requires UniqueIds(s) && Import(s, file, withSettings, pathOk).Ok?
    ensures var after := Import(s, file, withSettings, pathOk).value.0;
      Import(after, file, withSettings, pathOk) == Ok((after, NOTHING_ADDED))
  {
    hide Valid, Mergeable, Unique, Extended, Additions;
    MergeAgain(s.hosts, file.hosts, HostId);
    MergeAgain(s.keys, file.keys, KeyId);
    MergeAgain(s.tunnels, file.tunnels, TunnelId);
    MergeAgain(s.services, file.services, ServiceId);
  }

  lemma MergeOwn<T>(xs: seq<T>, id: T -> string)
    requires Unique(xs, id)
    ensures Mergeable(xs, xs, id) <==> GoodIds(xs, id)
    ensures Additions(xs, xs, id) == [] && Extended(xs, xs, id) == xs
  {
    forall v | v in xs ensures Has(xs, id, id(v)) && FindLast(xs, id, id(v)) == Some(v) {
      FindMember(xs, id, v);
      FindLastUnique(xs, id, id(v));
    }
    NothingLeftToAdd(xs, xs, id);
  }

  /** A state takes its own export back without a change; it needs ids the import accepts. */
  lemma OwnExportIsNoOp(s: State, withSettings: bool, pathOk: PathTest)
    requires Valid(s) && UniqueIds(s) && PathsOk(pathOk, Export(s), withSettings)
    ensures Import(s, Export(s), withSettings, pathOk) == Ok((s, NOTHING_ADDED)) <==> AllGoodIds(s)
    ensures !AllGoodIds(s) ==> Import(s, Export(s), withSettings, pathOk).Err?
  {
    hide Valid, Mergeable, Unique, Extended, Additions, GoodIds;
    MergeOwn(s.hosts, HostId);
    MergeOwn(s.keys, KeyId);
    MergeOwn(s.tunnels, TunnelId);
    MergeOwn(s.services, ServiceId);
    assert Merged(s, Export(s), withSettings) == s;
  }

  lemma {:induction false} AllAreAdditions<T>(xs: seq<T>, id: T -> string)
    ensures Additions([], xs, id) == xs
  {
    if xs != [] {
      var n := |xs| - 1;
      AllAreAdditions(xs[..n], id);
      assert xs == xs[..n] + [xs[n]];
    }
  }

  lemma MergeIntoNothing<T>(xs: seq<T>, id: T -> string)
    ensures Additions([], xs, id) == xs && Extended([], xs, id) == xs
    ensures Mergeable([], xs, id) <==> GoodIds(xs, id) && Unique(xs, id)
  {
    AllAreAdditions(xs, id);
  }

  /** An export read into an empty configuration rebuilds every collection in its order. */
  lemma ExportRebuilds(s: State, withSettings: bool, pathOk: PathTest)
    requires Valid(s) && UniqueIds(s) && AllGoodIds(s) && PathsOk(pathOk, Export(s), withSettings)
    ensures Import(EMPTY, Export(s), withSettings, pathOk) ==
      Ok((s.(team := [], settings := if withSettings then s.settings else NO_SETTINGS),
          Counts(|s.hosts|, |s.keys|, |s.tunnels|, |s.services|)))
  {
    hide Mergeable, Unique, Extended, Additions, GoodIds;
    MergeIntoNothing(s.hosts, HostId);
    MergeIntoNothing(s.keys, KeyId);
    MergeIntoNothing(s.tunnels, TunnelId);
    MergeIntoNothing(s.services, ServiceId);
  }
}
