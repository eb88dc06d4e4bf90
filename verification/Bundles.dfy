/**
 Team bundles: a selection of the configuration together with its key files. Installing one either
 adds its records or, when this machine already follows the same master, updates them.
 Key files, the zip and JSON encodings and the file system are outside the model; the local path
 given to each key is a parameter.
 */
module Bundles {
  import opened Wrappers
  import opened Text
  import opened Records
  import opened Model
  import opened Store
  import opened Sync
  import opened Selecting

  type Material = string

  datatype Bundle = Bundle(source: Option<Source>, version: int, state: State, material: map<string, Material>)

  // ---------------------------------------------------------------- merging by id

  /** Records with a new id are appended once; a record that differs from the one already there
      with the same id is a conflict. */
  function Joined<T(==)>(stored: seq<T>, incoming: seq<T>, id: T -> string): Result<seq<T>> {
    if incoming == [] then Ok(stored)
    else
      var v := incoming[|incoming| - 1];
      match Joined(stored, incoming[..|incoming| - 1], id)
      case Err => Err
      case Ok(r) =>
        match FindLast(r, id, id(v))
        case None => Ok(r + [v])
        case Some(x) => if x == v then Ok(r) else Err
  }

  lemma JoinedFails<T>(stored: seq<T>, incoming: seq<T>, id: T -> string, n: nat)
    requires n <= |incoming| && Joined(stored, incoming[..n], id).Err?
    ensures Joined(stored, incoming, id).Err?
    decreases |incoming| - n
  {
    if n < |incoming| {
      assert incoming[..n + 1][..n] == incoming[..n];
      JoinedFails(stored, incoming, id, n + 1);
    } else {
      assert incoming[..n] == incoming;
    }
  }

  method Merge<T(==)>(stored: seq<T>, incoming: seq<T>, id: T -> string) returns (r: Result<seq<T>>)
    ensures r == Joined(stored, incoming, id)
  {
    var records := IndexRecords(stored, id);
    var merged := stored;
    for i := 0 to |incoming|
      invariant records == ById(merged, id)
      invariant Joined(stored, incoming[..i], id) == Ok(merged)
    {
      hide IndexOf, FindLast, Has;
      var v := incoming[i];
      assert incoming[..i + 1][..i] == incoming[..i];
      if id(v) in records {
        if records[id(v)] != v {
          JoinedFails(stored, incoming, id, i + 1);
          return Err;
        }
      } else {
        assert (merged + [v])[..|merged|] == merged;
        merged, records := merged + [v], records[id(v) := v];
      }
    }
    assert incoming[..|incoming|] == incoming;
    r := Ok(merged);
  }

  /** What a merge means for lookups: stored records never change, and new ones are the bundle's. */
  lemma {:induction false} JoinedMeaning<T>(stored: seq<T>, incoming: seq<T>, id: T -> string)
    requires Unique(stored, id) && Joined(stored, incoming, id).Ok?
    ensures var r := Joined(stored, incoming, id).value;
      && Unique(r, id) && stored <= r
      && (forall x <- incoming :: x in r)
      && (forall x <- r :: x in stored || x in incoming)
  {
    if incoming != [] {
      var n := |incoming| - 1;
      var v := incoming[n];
      assert incoming == incoming[..n] + [v];
      JoinedMeaning(stored, incoming[..n], id);
      var before := Joined(stored, incoming[..n], id).value;
      FindLastHas(before, id, id(v));
      if !Has(before, id, id(v)) {
        AppendUnique(before, id, v);
      }
    }
  }

  lemma JoinedIds<T>(stored: seq<T>, incoming: seq<T>, id: T -> string)
    requires Unique(stored, id) && Joined(stored, incoming, id).Ok? && NonEmptyIds(stored, id)
    ensures NonEmptyIds(Joined(stored, incoming, id).value, id) <==> NonEmptyIds(incoming, id)
  {
    JoinedMeaning(stored, incoming, id);
    var r := Joined(stored, incoming, id).value;
    if NonEmptyIds(r, id) {
      forall i | 0 <= i < |incoming| ensures id(incoming[i]) != "" {
        assert incoming[i] in r;
      }
    }
    if NonEmptyIds(incoming, id) {
      forall i | 0 <= i < |r| ensures id(r[i]) != "" {
        assert r[i] in r;
      }
    }
  }

  lemma JoinedFind<T>(stored: seq<T>, incoming: seq<T>, id: T -> string, key: string)
    requires Unique(stored, id) && Joined(stored, incoming, id).Ok?
    ensures Has(stored, id, key) ==> Find(Joined(stored, incoming, id).value, id, key) == Find(stored, id, key)
    ensures Has(incoming, id, key) ==> Find(Joined(stored, incoming, id).value, id, key) == Find(incoming, id, key)
    ensures Has(Joined(stored, incoming, id).value, id, key) <==> Has(stored, id, key) || Has(incoming, id, key)
  {
    var r := Joined(stored, incoming, id).value;
    JoinedMeaning(stored, incoming, id);
    HasWitness(stored, id, key);
    HasWitness(incoming, id, key);
    HasWitness(r, id, key);
    if Has(stored, id, key) { assert Find(stored, id, key).value in r; FindMember(r, id, Find(stored, id, key).value); }
    if Has(incoming, id, key) { FindMember(r, id, Find(incoming, id, key).value); }
    if Has(r, id, key) {
      var x := Find(r, id, key).value;
      if x in stored { HasMember(stored, id, x); } else { HasMember(incoming, id, x); }
    }
  }

  // ---------------------------------------------------------------- installing

  function SubKey(sub: Subscription): string { sub.source.publicKey }

  predicate SameSource(a: Source, b: Source) { a.feed == b.feed && a.publicKey == b.publicKey }

  /** One key of a downloaded bundle: new, or owned by this subscription already. */
  function AdoptKey(s: State, index: nat, k: Key): Result<State>
    requires index < |s.team|
  {
    var items := s.team[index].items;
    if (Has(s.keys, KeyId, k.id) && Item(Keys, k.id) !in items) || !Syncable(s.keys, [k], Keys, items, KeyId) then Err
    else Ok(s.(keys := Synced(s.keys, [k], KeyId),
               team := s.team[index := s.team[index].(items := items[Item(Keys, k.id) := Current])]))
  }

  function AdoptKeys(s: State, index: nat, keys: seq<Key>): (r: Result<State>)
    requires index < |s.team|
    ensures r.Ok? ==> |r.value.team| == |s.team|
  {
    if keys == [] then Ok(s)
    else
      match AdoptKeys(s, index, keys[..|keys| - 1])
      case Err => Err
      case Ok(r) => AdoptKey(r, index, keys[|keys| - 1])
  }

  lemma AdoptFails(s: State, index: nat, keys: seq<Key>, n: nat)
    requires index < |s.team| && n <= |keys| && AdoptKeys(s, index, keys[..n]).Err?
    ensures AdoptKeys(s, index, keys).Err?
    decreases |keys| - n
  {
    if n < |keys| {
      assert keys[..n + 1][..n] == keys[..n];
      AdoptFails(s, index, keys, n + 1);
    } else {
      assert keys[..n] == keys;
    }
  }

  /** A new subscription is recorded unless another one already owns one of its items. */
  function Registered(team: seq<Subscription>, at: nat, source: Source, feed: State): Result<seq<Subscription>>
    requires at <= |team|
    decreases |team| - at
  {
    if at == |team| then Ok(team + [Subscription(source, Track(feed), "", "", false)])
    else if SameSource(team[at].source, source) then
      Ok(team[at := team[at].(source := team[at].source.(url := source.url))])
    else if exists it <- Track(feed) :: it in team[at].items then Err
    else Registered(team, at + 1, source, feed)
  }

  method RegisterSource(draft: Draft, source: Source, feed: State) returns (ok: bool)
    modifies draft
    ensures ok <==> Registered(old(draft.team), 0, source, feed).Ok?
    ensures ok ==> Ok(draft.team) == Registered(old(draft.team), 0, source, feed)
    ensures draft.View() == old(draft.View()).(team := draft.team)
  {
    hide Track;
    for i := 0 to |draft.team|
      invariant draft.View() == old(draft.View())
      invariant Registered(draft.team, 0, source, feed) == Registered(draft.team, i, source, feed)
    {
      var sub := draft.team[i];
      if SameSource(sub.source, source) {
        draft.team := draft.team[i := sub.(source := sub.source.(url := source.url))];
        return true;
      }
      if exists it <- Track(feed) :: it in sub.items {
        return false;
      }
    }
    draft.team := draft.team + [Subscription(source, Track(feed), "", "", false)];
    ok := true;
  }

  /** The records of a bundle added to a configuration that does not follow its master. */
  function JoinAll(s: State, feed: State): Result<State> {
    var keys :- Joined(s.keys, feed.keys, KeyId);
    var hosts :- Joined(s.hosts, feed.hosts, HostId);
    var tunnels :- Joined(s.tunnels, feed.tunnels, TunnelId);
    var services :- Joined(s.services, feed.services, ServiceId);
    Ok(s.(keys := keys, hosts := hosts, tunnels := tunnels, services := services))
  }

  function JoinAndRegister(s: State, source: Option<Source>, feed: State): Result<State> {
    var joined :- JoinAll(s, feed);
    match source
    case None => Ok(joined)
    case Some(from) =>
      var team :- Registered(joined.team, 0, from, feed);
      Ok(joined.(team := team))
  }

  /** The bundle of a master this machine already follows. */
  function Refollow(s: State, index: nat, source: Source, feed: State, now: string): Result<State>
    requires index < |s.team|
  {
    var adopted :- AdoptKeys(s, index, feed.keys);
    FeedResult(adopted.(team := adopted.team[index := adopted.team[index].(source := source)]), index, feed, now)
  }

  function InstallEdit(s: State, source: Option<Source>, feed: State, now: string): Result<State> {
    if source.Some? && Has(s.team, SubKey, source.value.publicKey)
    then Refollow(s, IndexOf(s.team, SubKey, source.value.publicKey), source.value, feed, now)
    else JoinAndRegister(s, source, feed)
  }

  method JoinRecords(draft: Draft, feed: State) returns (ok: bool)
    modifies draft
    ensures ok <==> JoinAll(old(draft.View()), feed).Ok?
    ensures ok ==> JoinAll(old(draft.View()), feed) == Ok(draft.View())
  {
    hide Joined;
    ok := false;
    var keys := Merge(draft.keys, feed.keys, KeyId);
    if keys.Err? { return; }
    draft.keys := keys.value;
    var hosts := Merge(draft.hosts, feed.hosts, HostId);
    if hosts.Err? { return; }
    draft.hosts := hosts.value;
    var tunnels := Merge(draft.tunnels, feed.tunnels, TunnelId);
    if tunnels.Err? { return; }
    draft.tunnels := tunnels.value;
    var services := Merge(draft.services, feed.services, ServiceId);
    if services.Err? { return; }
    draft.services := services.value;
    ok := true;
  }

  method AdoptAll(draft: Draft, index: nat, keys: seq<Key>) returns (ok: bool)
    requires index < |draft.team|
    modifies draft
    ensures |draft.team| == |old(draft.team)|
    ensures ok <==> AdoptKeys(old(draft.View()), index, keys).Ok?
    ensures ok ==> AdoptKeys(old(draft.View()), index, keys) == Ok(draft.View())
  {
    hide Syncable, Synced, Has;
    ghost var start := draft.View();
    for i := 0 to |keys|
      invariant |draft.team| == |start.team|
      invariant AdoptKeys(start, index, keys[..i]) == Ok(draft.View())
    {
      var k := keys[i];
      assert keys[..i + 1][..i] == keys[..i];
      var items := draft.team[index].items;
      if Has(draft.keys, KeyId, k.id) && Item(Keys, k.id) !in items {
        AdoptFails(start, index, keys, i + 1);
        return false;
      }
      var synced := SyncRecords(draft.keys, [k], Keys, items, KeyId);
      if synced.Err? {
        AdoptFails(start, index, keys, i + 1);
        return false;
      }
      ghost var before := draft.View();
      draft.keys := synced.value;
      draft.team := draft.team[index := draft.team[index].(items := items[Item(Keys, k.id) := Current])];
      assert AdoptKey(before, index, k) == Ok(draft.View());
    }
    assert keys[..|keys|] == keys;
    ok := true;
  }

  /** The edit an installation makes inside one update. */
  method Install(draft: Draft, source: Option<Source>, feed: State, now: string) returns (ok: bool)
    modifies draft
    ensures ok <==> InstallEdit(old(draft.View()), source, feed, now).Ok?
    ensures ok ==> InstallEdit(old(draft.View()), source, feed, now) == Ok(draft.View())
  {
    hide FeedResult, JoinAll, AdoptKeys, Registered, Has;
    if source.Some? {
      for i := 0 to |draft.team|
        invariant draft.View() == old(draft.View())
        invariant i <= IndexOf(draft.team, SubKey, source.value.publicKey)
      {
        if draft.team[i].source.publicKey == source.value.publicKey {
          IndexOfAt(draft.team, SubKey, i);
          FoundAt(draft.team, SubKey, source.value.publicKey, i);
          ok := AdoptAll(draft, i, feed.keys);
          if ok {
            draft.team := draft.team[i := draft.team[i].(source := source.value)];
            ok := ApplyFeed(draft, i, feed, now);
          }
          return;
        }
      }
      NotFound(draft.team, SubKey, source.value.publicKey);
    }
    ok := JoinRecords(draft, feed);
    if ok && source.Some? {
      ok := RegisterSource(draft, source.value, feed);
    }
  }

  lemma FoundAt<T>(xs: seq<T>, id: T -> string, key: string, i: nat)
    requires i == IndexOf(xs, id, key) && i < |xs|
    ensures Has(xs, id, key)
  {
  }

  lemma NotFound<T>(xs: seq<T>, id: T -> string, key: string)
    requires |xs| <= IndexOf(xs, id, key)
    ensures !Has(xs, id, key)
  {
  }
}
