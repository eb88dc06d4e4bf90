/**
 When a feed is accepted, what becomes of the links it no longer lists, and when a backup is accepted,
 each said of the records themselves.
 */
module FeedLaws {
  import opened Wrappers
  import opened Text
  import opened Records
  import opened Model
  import opened Store
  import opened Sync
  import opened FeedSound
  import B = Backup
  import U = Bundles

  // ---------------------------------------------------------------- accepting a feed

  /** The records of one kind: ids well-formed and distinct, and whatever is stored already belongs to the
      subscription. */
  ghost predicate OwnsAll<T>(stored: seq<T>, incoming: seq<T>, kind: Kind, items: map<Item, Mark>, id: T -> string) {
    && (forall x <- incoming :: GoodId(id(x)))
    && (forall i, j :: 0 <= i < j < |incoming| ==> id(incoming[i]) != id(incoming[j]))
    && (forall x <- incoming :: Stored(stored, id, id(x)) ==> Item(kind, id(x)) in items)
  }

  /** A link of the subscription that the feed no longer lists. */
  ghost predicate Dropped(items: map<Item, Mark>, feed: State, v: Service) {
    Item(Services, v.id) in items && !Stored(feed.services, ServiceId, v.id)
  }

  lemma OwnsSyncable<T>(stored: seq<T>, incoming: seq<T>, kind: Kind, items: map<Item, Mark>, id: T -> string)
    ensures Syncable(stored, incoming, kind, items, id) <==> OwnsAll(stored, incoming, kind, items, id)
  {
    hide GoodId, IndexOf, Stored, Has;
    forall x | x in incoming ensures Stored(stored, id, id(x)) <==> Has(stored, id, id(x)) { StoredHas(stored, id, id(x)); }
  }

  lemma KeysSyncable(stored: seq<Key>, incoming: seq<Key>, items: map<Item, Mark>)
    ensures Syncable(stored, Localized(stored, incoming), Keys, items, KeyId) <==> Syncable(stored, incoming, Keys, items, KeyId)
  {
    hide IndexOf, GoodId;
    var l := Localized(stored, incoming);
    assert forall i :: 0 <= i < |l| ==> KeyId(l[i]) == KeyId(incoming[i]);
  }

  /** A feed is accepted exactly when every key it lists is stored and the subscription's own, every other
      record it lists is new or the subscription's own, and every link it no longer lists can follow a tunnel. */
  lemma FeedAccepted(s: State, index: nat, feed: State, now: string)
    requires UniqueIds(s) && index < |s.team|
    ensures var items := s.team[index].items;
      FeedResult(s, index, feed, now).Ok? <==>
        && (forall k <- feed.keys :: Stored(s.keys, KeyId, k.id) && Item(Keys, k.id) in items)
        && OwnsAll(s.keys, feed.keys, Keys, items, KeyId) && OwnsAll(s.hosts, feed.hosts, Hosts, items, HostId)
        && OwnsAll(s.tunnels, feed.tunnels, Tunnels, items, TunnelId) && OwnsAll(s.services, feed.services, Services, items, ServiceId)
        && (forall v <- s.services :: Dropped(items, feed, v) ==>
              v.url.Url? && (Stored(s.tunnels, TunnelId, v.tunnelId) || Stored(feed.tunnels, TunnelId, v.tunnelId)))
  {
    var items := s.team[index].items;
    OwnsSyncable(s.keys, feed.keys, Keys, items, KeyId);
    OwnsSyncable(s.hosts, feed.hosts, Hosts, items, HostId);
    OwnsSyncable(s.tunnels, feed.tunnels, Tunnels, items, TunnelId);
    OwnsSyncable(s.services, feed.services, Services, items, ServiceId);
    KeysSyncable(s.keys, feed.keys, items);
    KnownKeys(s.keys, feed.keys, items);
    if Syncable(s.services, feed.services, Services, items, ServiceId) && Syncable(s.tunnels, feed.tunnels, Tunnels, items, TunnelId) {
      FollowsTunnels(s, feed, items);
    }
    hide IndexOf, Syncable, OwnsAll, Stored, Retargetable, KeysKnown, Localized, Applied, Marks, Synced, Dropped;
  }

  lemma KnownKeys(stored: seq<Key>, incoming: seq<Key>, items: map<Item, Mark>)
    ensures KeysKnown(stored, items, incoming) <==> forall k <- incoming :: Stored(stored, KeyId, k.id) && Item(Keys, k.id) in items
  {
    hide IndexOf, Stored, Has;
    forall k | k in incoming ensures Stored(stored, KeyId, k.id) <==> Has(stored, KeyId, k.id) { StoredHas(stored, KeyId, k.id); }
  }

  lemma FollowsTunnels(s: State, feed: State, items: map<Item, Mark>)
    requires UniqueIds(s)
    requires Syncable(s.services, feed.services, Services, items, ServiceId) && Syncable(s.tunnels, feed.tunnels, Tunnels, items, TunnelId)
    ensures Retargetable(Synced(s.services, feed.services, ServiceId), Synced(s.tunnels, feed.tunnels, TunnelId), Marks(items, feed)) <==>
      forall v <- s.services :: Dropped(items, feed, v) ==>
        v.url.Url? && (Stored(s.tunnels, TunnelId, v.tunnelId) || Stored(feed.tunnels, TunnelId, v.tunnelId))
  {
    var services, tunnels, marks := Synced(s.services, feed.services, ServiceId), Synced(s.tunnels, feed.tunnels, TunnelId), Marks(items, feed);
    hide IndexOf, Has, GoodIds, Synced, Stored, Marks;
    forall v: Service ensures Kept(marks, v) <==> Dropped(items, feed, v) { KeptDropped(items, feed, v); }
    forall v: Service | Dropped(items, feed, v) ensures v in services <==> v in s.services {
      DroppedStored(s.services, feed.services, v);
    }
    forall v: Service ensures Has(tunnels, TunnelId, v.tunnelId)
      <==> Stored(s.tunnels, TunnelId, v.tunnelId) || Stored(feed.tunnels, TunnelId, v.tunnelId)
    {
      SyncedHas(s.tunnels, feed.tunnels, TunnelId, v.tunnelId);
    }
  }

  lemma KeptDropped(items: map<Item, Mark>, feed: State, v: Service)
    ensures Kept(Marks(items, feed), v) <==> Dropped(items, feed, v)
  {
    StoredHas(feed.services, ServiceId, v.id);
    hide Has, Stored, IndexOf;
    var it := Item(Services, v.id);
    assert Holds(feed, it) <==> Has(feed.services, ServiceId, v.id);
    assert it in Track(feed) <==> Holds(feed, it);
  }

  lemma SyncedHas<T>(stored: seq<T>, incoming: seq<T>, id: T -> string, key: string)
    requires Unique(stored, id) && Unique(incoming, id)
    ensures Has(Synced(stored, incoming, id), id, key) <==> Stored(stored, id, key) || Stored(incoming, id, key)
  {
    SyncedFind(stored, incoming, id, key);
    StoredHas(stored, id, key);
    StoredHas(incoming, id, key);
  }

  lemma DroppedStored(stored: seq<Service>, incoming: seq<Service>, v: Service)
    requires Unique(stored, ServiceId) && Unique(incoming, ServiceId) && !Stored(incoming, ServiceId, v.id)
    ensures v in Synced(stored, incoming, ServiceId) <==> v in stored
  {
    var r := Synced(stored, incoming, ServiceId);
    SyncedUnique(stored, incoming, ServiceId);
    SyncedFind(stored, incoming, ServiceId, v.id);
    StoredHas(incoming, ServiceId, v.id);
    hide Synced, Stored, IndexOf;
    if v in stored { FindMember(stored, ServiceId, v); HasWitness(r, ServiceId, v.id); }
    if v in r { FindMember(r, ServiceId, v); HasWitness(stored, ServiceId, v.id); }
  }

  // ---------------------------------------------------------------- what a feed leaves

  /** A link that left the feed stays as it is, except that it opens the local end its tunnel has now. */
  lemma DroppedLinkFollows(s: State, index: nat, feed: State, now: string, v: Service)
    requires Applies(s, index, feed) && v in s.services && Dropped(s.team[index].items, feed, v)
    ensures var r := Applied(s, index, feed, now);
      exists t <- r.tunnels :: t.id == v.tunnelId && v.url.Url?
        && Service(v.id, v.name, v.environment, v.tunnelId,
                   Url(v.url.scheme, v.url.userInfo, v.url.opaquePart, "127.0.0.1", Itoa(t.localPort), v.url.rest),
                   v.description) in r.services
  {
    var r, items := Applied(s, index, feed, now), s.team[index].items;
    KeptDropped(items, feed, v);
    ServiceLookup(s, index, feed, now, v.id);
    StoredHas(feed.services, ServiceId, v.id);
    FindMember(s.services, ServiceId, v);
    assert v in Synced(s.services, feed.services, ServiceId) by { DroppedStored(s.services, feed.services, v); }
    hide IndexOf, Synced, Marks, Localized, RetargetAll, Stored, Valid, Itoa;
    HasWitness(r.tunnels, TunnelId, v.tunnelId);
    HasWitness(r.services, ServiceId, v.id);
  }

  /** Links the feed lists, and links of others, are not changed by following. */
  lemma OtherLinksStay(s: State, index: nat, feed: State, now: string, v: Service)
    requires Applies(s, index, feed)
    requires v in feed.services || (v in s.services && Item(Services, v.id) !in s.team[index].items && !Stored(feed.services, ServiceId, v.id))
    ensures v in Applied(s, index, feed, now).services
  {
    var r, items := Applied(s, index, feed, now), s.team[index].items;
    KeptDropped(items, feed, v);
    ServiceLookup(s, index, feed, now, v.id);
    StoredHas(feed.services, ServiceId, v.id);
    if v in feed.services {
      FindMember(feed.services, ServiceId, v);
      HasMember(feed.services, ServiceId, v);
    } else {
      FindMember(s.services, ServiceId, v);
    }
    hide IndexOf, Synced, Marks, Localized, RetargetAll, Stored, Valid;
    HasWitness(r.services, ServiceId, v.id);
  }

  /** The subscription never forgets an item: it is current when the feed lists it, and missing otherwise;
      the time is noted, the error is gone, and nothing else about any subscription changes. */
  lemma ItemsMarked(s: State, index: nat, feed: State, now: string)
    requires index < |s.team|
    ensures var was, r := s.team[index], Applied(s, index, feed, now).team;
      && |r| == |s.team| && (forall j :: 0 <= j < |r| && j != index ==> r[j] == s.team[j])
      && r[index] == Subscription(was.source, r[index].items, now, "", was.paused)
      && (forall it :: it in r[index].items <==> it in was.items || Lists(feed, it))
      && (forall it <- r[index].items :: r[index].items[it] == if Lists(feed, it) then Current else Missing)
  {
    forall it ensures Lists(feed, it) <==> Holds(feed, it) {
      StoredHas(feed.hosts, HostId, it.id);
      StoredHas(feed.keys, KeyId, it.id);
      StoredHas(feed.tunnels, TunnelId, it.id);
      StoredHas(feed.services, ServiceId, it.id);
    }
    hide IndexOf, Synced, Localized, RetargetAll, Lists, Holds;
  }

  ghost predicate Lists(feed: State, it: Item) {
    match it.kind
    case Hosts => Stored(feed.hosts, HostId, it.id)
    case Keys => Stored(feed.keys, KeyId, it.id)
    case Tunnels => Stored(feed.tunnels, TunnelId, it.id)
    case Services => Stored(feed.services, ServiceId, it.id)
  }

  // ---------------------------------------------------------------- accepting a backup

  /** The records an import adds: those whose id is not stored, in the order of the file. */
  lemma {:induction false} AdditionsFilter<T>(stored: seq<T>, incoming: seq<T>, id: T -> string)
    ensures Additions(stored, incoming, id) == Filter(incoming, (x: T) => !Has(stored, id, id(x)))
  {
    hide IndexOf, Has;
    if incoming != [] { AdditionsFilter(stored, incoming[..|incoming| - 1], id); }
  }

  /** The two sides agree on a kind of record. */
  ghost predicate Agree<T>(stored: seq<T>, incoming: seq<T>, id: T -> string) {
    && (forall x <- incoming :: GoodId(id(x)))
    && (forall i, j :: 0 <= i < j < |incoming| ==> id(incoming[i]) != id(incoming[j]))
    && (forall x <- stored, y <- incoming :: id(x) == id(y) ==> x == y)
  }

  lemma AgreeMergeable<T>(stored: seq<T>, incoming: seq<T>, id: T -> string)
    requires Unique(stored, id)
    ensures B.Mergeable(stored, incoming, id) <==> Agree(stored, incoming, id)
  {
    B.AgreesExactly(stored, incoming, id);
    hide GoodId, IndexOf, B.Agrees;
  }

  /** What one kind of record is after an import. */
  ghost predicate Union<T>(stored: seq<T>, incoming: seq<T>, id: T -> string, r: seq<T>, added: nat) {
    && |r| == |stored| + added && r[..|stored|] == stored
    && r[|stored|..] == Filter(incoming, (x: T) => !Has(stored, id, id(x)))
  }

  lemma ExtendedUnion<T>(stored: seq<T>, incoming: seq<T>, id: T -> string)
    ensures Union(stored, incoming, id, B.Extended(stored, incoming, id), |Additions(stored, incoming, id)|)
  {
    AdditionsFilter(stored, incoming, id);
    hide Filter, Additions, Has;
  }

  ghost predicate IsUnion(s: State, file: B.File, withSettings: bool, r: State, added: B.Counts) {
    && Union(s.hosts, file.hosts, HostId, r.hosts, added.hosts) && Union(s.keys, file.keys, KeyId, r.keys, added.keys)
    && Union(s.tunnels, file.tunnels, TunnelId, r.tunnels, added.tunnels)
    && Union(s.services, file.services, ServiceId, r.services, added.services)
    && r.team == s.team && r.settings == if withSettings then file.settings else s.settings
  }

  /** An import succeeds exactly when the file is of the one known format and version, its paths are
      accepted, both sides agree, and the union passes the check; the result is that union, with the
      number of records added of each kind. */
  lemma ImportExact(s: State, file: B.File, withSettings: bool, pathOk: B.PathTest, r: State, added: B.Counts)
    requires UniqueIds(s)
    ensures B.Import(s, file, withSettings, pathOk) == Ok((r, added)) <==>
      && file.format == "sshdesk" && file.version == 1
      && (forall k <- file.keys :: pathOk(k.path))
      && (withSettings ==> pathOk(file.settings.knownHosts) && pathOk(file.settings.sshConfig))
      && Agree(s.hosts, file.hosts, HostId) && Agree(s.keys, file.keys, KeyId)
      && Agree(s.tunnels, file.tunnels, TunnelId) && Agree(s.services, file.services, ServiceId)
      && IsUnion(s, file, withSettings, r, added) && Valid(r)
  {
    AgreeMergeable(s.hosts, file.hosts, HostId);
    AgreeMergeable(s.keys, file.keys, KeyId);
    AgreeMergeable(s.tunnels, file.tunnels, TunnelId);
    AgreeMergeable(s.services, file.services, ServiceId);
    UnionIs(s, file, withSettings, r, added);
    hide Valid, B.Mergeable, Agree, Unique, IsUnion, B.Merged, B.Added;
  }

  lemma UnionIs(s: State, file: B.File, withSettings: bool, r: State, added: B.Counts)
    ensures IsUnion(s, file, withSettings, r, added) <==> r == B.Merged(s, file, withSettings) && added == B.Added(s, file)
  {
    ExtendedUnion(s.hosts, file.hosts, HostId);
    ExtendedUnion(s.keys, file.keys, KeyId);
    ExtendedUnion(s.tunnels, file.tunnels, TunnelId);
    ExtendedUnion(s.services, file.services, ServiceId);
    UnionOne(s.hosts, file.hosts, HostId, r.hosts, added.hosts);
    UnionOne(s.keys, file.keys, KeyId, r.keys, added.keys);
    UnionOne(s.tunnels, file.tunnels, TunnelId, r.tunnels, added.tunnels);
    UnionOne(s.services, file.services, ServiceId, r.services, added.services);
    hide Union, Additions, B.Extended;
  }

  lemma UnionOne<T>(stored: seq<T>, incoming: seq<T>, id: T -> string, r: seq<T>, added: nat)
    ensures Union(stored, incoming, id, r, added) <==>
      r == B.Extended(stored, incoming, id) && added == |Additions(stored, incoming, id)|
  {
    AdditionsFilter(stored, incoming, id);
    hide Filter, Additions, Has;
    if Union(stored, incoming, id, r, added) { assert r == r[..|stored|] + r[|stored|..]; }
  }

  // ---------------------------------------------------------------- joining a bundle

  /** Joining one kind of record succeeds exactly when both sides agree, and appends the new records in
      their order. */
  lemma {:induction false} JoinedExact<T>(stored: seq<T>, incoming: seq<T>, id: T -> string)
    requires Unique(stored, id) && Unique(incoming, id)
    ensures U.Joined(stored, incoming, id).Ok? <==> forall x <- stored, y <- incoming :: id(x) == id(y) ==> x == y
    ensures U.Joined(stored, incoming, id).Ok? ==>
      U.Joined(stored, incoming, id).value == stored + Filter(incoming, (x: T) => !Has(stored, id, id(x)))
  {
    if incoming != [] {
      var n := |incoming| - 1;
      var v, init := incoming[n], incoming[..n];
      assert incoming == init + [v];
      JoinedExact(stored, init, id);
      if U.Joined(stored, init, id).Ok? { JoinedLast(stored, init, v, id); }
      hide IndexOf, Filter, FindLast, Has;
      assert v in incoming && forall y <- init :: y in incoming;
      assert Filter(incoming, (x: T) => !Has(stored, id, id(x))) ==
        Filter(init, (x: T) => !Has(stored, id, id(x))) + if !Has(stored, id, id(v)) then [v] else [] by { FilterLast(init, v, (x: T) => !Has(stored, id, id(x))); }
    }
  }

  lemma FilterLast<T>(xs: seq<T>, x: T, p: T -> bool)
    ensures Filter(xs + [x], p) == Filter(xs, p) + if p(x) then [x] else []
  {
    assert (xs + [x])[..|xs|] == xs;
  }

  lemma JoinedLast<T>(stored: seq<T>, init: seq<T>, v: T, id: T -> string)
    requires Unique(stored, id) && Unique(init + [v], id) && U.Joined(stored, init, id).Ok?
    ensures var found := FindLast(U.Joined(stored, init, id).value, id, id(v));
      && (found.Some? <==> Has(stored, id, id(v)))
      && (found.Some? ==> found.value in stored && id(found.value) == id(v))
      && forall x <- stored :: id(x) == id(v) ==> found == Some(x)
  {
    var r := U.Joined(stored, init, id).value;
    assert Unique(init, id) by { assert forall i :: 0 <= i < |init| ==> (init + [v])[i] == init[i]; }
    U.JoinedMeaning(stored, init, id);
    U.JoinedFind(stored, init, id, id(v));
    FindLastUnique(r, id, id(v));
    HasWitness(stored, id, id(v));
    HasWitness(init, id, id(v));
    NotIn(init, v, id);
    forall x | x in stored && id(x) == id(v) ensures Find(stored, id, id(v)) == Some(x) && Has(stored, id, id(v)) {
      FindMember(stored, id, x);
      HasMember(stored, id, x);
    }
  }

  lemma NotIn<T>(init: seq<T>, v: T, id: T -> string)
    requires Unique(init + [v], id)
    ensures !Has(init, id, id(v))
  {
    assert (init + [v])[|init|] == v;
    assert forall i :: 0 <= i < |init| ==> (init + [v])[i] == init[i];
  }
}
