/**
 Which subscription owns which record: every owned item has a local record, no item has two
 owners, and no master is followed twice.
 */
module Ownership {
  import opened Wrappers
  import opened Text
  import opened Records
  import opened Model
  import opened Store
  import opened Sync
  import opened FeedSound
  import opened Bundles

  ghost predicate AllStored(s: State) {
    forall i, it :: 0 <= i < |s.team| && it in s.team[i].items ==> Holds(s, it)
  }

  ghost predicate OneOwner(team: seq<Subscription>) {
    forall i, j, it :: 0 <= i < j < |team| && it in team[i].items ==> it !in team[j].items
  }

  ghost predicate Owned(s: State) {
    AllStored(s) && OneOwner(s.team) && Unique(s.team, SubKey)
  }

  lemma FeedHolds(s: State, index: nat, feed: State, now: string, it: Item)
    requires Applies(s, index, feed)
    ensures Holds(Applied(s, index, feed, now), it) <==> Holds(s, it) || Holds(feed, it)
    ensures Holds(s, it) && Holds(feed, it) ==> it in s.team[index].items
  {
    HostLookup(s, index, feed, now, it.id);
    TunnelLookup(s, index, feed, now, it.id);
    KeyLookup(s, index, feed, now, it.id);
    ServiceLookup(s, index, feed, now, it.id);
    hide IndexOf, Synced, Retargeted, Marks, Localized, GoodIds, UniqueIds, Unique;
    match it.kind
    case Hosts => HasWitness(feed.hosts, HostId, it.id);
    case Tunnels => HasWitness(feed.tunnels, TunnelId, it.id);
    case Services => HasWitness(feed.services, ServiceId, it.id);
    case Keys => HasWitness(feed.keys, KeyId, it.id);
  }

  /** A feed adopts only records nobody owned. */
  lemma FeedKeepsOwnership(s: State, index: nat, feed: State, now: string)
    requires Applies(s, index, feed) && Owned(s)
    ensures Owned(Applied(s, index, feed, now))
  {
    hide IndexOf, Accepts, UniqueIds, Marks, Synced, Localized, RetargetAll, Holds;
    var r := Applied(s, index, feed, now);
    forall i, it | 0 <= i < |r.team| && it in r.team[i].items
      ensures Holds(r, it)
    {
      FeedHolds(s, index, feed, now, it);
    }
    forall i, j, it | 0 <= i < j < |r.team| && it in r.team[i].items ensures it !in r.team[j].items {
      FeedHolds(s, index, feed, now, it);
      assert it in s.team[i].items ==> Holds(s, it);
      assert it in s.team[j].items ==> Holds(s, it);
    }
    assert forall i :: 0 <= i < |r.team| ==> SubKey(r.team[i]) == SubKey(s.team[i]);
  }

  lemma AdoptKeepsOwnership(s: State, index: nat, k: Key)
    requires index < |s.team| && UniqueIds(s) && Owned(s) && AdoptKey(s, index, k).Ok?
    ensures var r := AdoptKey(s, index, k).value;
      Owned(r) && UniqueIds(r) && |r.team| == |s.team| && SubKey(r.team[index]) == SubKey(s.team[index])
  {
    hide IndexOf, Synced, GoodId;
    var r := AdoptKey(s, index, k).value;
    var it := Item(Keys, k.id);
    SyncedUnique(s.keys, [k], KeyId);
    forall id ensures Has(r.keys, KeyId, id) <==> Has(s.keys, KeyId, id) || id == k.id {
      SyncedFind(s.keys, [k], KeyId, id);
      AppendKeyHas(k, id);
    }
    forall i, other | 0 <= i < |r.team| && other in r.team[i].items ensures Holds(r, other) {
      assert other in s.team[i].items ==> Holds(s, other);
    }
    forall i, j, other | 0 <= i < j < |r.team| && other in r.team[i].items ensures other !in r.team[j].items {
      if other == it {
        assert it in s.team[i].items ==> Holds(s, it);
        assert it in s.team[j].items ==> Holds(s, it);
      }
    }
    assert forall i :: 0 <= i < |r.team| ==> SubKey(r.team[i]) == SubKey(s.team[i]);
  }

  lemma AppendKeyHas(k: Key, id: string)
    ensures Has([k], KeyId, id) <==> id == k.id
  {
  }

  lemma {:induction false} AdoptAllKeepsOwnership(s: State, index: nat, keys: seq<Key>)
    requires index < |s.team| && UniqueIds(s) && Owned(s) && AdoptKeys(s, index, keys).Ok?
    ensures var r := AdoptKeys(s, index, keys).value;
      Owned(r) && UniqueIds(r) && |r.team| == |s.team| && SubKey(r.team[index]) == SubKey(s.team[index])
  {
    hide Owned, UniqueIds, AdoptKey;
    if keys != [] {
      var n := |keys| - 1;
      AdoptAllKeepsOwnership(s, index, keys[..n]);
      AdoptKeepsOwnership(AdoptKeys(s, index, keys[..n]).value, index, keys[n]);
    }
  }

  lemma JoinHolds(s: State, feed: State, it: Item)
    requires UniqueIds(s) && JoinAll(s, feed).Ok?
    ensures var r := JoinAll(s, feed).value;
      UniqueIds(r) && r.team == s.team && (Holds(r, it) <==> Holds(s, it) || Holds(feed, it))
  {
    hide IndexOf, Joined;
    JoinedMeaning(s.hosts, feed.hosts, HostId);
    JoinedMeaning(s.keys, feed.keys, KeyId);
    JoinedMeaning(s.tunnels, feed.tunnels, TunnelId);
    JoinedMeaning(s.services, feed.services, ServiceId);
    JoinedFind(s.hosts, feed.hosts, HostId, it.id);
    JoinedFind(s.keys, feed.keys, KeyId, it.id);
    JoinedFind(s.tunnels, feed.tunnels, TunnelId, it.id);
    JoinedFind(s.services, feed.services, ServiceId, it.id);
  }

  /** Registering appends a subscription whose items nobody owns, or refreshes an address. */
  lemma {:induction false} RegisteredOwnership(team: seq<Subscription>, at: nat, source: Source, feed: State)
    requires at <= |team| && OneOwner(team) && Unique(team, SubKey) && !Has(team, SubKey, source.publicKey)
    requires forall i, it :: 0 <= i < at && it in Track(feed) ==> it !in team[i].items
    requires Registered(team, at, source, feed).Ok?
    ensures var r := Registered(team, at, source, feed).value;
      && r == team + [Subscription(source, Track(feed), "", "", false)]
      && OneOwner(r) && Unique(r, SubKey)
    decreases |team| - at
  {
    hide IndexOf, Track;
    if at < |team| {
      assert SubKey(team[at]) != source.publicKey by { HasMember(team, SubKey, team[at]); }
      RegisteredOwnership(team, at + 1, source, feed);
    } else {
      AppendUnique(team, SubKey, Subscription(source, Track(feed), "", "", false));
    }
  }

  /** Installing a bundle keeps ownership, whether it starts a subscription or continues one. */
  lemma InstallKeepsOwnership(s: State, source: Option<Source>, feed: State, now: string)
    requires UniqueIds(s) && Owned(s) && InstallEdit(s, source, feed, now).Ok?
    ensures Owned(InstallEdit(s, source, feed, now).value) && UniqueIds(InstallEdit(s, source, feed, now).value)
  {
    hide IndexOf, UniqueIds, Accepts, Joined, AdoptKeys, Track, Holds, Applied, JoinAll, Has;
    if source.Some? && Has(s.team, SubKey, source.value.publicKey) {
      var index := IndexOf(s.team, SubKey, source.value.publicKey);
      HasWitness(s.team, SubKey, source.value.publicKey);
      RefollowKeepsOwnership(s, index, source.value, feed, now);
    } else {
      var joined := JoinAll(s, feed).value;
      forall it ensures UniqueIds(joined) && joined.team == s.team && (Holds(joined, it) <==> Holds(s, it) || Holds(feed, it)) {
        JoinHolds(s, feed, it);
      }
      JoinHolds(s, feed, Item(Hosts, ""));
      if source.Some? {
        RegisteredOwnership(s.team, 0, source.value, feed);
        TeamIrrelevant(joined, Registered(s.team, 0, source.value, feed).value);
      }
    }
  }

  lemma TeamIrrelevant(s: State, team: seq<Subscription>)
    ensures UniqueIds(s.(team := team)) <==> UniqueIds(s)
    ensures forall it :: Holds(s.(team := team), it) <==> Holds(s, it)
  {
  }

  lemma RefollowKeepsOwnership(s: State, index: nat, source: Source, feed: State, now: string)
    requires index < |s.team| && SubKey(s.team[index]) == source.publicKey
    requires UniqueIds(s) && Owned(s) && Refollow(s, index, source, feed, now).Ok?
    ensures Owned(Refollow(s, index, source, feed, now).value) && UniqueIds(Refollow(s, index, source, feed, now).value)
  {
    hide IndexOf, UniqueIds, Accepts, AdoptKeys, Track, Holds, Applied;
    AdoptAllKeepsOwnership(s, index, feed.keys);
    var adopted := AdoptKeys(s, index, feed.keys).value;
    var team := adopted.team[index := adopted.team[index].(source := source)];
    var ready := adopted.(team := team);
    TeamIrrelevant(adopted, team);
    assert forall i :: 0 <= i < |team| ==> SubKey(team[i]) == SubKey(adopted.team[i]) && team[i].items == adopted.team[i].items;
    assert Owned(ready);
    FeedKeepsOwnership(ready, index, feed, now);
    FeedKeepsIds(ready, index, feed, now);
  }
}
