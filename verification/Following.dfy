/**
 A machine that only installs verified bundles and follows feeds, in any order, always satisfies the
 starting condition of the last-writer theorem, and its shared links stay attached to shared tunnels.
 */
module Following {
  import opened Wrappers
  import opened Text
  import opened Records
  import opened Model
  import opened Store
  import opened Sync
  import opened FeedSound
  import opened Bundles
  import opened Ownership
  import opened TeamRun
  import T = Team

  // ---------------------------------------------------------------- joining a bundle

  /** The service an item stands for did not change by joining. */
  lemma JoinedService(s: State, feed: State, r: State, v: Service)
    requires UniqueIds(s) && JoinAll(s, feed) == Ok(r) && v in r.services
    ensures Has(s.services, ServiceId, v.id) ==> v in s.services
    ensures Has(feed.services, ServiceId, v.id) ==> v in feed.services
  {
    hide IndexOf, Joined;
    JoinedMeaning(s.services, feed.services, ServiceId);
    FindMember(r.services, ServiceId, v);
    JoinedFind(s.services, feed.services, ServiceId, v.id);
    HasWitness(s.services, ServiceId, v.id);
    HasWitness(feed.services, ServiceId, v.id);
  }

  lemma JoinedTunnelOnPort(s: State, feed: State, r: State, v: Service)
    requires UniqueIds(s) && JoinAll(s, feed) == Ok(r) && OnPort(s.tunnels, v)
    ensures OnPort(r.tunnels, v)
  {
    hide IndexOf, Joined, WithPort;
    JoinedFind(s.tunnels, feed.tunnels, TunnelId, v.tunnelId);
  }

  lemma FeedTunnel(feed: State, v: Service)
    requires Valid(feed) && v in feed.services
    ensures Has(feed.tunnels, TunnelId, v.tunnelId)
  {
    assert ServiceOk(feed.tunnels, v);
  }

  /** The subscriptions after joining: the old ones, and possibly one for the bundle. */
  ghost predicate JoinedTeam(s: State, feed: State, team: seq<Subscription>) {
    team == s.team || exists source :: team == s.team + [Subscription(source, Track(feed), "", "", false)]
  }

  lemma OldItem(s: State, feed: State, r: State, i: nat, v: Service)
    requires UniqueIds(s) && AllStored(s) && JoinAll(s, feed).Ok? && r == JoinAll(s, feed).value.(team := r.team)
    requires i < |s.team| && v in r.services && Item(Services, v.id) in s.team[i].items
    ensures v in s.services
  {
    assert Holds(s, Item(Services, v.id));
    hide Joined, IndexOf, Holds, UniqueIds;
    var joined := JoinAll(s, feed).value;
    JoinedService(s, feed, joined, v);
  }

  lemma JoinTogether(s: State, feed: State, r: State)
    requires UniqueIds(s) && AllStored(s) && Together(s) && Valid(feed)
    requires JoinAll(s, feed).Ok? && r == JoinAll(s, feed).value.(team := r.team) && JoinedTeam(s, feed, r.team)
    ensures Together(r)
  {
    hide UniqueIds, Valid, JoinAll, Track, AllStored;
    forall i, v | 0 <= i < |r.team| && v in r.services && Item(Services, v.id) in r.team[i].items
      ensures Item(Tunnels, v.tunnelId) in r.team[i].items
    {
      if i < |s.team| {
        OldItem(s, feed, r, i, v);
      } else {
        JoinedService(s, feed, JoinAll(s, feed).value, v);
        assert Holds(feed, Item(Services, v.id));
        FeedTunnel(feed, v);
        assert Holds(feed, Item(Tunnels, v.tunnelId));
      }
    }
    hide Holds;
  }

  lemma JoinFollows(s: State, feed: State, r: State)
    requires UniqueIds(s) && AllStored(s) && Follows(s)
    requires JoinAll(s, feed).Ok? && r == JoinAll(s, feed).value.(team := r.team) && JoinedTeam(s, feed, r.team)
    ensures Follows(r)
  {
    NoneKept(feed);
    hide UniqueIds, JoinAll, Track, AllStored, OnPort, IndexOf;
    assert forall i :: |s.team| <= i < |r.team| ==> r.team[i].items == Track(feed);
    forall i, v | 0 <= i < |r.team| && v in r.services && Kept(r.team[i].items, v) ensures OnPort(r.tunnels, v) {
      if i < |s.team| {
        OldItem(s, feed, r, i, v);
        JoinedTunnelOnPort(s, feed, JoinAll(s, feed).value, v);
      }
    }
  }

  lemma NoneKept(feed: State)
    ensures forall v :: !Kept(Track(feed), v)
  {
  }

  /** Joining a bundle, with or without a subscription, keeps the configuration sound. */
  lemma JoinKeepsSound(s: State, source: Option<Source>, feed: State)
    requires Sound(s) && Valid(feed) && JoinAndRegister(s, source, feed).Ok?
    requires source.Some? ==> !Has(s.team, SubKey, source.value.publicKey)
    requires Valid(JoinAndRegister(s, source, feed).value)
    ensures Sound(JoinAndRegister(s, source, feed).value)
    ensures Attached(s) ==> Attached(JoinAndRegister(s, source, feed).value)
  {
    var r := JoinAndRegister(s, source, feed).value;
    var joined := JoinAll(s, feed).value;
    SoundParts(s);
    hide Sound, Valid, UniqueIds, Owned, JoinAll, Registered, Track, Has, Together, Follows;
    JoinNotFollowed(s, source, feed);
    InstallKeepsOwnership(s, source, feed, "");
    JoinTeamIs(s, feed, source);
    if Attached(s) {
      JoinTogether(s, feed, r);
      JoinFollows(s, feed, r);
    }
    SoundOf(r);
  }

  lemma JoinNotFollowed(s: State, source: Option<Source>, feed: State)
    requires source.Some? ==> !Has(s.team, SubKey, source.value.publicKey)
    ensures InstallEdit(s, source, feed, "") == JoinAndRegister(s, source, feed)
  {
    hide JoinAndRegister, Refollow, Has;
  }

  lemma JoinTeamIs(s: State, feed: State, source: Option<Source>)
    requires UniqueIds(s) && Owned(s) && JoinAndRegister(s, source, feed).Ok?
    requires source.Some? ==> !Has(s.team, SubKey, source.value.publicKey)
    ensures JoinedTeam(s, feed, JoinAndRegister(s, source, feed).value.team)
  {
    hide UniqueIds, JoinAll, Track, Registered, Holds;
    JoinAllTeam(s, feed);
    if source.Some? {
      RegisteredOwnership(s.team, 0, source.value, feed);
    }
  }

  lemma JoinAllTeam(s: State, feed: State)
    requires JoinAll(s, feed).Ok?
    ensures JoinAll(s, feed).value.team == s.team
  {
    hide Joined;
  }

  lemma SoundParts(s: State)
    requires Sound(s)
    ensures Valid(s) && UniqueIds(s) && Owned(s) && AllStored(s)
  {
    hide Valid, UniqueIds, AllStored, OneOwner;
  }

  lemma SoundOf(s: State)
    requires Valid(s) && UniqueIds(s) && Owned(s)
    ensures Sound(s)
  {
  }

  // ---------------------------------------------------------------- a bundle of a followed master

  lemma AdoptKeepsSound(s: State, index: nat, k: Key)
    requires index < |s.team| && Sound(s) && ValidKey(k) && AdoptKey(s, index, k).Ok?
    ensures var r := AdoptKey(s, index, k).value;
      Sound(r) && (Attached(s) ==> Attached(r)) && |r.team| == |s.team| && SubKey(r.team[index]) == SubKey(s.team[index])
  {
    var r := AdoptKey(s, index, k).value;
    SoundParts(s);
    hide Valid, UniqueIds, Owned, AllStored, Together, Follows, AdoptKey, Sound;
    AdoptKeepsOwnership(s, index, k);
    AdoptValid(s, index, k);
    if Attached(s) { AdoptFollows(s, index, k); }
    SoundOf(r);
  }

  lemma AdoptValid(s: State, index: nat, k: Key)
    requires index < |s.team| && UniqueIds(s) && Valid(s) && ValidKey(k) && AdoptKey(s, index, k).Ok?
    ensures Valid(AdoptKey(s, index, k).value)
  {
    hide IndexOf, Synced, GoodId, ValidKey, ValidHost, Route, TunnelOk, ServiceOk, Unique, Has;
    var r := AdoptKey(s, index, k).value;
    assert Unique(s.keys, KeyId) && Unique([k], KeyId) by { OneUnique([k], KeyId); }
    forall x | x in r.keys ensures ValidKey(x) {
      SyncedMembers(s.keys, [k], KeyId, x);
    }
    forall h | h in r.hosts ensures HostOk(r.keys, r.hosts, h) {
      assert HostOk(s.keys, s.hosts, h);
      SyncedHas(s.keys, k, h.keyId);
    }
  }

  lemma SyncedHas(keys: seq<Key>, k: Key, id: string)
    requires Unique(keys, KeyId)
    ensures Has(keys, KeyId, id) ==> Has(Synced(keys, [k], KeyId), KeyId, id)
  {
    OneUnique([k], KeyId);
    SyncedFind(keys, [k], KeyId, id);
  }

  lemma AdoptFollows(s: State, index: nat, k: Key)
    requires index < |s.team| && Together(s) && Follows(s) && AdoptKey(s, index, k).Ok?
    ensures Together(AdoptKey(s, index, k).value) && Follows(AdoptKey(s, index, k).value)
  {
    hide Syncable, Synced, Has, OnPort;
    var r := AdoptKey(s, index, k).value;
    assert r.services == s.services && r.tunnels == s.tunnels;
    assert forall i, it :: 0 <= i < |s.team| && it != Item(Keys, k.id) ==>
      (it in r.team[i].items <==> it in s.team[i].items) && (it in s.team[i].items ==> r.team[i].items[it] == s.team[i].items[it]);
  }

  lemma {:induction false} AdoptAllKeepSound(s: State, index: nat, keys: seq<Key>)
    requires index < |s.team| && Sound(s) && (forall k <- keys :: ValidKey(k)) && AdoptKeys(s, index, keys).Ok?
    ensures var r := AdoptKeys(s, index, keys).value;
      Sound(r) && (Attached(s) ==> Attached(r)) && |r.team| == |s.team| && SubKey(r.team[index]) == SubKey(s.team[index])
  {
    hide Sound, Attached, AdoptKey, ValidKey;
    if keys != [] {
      var n := |keys| - 1;
      AdoptAllKeepSound(s, index, keys[..n]);
      AdoptKeepsSound(AdoptKeys(s, index, keys[..n]).value, index, keys[n]);
    }
  }

  lemma ValidFeedKeys(feed: State)
    requires Valid(feed)
    ensures forall k <- feed.keys :: ValidKey(k)
  {
  }

  /** The configuration a feed is applied to when its master's bundle is installed again. */
  lemma ReadySound(s: State, index: nat, source: Source, feed: State)
    requires index < |s.team| && Sound(s) && Valid(feed) && SubKey(s.team[index]) == source.publicKey
    requires AdoptKeys(s, index, feed.keys).Ok?
    ensures var adopted := AdoptKeys(s, index, feed.keys).value;
      && |adopted.team| == |s.team|
      && var ready := adopted.(team := adopted.team[index := adopted.team[index].(source := source)]);
      Sound(ready) && (Attached(s) ==> Attached(ready))
  {
    hide Sound, Attached, Valid, AdoptKeys, Quiet;
    ValidFeedKeys(feed);
    AdoptAllKeepSound(s, index, feed.keys);
    var adopted := AdoptKeys(s, index, feed.keys).value;
    var ready := adopted.(team := adopted.team[index := adopted.team[index].(source := source)]);
    SameButSource(adopted, ready);
    QuietKeeps(adopted, ready);
  }

  lemma FeedAttached(s: State, index: nat, feed: State, now: string)
    requires Situation(s, index, feed) && Owned(s) && Attached(s)
    ensures Attached(Applied(s, index, feed, now))
  {
    FeedTogether(s, index, feed, now);
    FeedFollows(s, index, feed, now);
    hide Situation, Owned, Together, Follows, Applied;
  }

  lemma RefollowKeepsSound(s: State, index: nat, source: Source, feed: State, now: string)
    requires index < |s.team| && Sound(s) && Valid(feed) && SubKey(s.team[index]) == source.publicKey
    requires Refollow(s, index, source, feed, now).Ok? && Valid(Refollow(s, index, source, feed, now).value)
    ensures Sound(Refollow(s, index, source, feed, now).value)
    ensures Attached(s) ==> Attached(Refollow(s, index, source, feed, now).value)
  {
    hide Sound, Attached, AdoptKeys, Valid, Accepts, Applied, UniqueIds, Owned;
    ReadySound(s, index, source, feed);
    var adopted := AdoptKeys(s, index, feed.keys).value;
    var ready := adopted.(team := adopted.team[index := adopted.team[index].(source := source)]);
    SoundParts(ready);
    FeedKeepsOwnership(ready, index, feed, now);
    FeedKeepsIds(ready, index, feed, now);
    if Attached(s) { FeedAttached(ready, index, feed, now); }
    SoundOf(Applied(ready, index, feed, now));
  }

  lemma SameButSource(a: State, b: State)
    requires b == a.(team := b.team) && |a.team| == |b.team|
    requires forall i :: 0 <= i < |a.team| ==> b.team[i].items == a.team[i].items && SubKey(b.team[i]) == SubKey(a.team[i])
    ensures Quiet(a, b)
  {
  }

  /** Installing a verified bundle keeps the configuration sound. */
  lemma InstallKeepsSound(s: State, source: Option<Source>, feed: State, now: string)
    requires Sound(s) && Valid(feed)
    ensures Sound(Commit(s, InstallEdit(s, source, feed, now)))
    ensures Attached(s) ==> Attached(Commit(s, InstallEdit(s, source, feed, now)))
  {
    hide Sound, Attached, JoinAndRegister, Refollow, Valid, IndexOf;
    var r := InstallEdit(s, source, feed, now);
    if r.Ok? && Valid(r.value) {
      if source.Some? && Has(s.team, SubKey, source.value.publicKey) {
        HasWitness(s.team, SubKey, source.value.publicKey);
        RefollowKeepsSound(s, IndexOf(s.team, SubKey, source.value.publicKey), source.value, feed, now);
      } else {
        JoinKeepsSound(s, source, feed);
      }
    }
  }

  // ---------------------------------------------------------------- runs

  datatype Move = Install(source: Option<Source>, feed: State, now: string) | Step(step: T.Step)

  predicate Checked(m: Move) {
    match m
    case Install(_, feed, _) => Valid(feed)
    case Step(step) => Verified(step)
  }

  function Moved(s: State, m: Move): State {
    match m
    case Install(source, feed, now) => Commit(s, InstallEdit(s, source, feed, now))
    case Step(step) => T.Next(s, step)
  }

  function MovedAll(moves: seq<Move>): State {
    if moves == [] then EMPTY else Moved(MovedAll(moves[..|moves| - 1]), moves[|moves| - 1])
  }

  lemma EmptySound()
    ensures Sound(EMPTY) && Attached(EMPTY)
  {
  }

  /** A machine that installs verified bundles and follows feeds is sound after every run. */
  lemma {:induction false} FollowersSound(moves: seq<Move>)
    requires forall m <- moves :: Checked(m)
    ensures Sound(MovedAll(moves)) && Attached(MovedAll(moves))
  {
    hide Sound, Attached, InstallEdit, T.Next, Valid, Verified;
    if moves == [] {
      EmptySound();
    } else {
      var n := |moves| - 1;
      FollowersSound(moves[..n]);
      assert Checked(moves[n]);
      match moves[n] {
        case Install(source, feed, now) => InstallKeepsSound(MovedAll(moves[..n]), source, feed, now);
        case Step(step) => StepKeepsSound(MovedAll(moves[..n]), step);
      }
    }
  }
}
