/**
 What a successful feed does to a sound configuration: lookups, stability of everything outside
 the subscription, resolved references, no jump cycle, and exactly when the closing check fails.
 */
module FeedSound {
  import opened Wrappers
  import opened Text
  import opened Records
  import opened Model
  import opened Store
  import opened Sync

  /** A feed this subscription accepts. */
  predicate Applies(s: State, index: nat, feed: State) {
    UniqueIds(s) && index < |s.team| && Accepts(s, s.team[index].items, feed)
  }

  /** A feed that passed the check on arrival, accepted by a checked configuration. */
  predicate Situation(s: State, index: nat, feed: State) {
    Valid(s) && Valid(feed) && Applies(s, index, feed)
  }

  /** Where the key file lives on this machine. */
  function LocalPath(stored: seq<Key>, key: string): string {
    match Find(stored, KeyId, key)
    case None => ""
    case Some(k) => k.path
  }

  lemma LocalizedFind(stored: seq<Key>, incoming: seq<Key>, key: string)
    requires forall k <- incoming :: Has(stored, KeyId, k.id)
    ensures Has(Localized(stored, incoming), KeyId, key) <==> Has(incoming, KeyId, key)
    ensures Has(incoming, KeyId, key) ==>
      Find(Localized(stored, incoming), KeyId, key) ==
      Some(Find(incoming, KeyId, key).value.(path := LocalPath(stored, key)))
  {
    var l := Localized(stored, incoming);
    SameIndex(l, incoming, KeyId, key);
    var i := IndexOf(incoming, KeyId, key);
    if i < |incoming| {
      assert incoming[i] in incoming;
    }
  }

  lemma RetargetFind(services: seq<Service>, tunnels: seq<Tunnel>, marks: map<Item, Mark>, key: string)
    ensures Find(RetargetAll(services, tunnels, marks), ServiceId, key) ==
      match Find(services, ServiceId, key) {
        case None => None
        case Some(v) => Some(Retargeted(tunnels, marks, v))
      }
    ensures forall i :: 0 <= i < |services| ==> RetargetAll(services, tunnels, marks)[i].id == services[i].id
  {
    SameIndex(RetargetAll(services, tunnels, marks), services, ServiceId, key);
  }

  /** The version of an item's record that a feed leaves behind. */
  function Latest<T>(feed: seq<T>, stored: seq<T>, id: T -> string, key: string): Option<T> {
    if Has(feed, id, key) then Find(feed, id, key) else Find(stored, id, key)
  }

  lemma HostLookup(s: State, index: nat, feed: State, now: string, key: string)
    requires Applies(s, index, feed)
    ensures Find(Applied(s, index, feed, now).hosts, HostId, key) == Latest(feed.hosts, s.hosts, HostId, key)
  {
    hide IndexOf, Valid, Synced, UniqueIds, RetargetAll, Localized, Marks, Find;
    SyncedFind(s.hosts, feed.hosts, HostId, key);
  }

  lemma TunnelLookup(s: State, index: nat, feed: State, now: string, key: string)
    requires Applies(s, index, feed)
    ensures Find(Applied(s, index, feed, now).tunnels, TunnelId, key) == Latest(feed.tunnels, s.tunnels, TunnelId, key)
  {
    hide IndexOf, Valid, Synced, UniqueIds, RetargetAll, Localized, Marks, Find;
    SyncedFind(s.tunnels, feed.tunnels, TunnelId, key);
  }

  /** Keys keep their local path. */
  lemma KeyLookup(s: State, index: nat, feed: State, now: string, key: string)
    requires Applies(s, index, feed)
    ensures Find(Applied(s, index, feed, now).keys, KeyId, key) ==
      if Has(feed.keys, KeyId, key) then Some(Find(feed.keys, KeyId, key).value.(path := LocalPath(s.keys, key)))
      else Find(s.keys, KeyId, key)
  {
    hide IndexOf, Valid, Synced, UniqueIds, RetargetAll, Localized, Marks;
    SyncedFind(s.keys, Localized(s.keys, feed.keys), KeyId, key);
    LocalizedFind(s.keys, feed.keys, key);
  }

  /** Services that left the feed follow their tunnel. */
  lemma ServiceLookup(s: State, index: nat, feed: State, now: string, key: string)
    requires Applies(s, index, feed)
    ensures var r := Applied(s, index, feed, now);
      Find(r.services, ServiceId, key) ==
      match Latest(feed.services, s.services, ServiceId, key) {
        case None => None
        case Some(v) => Some(Retargeted(r.tunnels, Marks(s.team[index].items, feed), v))
      }
  {
    hide IndexOf, Valid, Synced, UniqueIds, RetargetAll, Retargeted, Localized, Marks, Find;
    SyncedFind(s.services, feed.services, ServiceId, key);
    RetargetFind(Synced(s.services, feed.services, ServiceId), Synced(s.tunnels, feed.tunnels, TunnelId),
                 Marks(s.team[index].items, feed), key);
  }

  /** Identifiers stay distinct and non-empty. */
  lemma FeedKeepsIds(s: State, index: nat, feed: State, now: string)
    requires Applies(s, index, feed)
    ensures UniqueIds(Applied(s, index, feed, now))
    ensures NamedIds(s) ==> NamedIds(Applied(s, index, feed, now))
  {
    hide IndexOf, Valid, Synced, Retargeted, Marks, Localized;
    var r := Applied(s, index, feed, now);
    SyncedUnique(s.hosts, feed.hosts, HostId);
    SyncedUnique(s.tunnels, feed.tunnels, TunnelId);
    SyncedUnique(s.keys, Localized(s.keys, feed.keys), KeyId);
    SyncedUnique(s.services, feed.services, ServiceId);
    SyncedNonEmpty(s.hosts, feed.hosts, HostId);
    SyncedNonEmpty(s.tunnels, feed.tunnels, TunnelId);
    SyncedNonEmpty(s.keys, Localized(s.keys, feed.keys), KeyId);
    SyncedNonEmpty(s.services, feed.services, ServiceId);
    var v := Synced(s.services, feed.services, ServiceId);
    RetargetFind(v, r.tunnels, Marks(s.team[index].items, feed), "");
  }

  lemma SyncedNonEmpty<T>(stored: seq<T>, incoming: seq<T>, id: T -> string)
    requires GoodIds(incoming, id)
    ensures NonEmptyIds(stored, id) ==> NonEmptyIds(Synced(stored, incoming, id), id)
  {
    var a := Additions(stored, incoming, id);
    SyncedPositions(stored, incoming, id);
    AdditionsMembers(stored, incoming, id);
    var r := Synced(stored, incoming, id);
    forall i | |stored| <= i < |r| ensures id(r[i]) != "" {
      assert r[i] == a[i - |stored|] && a[i - |stored|] in a;
    }
  }

  /** Nothing is deleted or moved, and everything outside the subscription is untouched. */
  lemma FeedLeavesOthers(s: State, index: nat, feed: State, now: string)
    requires Applies(s, index, feed)
    ensures var r := Applied(s, index, feed, now);
      && |r.hosts| >= |s.hosts| && |r.keys| >= |s.keys| && |r.tunnels| >= |s.tunnels| && |r.services| >= |s.services|
      && (forall i :: 0 <= i < |s.hosts| ==> r.hosts[i].id == s.hosts[i].id)
      && (forall i :: 0 <= i < |s.keys| ==> r.keys[i].id == s.keys[i].id)
      && (forall i :: 0 <= i < |s.tunnels| ==> r.tunnels[i].id == s.tunnels[i].id)
      && (forall i :: 0 <= i < |s.services| ==> r.services[i].id == s.services[i].id)
      && var items := s.team[index].items;
         && (forall i :: 0 <= i < |s.hosts| && Item(Hosts, s.hosts[i].id) !in items ==> r.hosts[i] == s.hosts[i])
         && (forall i :: 0 <= i < |s.keys| && Item(Keys, s.keys[i].id) !in items ==> r.keys[i] == s.keys[i])
         && (forall i :: 0 <= i < |s.tunnels| && Item(Tunnels, s.tunnels[i].id) !in items ==> r.tunnels[i] == s.tunnels[i])
         && (forall i :: 0 <= i < |s.services| && Item(Services, s.services[i].id) !in items ==> r.services[i] == s.services[i])
         && r.settings == s.settings && |r.team| == |s.team|
         && (forall i :: 0 <= i < |s.team| && i != index ==> r.team[i] == s.team[i])
         && r.team[index].source == s.team[index].source && r.team[index].paused == s.team[index].paused
  {
    hide IndexOf, Valid, Synced, Marks, Localized, GoodIds, UniqueIds;
    var r := Applied(s, index, feed, now);
    var items := s.team[index].items;
    SyncedPositions(s.hosts, feed.hosts, HostId);
    SyncedPositions(s.keys, Localized(s.keys, feed.keys), KeyId);
    SyncedPositions(s.tunnels, feed.tunnels, TunnelId);
    SyncedPositions(s.services, feed.services, ServiceId);
    OutsideNotIncoming(s.hosts, feed.hosts, Hosts, items, HostId);
    OutsideNotIncoming(s.keys, Localized(s.keys, feed.keys), Keys, items, KeyId);
    OutsideNotIncoming(s.tunnels, feed.tunnels, Tunnels, items, TunnelId);
    OutsideNotIncoming(s.services, feed.services, Services, items, ServiceId);
    var v := Synced(s.services, feed.services, ServiceId);
    RetargetFind(v, r.tunnels, Marks(items, feed), "");
    forall i | 0 <= i < |s.services| && Item(Services, s.services[i].id) !in items
      ensures r.services[i] == s.services[i]
    {
      assert v[i] == s.services[i];
      assert !Kept(Marks(items, feed), v[i]) by { NotKept(items, feed, v[i]); }
    }
  }

  lemma NotKept(items: map<Item, Mark>, feed: State, v: Service)
    ensures Kept(Marks(items, feed), v) <==> Item(Services, v.id) in items && !Has(feed.services, ServiceId, v.id)
  {
  }

  lemma OutsideNotIncoming<T>(stored: seq<T>, incoming: seq<T>, kind: Kind, items: map<Item, Mark>, id: T -> string)
    requires Syncable(stored, incoming, kind, items, id)
    ensures forall i :: 0 <= i < |stored| && Item(kind, id(stored[i])) !in items ==> !Has(incoming, id, id(stored[i]))
  {
    forall i | 0 <= i < |stored| && Item(kind, id(stored[i])) !in items
      ensures !Has(incoming, id, id(stored[i]))
    {
      IndexOfAt(stored, id, i);
    }
  }

  // ---------------------------------------------------------------- the jump graph

  /** `merged` answers with `feed` where it can and with `local` otherwise. */
  ghost predicate Overrides(merged: seq<Host>, feed: seq<Host>, local: seq<Host>) {
    forall k: string {:trigger Find(merged, HostId, k)} ::
      Find(merged, HostId, k) == if Has(feed, HostId, k) then Find(feed, HostId, k) else Find(local, HostId, k)
  }

  /** A route that starts inside the feed stays inside it. */
  lemma FeedWalk(merged: seq<Host>, feed: seq<Host>, local: seq<Host>, id: string)
    requires Overrides(merged, feed, local) && Walk(feed, id, MAX_HOPS).Some?
    ensures Walk(merged, id, MAX_HOPS) == Walk(feed, id, MAX_HOPS)
  {
    hide Walk;
    var w := Walk(feed, id, MAX_HOPS).value;
    WalkLinks(feed, id, MAX_HOPS);
    forall h | h in w ensures Find(merged, HostId, h.id) == Some(h) {
      var i :| 0 <= i < |w| && w[i] == h;
    }
    WalkSame(feed, merged, id, MAX_HOPS);
  }

  /** A local route ends after the merge too: it runs locally until it enters the feed. */
  lemma {:induction false} MergedWalkEnds(merged: seq<Host>, feed: seq<Host>, local: seq<Host>, id: string, fuel: nat)
    requires Overrides(merged, feed, local)
    requires forall k: string {:trigger Has(feed, HostId, k)} :: Has(feed, HostId, k) ==> Walk(feed, k, MAX_HOPS).Some?
    requires Walk(local, id, fuel).Some?
    ensures Walk(merged, id, fuel + MAX_HOPS).Some?
    decreases fuel
  {
    if id != "" {
      if Has(feed, HostId, id) {
        FeedWalk(merged, feed, local, id);
        WalkMore(merged, id, MAX_HOPS, fuel + MAX_HOPS);
      } else {
        assert Find(merged, HostId, id) == Find(local, HostId, id);
        var h := Find(local, HostId, id).value;
        MergedWalkEnds(merged, feed, local, h.jumpId, fuel - 1);
      }
    }
  }

  lemma HasRoute(s: State, k: string)
    requires Valid(s) && Has(s.hosts, HostId, k)
    ensures Walk(s.hosts, k, MAX_HOPS).Some?
  {
    hide ValidHost, Walk, TunnelOk, ServiceOk, ValidKey;
    var h := Find(s.hosts, HostId, k).value;
    assert h in s.hosts;
    assert HostOk(s.keys, s.hosts, h);
  }

  lemma FeedRouteFacts(s: State, index: nat, feed: State, now: string, k: string)
    requires Situation(s, index, feed)
    ensures var r := Applied(s, index, feed, now);
      && Find(r.hosts, HostId, k) == (if Has(feed.hosts, HostId, k) then Find(feed.hosts, HostId, k) else Find(s.hosts, HostId, k))
      && (Has(feed.hosts, HostId, k) ==> Walk(feed.hosts, k, MAX_HOPS).Some?)
      && (Has(s.hosts, HostId, k) ==> Walk(s.hosts, k, MAX_HOPS).Some?)
      && (Has(r.hosts, HostId, k) ==> Has(feed.hosts, HostId, k) || Has(s.hosts, HostId, k))
  {
    HostLookup(s, index, feed, now, k);
    hide IndexOf, Walk, Valid, Synced, Applied;
    if Has(feed.hosts, HostId, k) { HasRoute(feed, k); }
    if Has(s.hosts, HostId, k) { HasRoute(s, k); }
  }

  /** No jump cycle: every walk ends within 32 hosts; inside the feed the routes are the feed's. */
  lemma FeedAcyclic(s: State, index: nat, feed: State, now: string)
    requires Situation(s, index, feed)
    ensures var r := Applied(s, index, feed, now);
      && (forall h <- r.hosts :: Walk(r.hosts, h.id, 2 * MAX_HOPS).Some?)
      && (forall h <- feed.hosts :: Route(r.hosts, h.id) == Route(feed.hosts, h.id) && Route(r.hosts, h.id).Some?)
  {
    hide IndexOf, Valid, Walk, Synced, UniqueIds, Accepts, Has, Find;
    var r := Applied(s, index, feed, now);
    forall k: string
      ensures Find(r.hosts, HostId, k) == if Has(feed.hosts, HostId, k) then Find(feed.hosts, HostId, k) else Find(s.hosts, HostId, k)
      ensures Has(feed.hosts, HostId, k) ==> Walk(feed.hosts, k, MAX_HOPS).Some?
      ensures Has(s.hosts, HostId, k) ==> Walk(s.hosts, k, MAX_HOPS).Some?
      ensures Has(r.hosts, HostId, k) ==> Has(feed.hosts, HostId, k) || Has(s.hosts, HostId, k)
    {
      FeedRouteFacts(s, index, feed, now, k);
    }
    forall h | h in r.hosts ensures Walk(r.hosts, h.id, 2 * MAX_HOPS).Some? {
      HasMember(r.hosts, HostId, h);
      if Has(feed.hosts, HostId, h.id) {
        FeedWalk(r.hosts, feed.hosts, s.hosts, h.id);
        WalkMore(r.hosts, h.id, MAX_HOPS, 2 * MAX_HOPS);
      } else {
        MergedWalkEnds(r.hosts, feed.hosts, s.hosts, h.id, MAX_HOPS);
      }
    }
    forall h | h in feed.hosts ensures Route(r.hosts, h.id) == Route(feed.hosts, h.id) && Route(r.hosts, h.id).Some? {
      HasMember(feed.hosts, HostId, h);
      FeedWalk(r.hosts, feed.hosts, s.hosts, h.id);
    }
  }

  // ---------------------------------------------------------------- the closing check

  /** A key under its local path is as valid as the feed's and the stored one. */
  lemma LocalizedValid(stored: seq<Key>, incoming: seq<Key>)
    requires (forall k <- stored :: ValidKey(k)) && forall k <- incoming :: ValidKey(k)
    ensures forall k <- Localized(stored, incoming) :: ValidKey(k)
  {
    hide IndexOf, Name;
    var l := Localized(stored, incoming);
    forall k | k in l ensures ValidKey(k) {
      var i :| 0 <= i < |l| && l[i] == k;
      assert incoming[i] in incoming;
      HasWitness(stored, KeyId, k.id);
    }
  }

  lemma KeysOf(s: State)
    requires Valid(s)
    ensures forall k <- s.keys :: ValidKey(k)
  {
    hide ValidKey, HostOk, TunnelOk, ServiceOk;
  }

  lemma FeedKeysValid(s: State, index: nat, feed: State, now: string)
    requires Situation(s, index, feed)
    ensures forall k <- Applied(s, index, feed, now).keys :: ValidKey(k)
  {
    KeysOf(s);
    KeysOf(feed);
    LocalizedValid(s.keys, feed.keys);
    hide Valid, ValidKey, Synced, Localized, Marks, RetargetAll, Has;
    var l := Localized(s.keys, feed.keys);
    forall k | k in Synced(s.keys, l, KeyId) ensures ValidKey(k) {
      SyncedMembers(s.keys, l, KeyId, k);
    }
  }

  lemma FeedHostsReferTo(s: State, index: nat, feed: State, now: string, h: Host)
    requires Situation(s, index, feed) && h in Applied(s, index, feed, now).hosts
    ensures ValidHost(h) && Has(Applied(s, index, feed, now).keys, KeyId, h.keyId)
  {
    KeyLookup(s, index, feed, now, h.keyId);
    SyncedMembers(s.hosts, feed.hosts, HostId, h);
    hide IndexOf, Synced, ValidHost, TunnelOk, ServiceOk, GoodIds, Marks, RetargetAll, Walk, ValidKey;
    if h in feed.hosts {
      assert HostOk(feed.keys, feed.hosts, h);
    } else {
      assert HostOk(s.keys, s.hosts, h);
    }
  }

  lemma FeedTunnelsValid(s: State, index: nat, feed: State, now: string)
    requires Situation(s, index, feed)
    ensures forall t <- Applied(s, index, feed, now).tunnels :: TunnelOk(Applied(s, index, feed, now).hosts, t)
  {
    hide IndexOf, Synced, ValidHost, ValidTunnel, ServiceOk, GoodIds, Marks, RetargetAll, Walk, ValidKey;
    var r := Applied(s, index, feed, now);
    forall t | t in r.tunnels ensures TunnelOk(r.hosts, t) {
      SyncedMembers(s.tunnels, feed.tunnels, TunnelId, t);
      HostLookup(s, index, feed, now, t.hostId);
      if t in feed.tunnels {
        assert TunnelOk(feed.hosts, t);
      } else {
        assert TunnelOk(s.hosts, t);
      }
    }
  }

  lemma ItoaInjective(a: nat, b: nat)
    requires Itoa(a) == Itoa(b)
    ensures a == b
  {
    AtoiItoa(a);
    AtoiItoa(b);
  }

  /** A service outside the subscription, on a shared tunnel whose local port the feed changes. */
  predicate Strained(s: State, index: nat, feed: State, v: Service)
    requires index < |s.team|
  {
    && Item(Services, v.id) !in s.team[index].items
    && Has(feed.tunnels, TunnelId, v.tunnelId) && Has(s.tunnels, TunnelId, v.tunnelId)
    && Find(feed.tunnels, TunnelId, v.tunnelId).value.localPort != Find(s.tunnels, TunnelId, v.tunnelId).value.localPort
  }

  lemma LocalUrlPorts(u: Url, a: int, b: int)
    requires Port(a) && Port(b) && LocalUrl(u, a)
    ensures LocalUrl(u, b) <==> a == b
    ensures LocalUrl(WithPort(u, b), b)
  {
    hide Digits;
    if LocalUrl(u, b) {
      ItoaInjective(a, b);
    }
    assert Itoa(b) != "";
  }

  lemma TunnelPort(s: State, id: string)
    requires Valid(s) && Has(s.tunnels, TunnelId, id)
    ensures Port(Find(s.tunnels, TunnelId, id).value.localPort)
  {
    hide HostOk, ServiceOk, ValidKey;
    var t := Find(s.tunnels, TunnelId, id).value;
    assert t in s.tunnels;
    assert TunnelOk(s.hosts, t);
  }

  /** A stored service after the feed, given what became of its tunnel. */
  lemma StoredLink(s: State, v: Service)
    requires Valid(s) && v in s.services
    ensures ServiceOk(s.tunnels, v)
  {
    hide ServiceOk, HostOk, TunnelOk, ValidKey, Unique;
  }

  /** A link passes with another port exactly when the port is the same. */
  lemma LinkPorts(before: seq<Tunnel>, after: seq<Tunnel>, v: Service)
    requires ServiceOk(before, v) && Has(after, TunnelId, v.tunnelId)
    requires Port(Find(before, TunnelId, v.tunnelId).value.localPort) && Port(Find(after, TunnelId, v.tunnelId).value.localPort)
    ensures v.url.Url?
    ensures var p, q := Find(before, TunnelId, v.tunnelId).value.localPort, Find(after, TunnelId, v.tunnelId).value.localPort;
      && (ServiceOk(after, v) <==> p == q)
      && ServiceOk(after, v.(url := WithPort(v.url, q)))
  {
    hide IndexOf, LocalUrl, Name, Env;
    var p, q := Find(before, TunnelId, v.tunnelId).value.localPort, Find(after, TunnelId, v.tunnelId).value.localPort;
    IsUrl(v.url, p);
    LocalUrlPorts(v.url, p, q);
  }

  lemma StoredServiceAfter(s: State, index: nat, feed: State, now: string, v: Service)
    requires Situation(s, index, feed) && v in s.services && !Has(feed.services, ServiceId, v.id)
    ensures var r := Applied(s, index, feed, now);
      ServiceOk(r.tunnels, Retargeted(r.tunnels, Marks(s.team[index].items, feed), v)) <==> !Strained(s, index, feed, v)
  {
    var r := Applied(s, index, feed, now);
    TunnelLookup(s, index, feed, now, v.tunnelId);
    NotKept(s.team[index].items, feed, v);
    StoredLink(s, v);
    TunnelPort(s, v.tunnelId);
    if Has(feed.tunnels, TunnelId, v.tunnelId) { TunnelPort(feed, v.tunnelId); }
    hide Valid, Applied, Applies, Marks, Port, IndexOf;
    LinkPorts(s.tunnels, r.tunnels, v);
    hide ServiceOk, Kept, WithPort;
  }

  lemma IsUrl(u: Url, port: int)
    requires LocalUrl(u, port)
    ensures u.Url?
  {
  }

  lemma FeedServiceAfter(s: State, index: nat, feed: State, now: string, v: Service)
    requires Situation(s, index, feed) && v in feed.services
    ensures var r := Applied(s, index, feed, now);
      ServiceOk(r.tunnels, Retargeted(r.tunnels, Marks(s.team[index].items, feed), v))
  {
    var r := Applied(s, index, feed, now);
    HasMember(feed.services, ServiceId, v);
    NotKept(s.team[index].items, feed, v);
    TunnelLookup(s, index, feed, now, v.tunnelId);
    hide IndexOf, Synced, HostOk, ValidTunnel, GoodIds, Marks, RetargetAll, ValidKey, LocalUrl, Syncable, Kept;
    assert ServiceOk(feed.tunnels, v);
  }

  lemma FeedServicesValid(s: State, index: nat, feed: State, now: string)
    requires Situation(s, index, feed)
    ensures var r := Applied(s, index, feed, now);
      (forall v <- r.services :: ServiceOk(r.tunnels, v)) <==> (forall v <- s.services :: !Strained(s, index, feed, v))
  {
    hide IndexOf, Synced, HostOk, TunnelOk, ServiceOk, GoodIds, Marks, ValidKey, Strained, Retargeted;
    var r := Applied(s, index, feed, now);
    var marks := Marks(s.team[index].items, feed);
    var merged := Synced(s.services, feed.services, ServiceId);
    forall v | v in s.services && !Has(feed.services, ServiceId, v.id)
      ensures ServiceOk(r.tunnels, Retargeted(r.tunnels, marks, v)) <==> !Strained(s, index, feed, v)
      ensures Retargeted(r.tunnels, marks, v) in r.services
    {
      StoredServiceAfter(s, index, feed, now, v);
      SyncedHolds(s.services, feed.services, ServiceId);
      RetargetMember(merged, r.tunnels, marks, v);
    }
    forall v | v in s.services && Has(feed.services, ServiceId, v.id) ensures !Strained(s, index, feed, v) {
      NotStrained(s, index, feed, v);
    }
    forall v | v in feed.services ensures ServiceOk(r.tunnels, Retargeted(r.tunnels, marks, v)) {
      FeedServiceAfter(s, index, feed, now, v);
    }
    if forall v <- s.services :: !Strained(s, index, feed, v) {
      forall v | v in r.services ensures ServiceOk(r.tunnels, v) {
        var i :| 0 <= i < |r.services| && r.services[i] == v;
        assert merged[i] in merged;
        SyncedMembers(s.services, feed.services, ServiceId, merged[i]);
      }
    }
  }

  lemma RetargetMember(services: seq<Service>, tunnels: seq<Tunnel>, marks: map<Item, Mark>, v: Service)
    requires v in services
    ensures Retargeted(tunnels, marks, v) in RetargetAll(services, tunnels, marks)
  {
    var i :| 0 <= i < |services| && services[i] == v;
    assert RetargetAll(services, tunnels, marks)[i] == Retargeted(tunnels, marks, v);
  }

  lemma NotStrained(s: State, index: nat, feed: State, v: Service)
    requires Situation(s, index, feed) && v in s.services && Has(feed.services, ServiceId, v.id)
    ensures !Strained(s, index, feed, v)
  {
    hide Valid, GoodIds;
    HasMember(s.services, ServiceId, v);
    HasWitness(feed.services, ServiceId, v.id);
  }

  /** The length of the jump walk of a host after the feed. */
  function HopsAfter(hosts: seq<Host>, id: string): nat {
    match Walk(hosts, id, 2 * MAX_HOPS)
    case None => 0
    case Some(w) => |w|
  }

  /** After a successful feed every reference resolves and no jump cycle exists; the closing check
      fails exactly for a repeated host name, a local route pushed over 16 hops, or a service
      outside the subscription on a shared tunnel whose port changed. */
  lemma FeedCheck(s: State, index: nat, feed: State, now: string)
    requires Situation(s, index, feed)
    ensures var r := Applied(s, index, feed, now);
      && (forall h <- r.hosts :: ValidHost(h) && Has(r.keys, KeyId, h.keyId) && Walk(r.hosts, h.id, 2 * MAX_HOPS).Some?)
      && (forall t <- r.tunnels :: TunnelOk(r.hosts, t))
      && (Valid(r) <==>
            && Unique(r.hosts, HostName)
            && (forall h <- r.hosts :: !Has(feed.hosts, HostId, h.id) ==> HopsAfter(r.hosts, h.id) <= MAX_HOPS)
            && (forall v <- s.services :: !Strained(s, index, feed, v)))
  {
    hide IndexOf, Synced, ValidHost, TunnelOk, ServiceOk, ValidKey, Walk, Strained, Accepts;
    var r := Applied(s, index, feed, now);
    FeedKeysValid(s, index, feed, now);
    FeedTunnelsValid(s, index, feed, now);
    FeedServicesValid(s, index, feed, now);
    FeedAcyclic(s, index, feed, now);
    forall h | h in r.hosts
      ensures ValidHost(h) && Has(r.keys, KeyId, h.keyId)
      ensures HostOk(r.keys, r.hosts, h) <==> HopsAfter(r.hosts, h.id) <= MAX_HOPS
      ensures Has(feed.hosts, HostId, h.id) ==> HopsAfter(r.hosts, h.id) <= MAX_HOPS
    {
      FeedHostsReferTo(s, index, feed, now, h);
      RouteIffShort(r.hosts, h.id);
      SyncedMembers(s.hosts, feed.hosts, HostId, h);
    }
  }

  lemma RouteIffShort(hosts: seq<Host>, id: string)
    requires Walk(hosts, id, 2 * MAX_HOPS).Some?
    ensures Route(hosts, id).Some? <==> HopsAfter(hosts, id) <= MAX_HOPS
  {
    hide Walk;
    var n := HopsAfter(hosts, id);
    WalkTight(hosts, id, 2 * MAX_HOPS);
    WalkMore(hosts, id, 2 * MAX_HOPS, 2 * MAX_HOPS);
    if n <= MAX_HOPS {
      WalkMore(hosts, id, n, MAX_HOPS);
    }
    if Route(hosts, id).Some? {
      WalkMore(hosts, id, MAX_HOPS, 2 * MAX_HOPS);
      WalkMore(hosts, id, MAX_HOPS, MAX_HOPS);
    }
  }
}
