/**
 Every record has a last writer: after any run of updates of any kind, each record is what the last
 feed, bundle, import or local edit that wrote its identifier left of it.
 */
module Writers {
  import opened Wrappers
  import opened Text
  import opened Records
  import opened Model
  import opened Store
  import E = Editing
  import I = Importer
  import B = Backup
  import opened Sync
  import opened FeedSound
  import opened Bundles
  import T = Team
  import R = TeamRun
  import opened LastWriter
  import opened References
  import opened Following
  import A = Runs

  /** One committed update, as far as it writes records. */
  datatype Writer =
    | Feed(index: nat, feed: State)
    | Renewed(index: nat, feed: State)                                    // of a master followed already
    | Edit(edit: E.Edit, newIds: seq<string>, links: seq<Service>)       // `links`: those stored for a tunnel
    | Added(records: State)                                              // an import or a joined bundle

  function IdAt(ids: seq<string>, i: nat): string { if i < |ids| then ids[i] else "" }

  // ---------------------------------------------------------------- what a writer leaves of one record

  function HostBy(w: Writer, key: string, prev: Option<Host>): Option<Host> {
    match w
    case Feed(_, feed) => Or(Find(feed.hosts, HostId, key), prev)
    case Renewed(_, feed) => Or(Find(feed.hosts, HostId, key), prev)
    case Added(records) => Or(prev, Find(records.hosts, HostId, key))
    case Edit(SaveHost(h), ids, _) => if E.Named(h.id, IdAt(ids, 0)) == key then Some(h.(id := key)) else prev
    case Edit(DeleteHost(id), _, _) => if id == key then None else prev
    case Edit(_, _, _) => prev
  }

  /** A feed never moves a key file; the bundle of a followed master brings new ones. */
  function KeyBy(w: Writer, key: string, prev: Option<Key>): Option<Key> {
    match w
    case Feed(_, feed) =>
      (match (Find(feed.keys, KeyId, key), prev)
       case (Some(k), Some(p)) => Some(k.(path := p.path))
       case _ => prev)
    case Renewed(_, feed) => Or(Find(feed.keys, KeyId, key), prev)
    case Added(records) => Or(prev, Find(records.keys, KeyId, key))
    case Edit(SaveKey(k, Some(path)), ids, _) =>
      if E.Named(k.id, IdAt(ids, 0)) == key then Some(k.(id := key, path := path)) else prev
    case Edit(DeleteKey(id), _, _) => if id == key then None else prev
    case Edit(_, _, _) => prev
  }

  function TunnelBy(w: Writer, key: string, prev: Option<Tunnel>): Option<Tunnel> {
    match w
    case Feed(_, feed) => Or(Find(feed.tunnels, TunnelId, key), prev)
    case Renewed(_, feed) => Or(Find(feed.tunnels, TunnelId, key), prev)
    case Added(records) => Or(prev, Find(records.tunnels, TunnelId, key))
    case Edit(SaveTunnel(t, _, _), ids, _) => if E.Named(t.id, IdAt(ids, 0)) == key then Some(t.(id := key)) else prev
    case Edit(SaveService(v, Some(t)), ids, _) =>
      if IdAt(ids, 0) == key then Some(t.(id := key, name := v.name + " tunnel", localHost := "127.0.0.1")) else prev
    case Edit(DeleteTunnel(id, _), _, _) => if id == key then None else prev
    case Edit(_, _, _) => prev
  }

  /** Saving the links of a tunnel replaces all of them; deleting a tunnel deletes its links. */
  function ServiceBy(w: Writer, key: string, prev: Option<Service>): Option<Service> {
    match w
    case Feed(_, feed) => Or(Find(feed.services, ServiceId, key), prev)
    case Renewed(_, feed) => Or(Find(feed.services, ServiceId, key), prev)
    case Added(records) => Or(prev, Find(records.services, ServiceId, key))
    case Edit(SaveTunnel(t, Some(_), _), ids, links) =>
      Or(Find(links, ServiceId, key), OffTunnel(prev, E.Named(t.id, IdAt(ids, 0))))
    case Edit(SaveService(v, newTunnel), ids, _) =>
      if E.Named(v.id, IdAt(ids, 1)) == key
      then Some(v.(id := key, tunnelId := if newTunnel.Some? then IdAt(ids, 0) else v.tunnelId)) else prev
    case Edit(DeleteTunnel(id, _), _, _) => OffTunnel(prev, id)
    case Edit(DeleteService(id), _, _) => if id == key then None else prev
    case Edit(_, _, _) => prev
  }

  function OffTunnel(v: Option<Service>, tunnelId: string): Option<Service> {
    if v.Some? && v.value.tunnelId == tunnelId then None else v
  }

  // ---------------------------------------------------------------- the last version of a record

  function LastHostOf(log: seq<Writer>, start: State, key: string): Option<Host> {
    if log == [] then Find(start.hosts, HostId, key)
    else HostBy(log[|log| - 1], key, LastHostOf(log[..|log| - 1], start, key))
  }

  function LastKeyOf(log: seq<Writer>, start: State, key: string): Option<Key> {
    if log == [] then Find(start.keys, KeyId, key)
    else KeyBy(log[|log| - 1], key, LastKeyOf(log[..|log| - 1], start, key))
  }

  function LastTunnelOf(log: seq<Writer>, start: State, key: string): Option<Tunnel> {
    if log == [] then Find(start.tunnels, TunnelId, key)
    else TunnelBy(log[|log| - 1], key, LastTunnelOf(log[..|log| - 1], start, key))
  }

  function LastServiceOf(log: seq<Writer>, start: State, key: string): Option<Service> {
    if log == [] then Find(start.services, ServiceId, key)
    else ServiceBy(log[|log| - 1], key, LastServiceOf(log[..|log| - 1], start, key))
  }

  /** Every record is its last version; a kept link may have the port its tunnel has now. */
  ghost predicate Written(start: State, log: seq<Writer>, s: State, key: string) {
    && Find(s.hosts, HostId, key) == LastHostOf(log, start, key)
    && Find(s.keys, KeyId, key) == LastKeyOf(log, start, key)
    && Find(s.tunnels, TunnelId, key) == LastTunnelOf(log, start, key)
    && Shows(s, LastServiceOf(log, start, key), Find(s.services, ServiceId, key))
  }

  /** One update writes what its writer says. */
  ghost predicate Writes(s: State, w: Writer, r: State, key: string) {
    && Find(r.hosts, HostId, key) == HostBy(w, key, Find(s.hosts, HostId, key))
    && Find(r.keys, KeyId, key) == KeyBy(w, key, Find(s.keys, KeyId, key))
    && Find(r.tunnels, TunnelId, key) == TunnelBy(w, key, Find(s.tunnels, TunnelId, key))
  }

  /** And so for its links, up to the port of kept ones. */
  ghost predicate WritesLinks(s: State, w: Writer, r: State, last: Option<Service>, key: string) {
    Shows(r, ServiceBy(w, key, last), Find(r.services, ServiceId, key))
  }

  predicate LinkKey(last: Option<Service>, key: string) { last.Some? ==> last.value.id == key }

  // ---------------------------------------------------------------- feeds

  lemma FeedWritesHosts(s: State, index: nat, feed: State, now: string, key: string)
    requires Applies(s, index, feed)
    ensures var w, r := Feed(index, feed), Applied(s, index, feed, now);
      && Find(r.hosts, HostId, key) == HostBy(w, key, Find(s.hosts, HostId, key))
      && Find(r.tunnels, TunnelId, key) == TunnelBy(w, key, Find(s.tunnels, TunnelId, key))
  {
    HostLookup(s, index, feed, now, key);
    TunnelLookup(s, index, feed, now, key);
    hide Applies, Applied, IndexOf;
  }

  lemma FeedWritesKeys(s: State, index: nat, feed: State, now: string, key: string)
    requires Situation(s, index, feed)
    ensures Find(Applied(s, index, feed, now).keys, KeyId, key) == KeyBy(Feed(index, feed), key, Find(s.keys, KeyId, key))
  {
    KeyLookup(s, index, feed, now, key);
    KeyInFeedStored(s, index, feed, key);
    hide Situation, Applied, IndexOf;
  }

  lemma FeedWrites(s: State, index: nat, feed: State, now: string, key: string)
    requires Situation(s, index, feed)
    ensures Writes(s, Feed(index, feed), Applied(s, index, feed, now), key)
  {
    hide Applies, Applied, Valid, Find, HostBy, KeyBy, TunnelBy;
    FeedWritesHosts(s, index, feed, now, key);
    FeedWritesKeys(s, index, feed, now, key);
  }

  lemma FeedWritesLinks(s: State, index: nat, feed: State, now: string, last: Option<Service>, key: string)
    requires Situation(s, index, feed) && Valid(Applied(s, index, feed, now))
    requires LinkKey(last, key) && Shows(s, last, Find(s.services, ServiceId, key))
    ensures WritesLinks(s, Feed(index, feed), Applied(s, index, feed, now), last, key)
  {
    hide Situation, Applied, Valid, Shows, Find, Has;
    FeedShows(s, index, feed, now, last, key);
  }

  // ---------------------------------------------------------------- the bundle of a followed master

  lemma {:induction false} AdoptedKeys(s: State, index: nat, keys: seq<Key>, key: string)
    requires index < |s.team| && AdoptKeys(s, index, keys).Ok?
    ensures var r := AdoptKeys(s, index, keys).value;
      && r == s.(keys := r.keys, team := r.team) && |r.team| == |s.team|
      && (Unique(keys, KeyId) ==> Find(r.keys, KeyId, key) == Or(Find(keys, KeyId, key), Find(s.keys, KeyId, key)))
      && (forall i :: 0 <= i < |s.team| ==> r.team[i] == s.team[i].(items := r.team[i].items))
      && (forall i, it :: 0 <= i < |s.team| ==>
            (it in r.team[i].items <==> it in s.team[i].items || (i == index && it.kind == Keys && Has(keys, KeyId, it.id))))
      && (forall i, it :: 0 <= i < |s.team| && it in s.team[i].items && it.kind != Keys ==> r.team[i].items[it] == s.team[i].items[it])
      && (forall i :: 0 <= i < |s.team| && i != index ==> r.team[i] == s.team[i])
  {
    hide AdoptKey;
    if keys != [] {
      var n := |keys| - 1;
      AdoptedKeys(s, index, keys[..n], key);
      var before := AdoptKeys(s, index, keys[..n]).value;
      AdoptedOne(before, index, keys[n], key);
      assert keys == keys[..n] + [keys[n]];
      hide IndexOf;
      forall id ensures Has(keys, KeyId, id) <==> Has(keys[..n], KeyId, id) || id == keys[n].id {
        OneMore(keys[..n], keys[n], id);
      }
      if Unique(keys, KeyId) {
        UniquePrefix(keys, n);
        OneMore(keys[..n], keys[n], key);
      }
    }
  }

  lemma UniquePrefix(keys: seq<Key>, n: nat)
    requires Unique(keys, KeyId) && n < |keys|
    ensures Unique(keys[..n], KeyId) && !Has(keys[..n], KeyId, keys[n].id)
  {
    var i := IndexOf(keys[..n], KeyId, keys[n].id);
    assert i < n ==> KeyId(keys[i]) != KeyId(keys[n]);
  }

  lemma OneMore(keys: seq<Key>, k: Key, id: string)
    ensures Has(keys + [k], KeyId, id) <==> Has(keys, KeyId, id) || id == k.id
    ensures !Has(keys, KeyId, k.id) ==> Find(keys + [k], KeyId, id) == if id == k.id then Some(k) else Find(keys, KeyId, id)
  {
    IndexOfAppend(keys, [k], KeyId, id);
  }

  lemma AdoptedOne(s: State, index: nat, k: Key, key: string)
    requires index < |s.team| && AdoptKey(s, index, k).Ok?
    ensures var r := AdoptKey(s, index, k).value;
      && r == s.(keys := r.keys, team := s.team[index := s.team[index].(items := s.team[index].items[Item(Keys, k.id) := Current])])
      && Find(r.keys, KeyId, key) == if key == k.id then Some(k) else Find(s.keys, KeyId, key)
  {
    OneUnique([k], KeyId);
    SyncedFind(s.keys, [k], KeyId, key);
    hide Synced, Syncable;
  }

  /** The configuration the feed part of such an installation starts from. */
  function Prepared(s: State, index: nat, source: Source, feed: State): State
    requires index < |s.team| && AdoptKeys(s, index, feed.keys).Ok?
  {
    var adopted := AdoptKeys(s, index, feed.keys).value;
    adopted.(team := adopted.team[index := adopted.team[index].(source := source)])
  }

  lemma {:induction false} AdoptedValid(s: State, index: nat, keys: seq<Key>)
    requires index < |s.team| && UniqueIds(s) && Valid(s) && (forall k <- keys :: ValidKey(k)) && AdoptKeys(s, index, keys).Ok?
    ensures Valid(AdoptKeys(s, index, keys).value) && UniqueIds(AdoptKeys(s, index, keys).value)
  {
    hide Valid, UniqueIds, ValidKey, AdoptKey;
    if keys != [] {
      var n := |keys| - 1;
      AdoptedValid(s, index, keys[..n]);
      A.AdoptKeysKeep(s, index, keys);
      AdoptValid(AdoptKeys(s, index, keys[..n]).value, index, keys[n]);
    }
  }

  lemma TeamFree(s: State, team: seq<Subscription>)
    ensures Valid(s.(team := team)) <==> Valid(s)
    ensures UniqueIds(s.(team := team)) <==> UniqueIds(s)
  {
    hide ValidKey, HostOk, TunnelOk, ServiceOk, Unique;
  }

  lemma PreparedSituation(s: State, index: nat, source: Source, feed: State, now: string)
    requires index < |s.team| && Valid(s) && UniqueIds(s) && Valid(feed) && Refollow(s, index, source, feed, now).Ok?
    ensures AdoptKeys(s, index, feed.keys).Ok? && |Prepared(s, index, source, feed).team| == |s.team|
    ensures Situation(Prepared(s, index, source, feed), index, feed)
    ensures Refollow(s, index, source, feed, now).value == Applied(Prepared(s, index, source, feed), index, feed, now)
  {
    ValidFeedKeys(feed);
    hide Valid, UniqueIds, AdoptKeys, Accepts, Applied;
    AdoptedValid(s, index, feed.keys);
    var adopted := AdoptKeys(s, index, feed.keys).value;
    TeamFree(adopted, Prepared(s, index, source, feed).team);
  }

  lemma AcceptedKeysUnique(s: State, index: nat, feed: State)
    requires Situation(s, index, feed)
    ensures Unique(feed.keys, KeyId)
  {
    var l := Localized(s.keys, feed.keys);
    assert Unique(l, KeyId);
    hide Valid, UniqueIds, Localized, GoodIds;
    forall i, j | 0 <= i < j < |feed.keys| ensures KeyId(feed.keys[i]) != KeyId(feed.keys[j]) {
      assert KeyId(l[i]) != KeyId(l[j]);
    }
  }

  lemma BundleWrites(s: State, index: nat, source: Source, feed: State, now: string, key: string)
    requires index < |s.team| && Valid(s) && UniqueIds(s) && Valid(feed) && Refollow(s, index, source, feed, now).Ok?
    ensures Writes(s, Renewed(index, feed), Refollow(s, index, source, feed, now).value, key)
  {
    hide Valid, UniqueIds, AdoptKeys, Refollow, Applied, Situation, IndexOf;
    PreparedSituation(s, index, source, feed, now);
    var ready := Prepared(s, index, source, feed);
    AcceptedKeysUnique(ready, index, feed);
    AdoptedKeys(s, index, feed.keys, key);
    FeedWrites(ready, index, feed, now, key);
    SameKeyFile(feed.keys, key);
  }

  lemma SameKeyFile(keys: seq<Key>, key: string)
    ensures Has(keys, KeyId, key) ==> Find(keys, KeyId, key).value.(path := Find(keys, KeyId, key).value.path) == Find(keys, KeyId, key).value
  {
  }

  lemma PreparedShows(s: State, index: nat, source: Source, feed: State, last: Option<Service>, key: string)
    requires index < |s.team| && AdoptKeys(s, index, feed.keys).Ok?
    requires Shows(s, last, Find(s.services, ServiceId, key))
    ensures |AdoptKeys(s, index, feed.keys).value.team| == |s.team|
    ensures var ready := Prepared(s, index, source, feed);
      ready.services == s.services && Shows(ready, last, Find(ready.services, ServiceId, key))
  {
    hide AdoptKeys, IndexOf, WithPort;
    AdoptedKeys(s, index, feed.keys, "");
    var ready := Prepared(s, index, source, feed);
    if last.Some? {
      forall i | 0 <= i < |s.team| ensures Kept(ready.team[i].items, last.value) <==> Kept(s.team[i].items, last.value) {}
      assert KeptBySome(s, last.value) <==> KeptBySome(ready, last.value);
    }
  }

  lemma BundleWritesLinks(s: State, index: nat, source: Source, feed: State, now: string, last: Option<Service>, key: string)
    requires index < |s.team| && Valid(s) && UniqueIds(s) && Valid(feed) && Refollow(s, index, source, feed, now).Ok?
    requires Valid(Refollow(s, index, source, feed, now).value)
    requires LinkKey(last, key) && Shows(s, last, Find(s.services, ServiceId, key))
    ensures WritesLinks(s, Renewed(index, feed), Refollow(s, index, source, feed, now).value, last, key)
  {
    hide Valid, UniqueIds, AdoptKeys, Refollow, Applied, Situation, Shows, Find, Has;
    PreparedSituation(s, index, source, feed, now);
    PreparedShows(s, index, source, feed, last, key);
    FeedShows(Prepared(s, index, source, feed), index, feed, now, last, key);
  }

  // ---------------------------------------------------------------- imports

  function Rest<T>(xs: seq<T>, n: nat): seq<T> { if n <= |xs| then xs[n..] else [] }

  /** The records behind the stored ones. */
  function Behind(s: State, r: State): State {
    EMPTY.(hosts := Rest(r.hosts, |s.hosts|), keys := Rest(r.keys, |s.keys|),
           tunnels := Rest(r.tunnels, |s.tunnels|), services := Rest(r.services, |s.services|))
  }

  ghost predicate Extends(s: State, r: State) {
    s.hosts <= r.hosts && s.keys <= r.keys && s.tunnels <= r.tunnels && s.services <= r.services
  }

  lemma BehindFind<T>(a: seq<T>, b: seq<T>, id: T -> string, key: string)
    requires a <= b
    ensures Find(b, id, key) == Or(Find(a, id, key), Find(Rest(b, |a|), id, key))
  {
    assert b == a + b[|a|..];
    IndexOfAppend(a, b[|a|..], id, key);
  }

  lemma AddedWrites(s: State, r: State, key: string)
    requires Extends(s, r)
    ensures Writes(s, Added(Behind(s, r)), r, key)
  {
    hide Find;
    BehindFind(s.hosts, r.hosts, HostId, key);
    BehindFind(s.keys, r.keys, KeyId, key);
    BehindFind(s.tunnels, r.tunnels, TunnelId, key);
  }

  /** Marks of the subscriptions there were are as before. */
  ghost predicate ItemsStay(s: State, r: State) {
    |s.team| <= |r.team| && forall i :: 0 <= i < |s.team| ==> r.team[i].items == s.team[i].items
  }

  lemma KeptStays(s: State, r: State, v: Service)
    requires ItemsStay(s, r) && KeptBySome(s, v)
    ensures KeptBySome(r, v)
  {
    var i: nat :| i < |s.team| && Kept(s.team[i].items, v);
    assert Kept(r.team[i].items, v);
  }

  /** A link that is not written stays its last version. */
  lemma UnwrittenShows(s: State, r: State, last: Option<Service>, key: string)
    requires Valid(s) && Valid(r) && ItemsStay(s, r)
    requires Find(r.services, ServiceId, key) == Find(s.services, ServiceId, key)
    requires Shows(s, last, Find(s.services, ServiceId, key))
    ensures Shows(r, last, Find(r.services, ServiceId, key))
  {
    hide Valid, IndexOf, ServiceOk, Shown, ItemsStay, KeptBySome;
    if last.Some? {
      StoredServiceOk(s, key);
      StoredServiceOk(r, key);
      if KeptBySome(s, last.value) { KeptStays(s, r, last.value); }
      ShowsStays(s, r, last.value, Find(s.services, ServiceId, key).value);
    }
  }

  lemma AddedWritesLinks(s: State, r: State, last: Option<Service>, key: string)
    requires Extends(s, r) && Valid(s) && Valid(r) && ItemsStay(s, r) && Shows(s, last, Find(s.services, ServiceId, key))
    ensures WritesLinks(s, Added(Behind(s, r)), r, last, key)
  {
    BehindFind(s.services, r.services, ServiceId, key);
    hide Valid, ItemsStay, Find, Shown;
    if last.Some? {
      UnwrittenShows(s, r, last, key);
    }
  }

  // ---------------------------------------------------------------- edits

  lemma ReplacedLookup<T>(xs: seq<T>, key: string, value: T, id: T -> string, other: string)
    requires Unique(xs, id) && Replaced(xs, key, value, id).Ok?
    requires key == "" ==> !Has(xs, id, id(value))
    requires key != "" ==> id(value) == key
    ensures Find(Replaced(xs, key, value, id).value, id, other) == if id(value) == other then Some(value) else Find(xs, id, other)
  {
    var r := Replaced(xs, key, value, id).value;
    if key == "" {
      IndexOfAppend(xs, [value], id, other);
    } else {
      SameIndex(r, xs, id, other);
    }
  }

  /** The links an edit stores for a tunnel. */
  function LinksOf(s: State, e: E.Edit, newIds: seq<string>): seq<Service>
    requires |newIds| >= E.Needs(e)
  {
    match e
    case SaveTunnel(t, Some(links), _) =>
      (match Find(s.hosts, HostId, t.hostId)
       case None => []
       case Some(host) =>
         var v := t.(id := E.Named(t.id, newIds[0]));
         var own := E.Linked(Filter(s.services, E.OfTunnel(v.id)), host, v, links, newIds[2..]);
         if own.Ok? then own.value else [])
    case _ => []
  }

  lemma EditWritesHosts(s: State, e: E.Edit, newIds: seq<string>, key: string)
    requires |newIds| >= E.Needs(e) && UniqueIds(s) && A.FreshIn(s, newIds) && E.Edited(s, e, newIds).Ok?
    ensures Find(E.Edited(s, e, newIds).value.hosts, HostId, key) ==
      HostBy(Edit(e, newIds, LinksOf(s, e, newIds)), key, Find(s.hosts, HostId, key))
  {
    assert A.Unused(s, newIds[0]);
    hide IndexOf, Replaced, Deleted, Unique, A.FreshIn, LinksOf, E.SavedTunnel, E.SavedService, Filter;
    if e.SaveHost? {
      ReplacedLookup(s.hosts, e.host.id, e.host.(id := E.Named(e.host.id, newIds[0])), HostId, key);
    } else if e.DeleteHost? {
      DeletedFind(s.hosts, e.id, HostId, key);
    } else {
      EditHosts(s, e, newIds);
      hide E.Edited;
    }
  }

  lemma EditKeys(s: State, e: E.Edit, newIds: seq<string>)
    requires |newIds| >= E.Needs(e) && E.Edited(s, e, newIds).Ok?
    ensures var r := E.Edited(s, e, newIds).value.keys;
      && (!e.SaveKey? && !e.DeleteKey? ==> r == s.keys)
      && (e.SaveKey? ==> e.path.Some?)
      && (e.SaveKey? ==> Replaced(s.keys, e.key.id, e.key.(id := E.Named(e.key.id, newIds[0]), path := e.path.value), KeyId) == Ok(r))
      && (e.DeleteKey? ==> Deleted(s.keys, e.id, KeyId) == Ok(r))
  {
    hide Replaced, Deleted, Filter, E.Linked, IndexOf;
  }

  lemma EditWritesKeys(s: State, e: E.Edit, newIds: seq<string>, key: string)
    requires |newIds| >= E.Needs(e) && UniqueIds(s) && A.FreshIn(s, newIds) && E.Edited(s, e, newIds).Ok?
    ensures Find(E.Edited(s, e, newIds).value.keys, KeyId, key) ==
      KeyBy(Edit(e, newIds, LinksOf(s, e, newIds)), key, Find(s.keys, KeyId, key))
  {
    assert A.Unused(s, newIds[0]);
    EditKeys(s, e, newIds);
    hide IndexOf, Replaced, Deleted, Unique, A.FreshIn, LinksOf, E.Edited;
    if e.SaveKey? {
      ReplacedLookup(s.keys, e.key.id, e.key.(id := E.Named(e.key.id, newIds[0]), path := e.path.value), KeyId, key);
    } else if e.DeleteKey? {
      DeletedFind(s.keys, e.id, KeyId, key);
    }
  }

  lemma EditTunnels(s: State, e: E.Edit, newIds: seq<string>)
    requires |newIds| >= E.Needs(e) && E.Edited(s, e, newIds).Ok?
    ensures var r := E.Edited(s, e, newIds).value.tunnels;
      && (!e.SaveTunnel? && !e.SaveService? && !e.DeleteTunnel? ==> r == s.tunnels)
      && (e.SaveTunnel? ==> Replaced(s.tunnels, e.tunnel.id, e.tunnel.(id := E.Named(e.tunnel.id, newIds[0])), TunnelId) == Ok(r))
      && (e.SaveService? && e.newTunnel.None? ==> r == s.tunnels)
      && (e.SaveService? && e.newTunnel.Some? ==>
            r == s.tunnels + [e.newTunnel.value.(id := newIds[0], name := e.service.name + " tunnel", localHost := "127.0.0.1")])
      && (e.DeleteTunnel? ==> Deleted(s.tunnels, e.id, TunnelId) == Ok(r))
  {
    hide Replaced, Deleted, Filter, E.Linked, IndexOf;
  }

  lemma EditWritesTunnels(s: State, e: E.Edit, newIds: seq<string>, key: string)
    requires |newIds| >= E.Needs(e) && UniqueIds(s) && A.FreshIn(s, newIds) && E.Edited(s, e, newIds).Ok?
    ensures Find(E.Edited(s, e, newIds).value.tunnels, TunnelId, key) ==
      TunnelBy(Edit(e, newIds, LinksOf(s, e, newIds)), key, Find(s.tunnels, TunnelId, key))
  {
    assert A.Unused(s, newIds[0]);
    EditTunnels(s, e, newIds);
    hide IndexOf, Replaced, Deleted, Unique, A.FreshIn, LinksOf, E.Edited;
    match e {
      case SaveTunnel(t, links, active) => ReplacedLookup(s.tunnels, t.id, t.(id := E.Named(t.id, newIds[0])), TunnelId, key);
      case SaveService(v, newTunnel) =>
        if newTunnel.Some? {
          ReplacedLookup(s.tunnels, "", newTunnel.value.(id := newIds[0], name := v.name + " tunnel", localHost := "127.0.0.1"), TunnelId, key);
          NewAppended(s.tunnels, newTunnel.value.(id := newIds[0], name := v.name + " tunnel", localHost := "127.0.0.1"));
        }
      case DeleteTunnel(id, active) => DeletedFind(s.tunnels, id, TunnelId, key);
      case _ =>
    }
  }

  lemma NewAppended(tunnels: seq<Tunnel>, t: Tunnel)
    ensures Replaced(tunnels, "", t, TunnelId) == Ok(tunnels + [t])
  {
  }

  lemma EditWrites(s: State, e: E.Edit, newIds: seq<string>, key: string)
    requires |newIds| >= E.Needs(e) && UniqueIds(s) && A.FreshIn(s, newIds) && E.Edited(s, e, newIds).Ok?
    ensures Writes(s, Edit(e, newIds, LinksOf(s, e, newIds)), E.Edited(s, e, newIds).value, key)
  {
    hide UniqueIds, A.FreshIn, E.Edited, HostBy, KeyBy, TunnelBy, Find, LinksOf;
    EditWritesHosts(s, e, newIds, key);
    EditWritesKeys(s, e, newIds, key);
    EditWritesTunnels(s, e, newIds, key);
  }

  /** What saving the links of a tunnel leaves of each link. */
  lemma LinksLookup(s: State, t: Tunnel, links: seq<Service>, newIds: seq<string>, key: string)
    requires |newIds| >= 2 + |links| && UniqueIds(s) && A.FreshIn(s, newIds)
    requires E.SavedTunnel(s, t, Some(links), newIds).Ok?
    ensures Find(E.SavedTunnel(s, t, Some(links), newIds).value.services, ServiceId, key) ==
      Or(Find(LinksOf(s, E.SaveTunnel(t, Some(links), false), newIds), ServiceId, key),
         OffTunnel(Find(s.services, ServiceId, key), E.Named(t.id, newIds[0])))
  {
    var v := t.(id := E.Named(t.id, newIds[0]));
    var r := E.SavedTunnel(s, t, Some(links), newIds).value;
    var off := Filter(s.services, E.OffTunnel(v.id));
    var own := LinksOf(s, E.SaveTunnel(t, Some(links), false), newIds);
    A.SavedTunnelKeeps(s, t, Some(links), newIds);
    assert r.services == off + own by { hide Replaced, Filter, E.Linked, IndexOf, UniqueIds, A.FreshIn; }
    hide E.SavedTunnel, LinksOf, Filter, Replaced, A.FreshIn, IndexOf;
    IndexOfAppend(off, own, ServiceId, key);
    FilterFind(s.services, E.OffTunnel(v.id), ServiceId, key);
    HasWitness(own, ServiceId, key);
    if Has(own, ServiceId, key) {
      FindMember(r.services, ServiceId, Find(own, ServiceId, key).value);
    }
  }

  lemma EditServices(s: State, e: E.Edit, newIds: seq<string>)
    requires |newIds| >= E.Needs(e) && E.Edited(s, e, newIds).Ok? && !(e.SaveTunnel? && e.links.Some?)
    ensures var r := E.Edited(s, e, newIds).value.services;
      && (!e.SaveService? && !e.DeleteTunnel? && !e.DeleteService? ==> r == s.services)
      && (e.DeleteTunnel? ==> r == Filter(s.services, E.OffTunnel(e.id)))
      && (e.DeleteService? ==> Deleted(s.services, e.id, ServiceId) == Ok(r))
      && (e.SaveService? ==> Replaced(s.services, e.service.id, StoredLink(e.service, e.newTunnel, newIds), ServiceId) == Ok(r))
  {
    hide Replaced, Deleted, Filter, E.Linked, IndexOf;
  }

  /** The link that saving a link stores. */
  function StoredLink(v: Service, newTunnel: Option<Tunnel>, newIds: seq<string>): Service {
    v.(id := E.Named(v.id, IdAt(newIds, 1)), tunnelId := if newTunnel.Some? then IdAt(newIds, 0) else v.tunnelId)
  }

  /** The links of an edit, in terms of the links before. */
  lemma EditLinks(s: State, e: E.Edit, newIds: seq<string>, key: string)
    requires |newIds| >= E.Needs(e) && UniqueIds(s) && A.FreshIn(s, newIds) && E.Edited(s, e, newIds).Ok?
    ensures Find(E.Edited(s, e, newIds).value.services, ServiceId, key) ==
      ServiceBy(Edit(e, newIds, LinksOf(s, e, newIds)), key, Find(s.services, ServiceId, key))
  {
    if e.SaveTunnel? && e.links.Some? {
      SaveLinks(s, e.tunnel, e.links.value, e.active, newIds, key);
    } else {
      assert A.Unused(s, newIds[1]);
      EditServices(s, e, newIds);
      hide IndexOf, Replaced, Deleted, Unique, A.FreshIn, LinksOf, E.Edited, Filter;
      match e {
        case SaveService(v, newTunnel) => ReplacedLookup(s.services, v.id, StoredLink(v, newTunnel, newIds), ServiceId, key);
        case DeleteTunnel(id, active) => FilterFind(s.services, E.OffTunnel(id), ServiceId, key);
        case DeleteService(id) => DeletedFind(s.services, id, ServiceId, key);
        case _ =>
      }
    }
  }

  lemma SaveLinks(s: State, t: Tunnel, links: seq<Service>, active: bool, newIds: seq<string>, key: string)
    requires |newIds| >= 2 + |links| && UniqueIds(s) && A.FreshIn(s, newIds)
    requires E.Edited(s, E.SaveTunnel(t, Some(links), active), newIds).Ok?
    ensures var e := E.SaveTunnel(t, Some(links), active);
      Find(E.Edited(s, e, newIds).value.services, ServiceId, key) ==
      ServiceBy(Edit(e, newIds, LinksOf(s, e, newIds)), key, Find(s.services, ServiceId, key))
  {
    assert LinksOf(s, E.SaveTunnel(t, Some(links), active), newIds) == LinksOf(s, E.SaveTunnel(t, Some(links), false), newIds);
    hide UniqueIds, A.FreshIn, LinksOf, E.SavedTunnel, Find;
    LinksLookup(s, t, links, newIds, key);
  }

  /** A link the edit does not touch, or one it writes or deletes whatever the link was. */
  lemma SameFate(w: Writer, key: string, a: Option<Service>, b: Option<Service>)
    requires w.Edit? && (a.Some? <==> b.Some?) && (a.Some? ==> a.value.tunnelId == b.value.tunnelId)
    ensures ServiceBy(w, key, a) == ServiceBy(w, key, b) || (ServiceBy(w, key, a) == a && ServiceBy(w, key, b) == b)
  {
  }

  lemma ShowsTunnel(s: State, last: Option<Service>, now: Option<Service>)
    requires Shows(s, last, now)
    ensures (last.Some? <==> now.Some?) && (last.Some? ==> last.value.tunnelId == now.value.tunnelId)
  {
    hide KeptBySome, WithPort, IndexOf;
  }

  lemma ShowsItself(s: State, v: Option<Service>)
    ensures Shows(s, v, v)
  {
    hide Shown;
  }

  lemma EditWritesLinks(s: State, e: E.Edit, newIds: seq<string>, last: Option<Service>, key: string)
    requires |newIds| >= E.Needs(e) && UniqueIds(s) && A.FreshIn(s, newIds) && E.Edited(s, e, newIds).Ok?
    requires Valid(s) && Valid(E.Edited(s, e, newIds).value) && Shows(s, last, Find(s.services, ServiceId, key))
    ensures WritesLinks(s, Edit(e, newIds, LinksOf(s, e, newIds)), E.Edited(s, e, newIds).value, last, key)
  {
    var r, w, now := E.Edited(s, e, newIds).value, Edit(e, newIds, LinksOf(s, e, newIds)), Find(s.services, ServiceId, key);
    EditTeamStays(s, e, newIds);
    hide UniqueIds, A.FreshIn, E.Edited, Valid, Shows, LinksOf, ServiceBy, Find, ItemsStay;
    EditLinks(s, e, newIds, key);
    ShowsTunnel(s, last, now);
    SameFate(w, key, last, now);
    if ServiceBy(w, key, last) == ServiceBy(w, key, now) {
      ShowsItself(r, ServiceBy(w, key, now));
    } else {
      UnwrittenShows(s, r, last, key);
    }
  }

  lemma EditTeamStays(s: State, e: E.Edit, newIds: seq<string>)
    requires |newIds| >= E.Needs(e) && E.Edited(s, e, newIds).Ok?
    ensures ItemsStay(s, E.Edited(s, e, newIds).value)
  {
    hide Replaced, Deleted, Filter, E.Linked, IndexOf;
  }

  // ---------------------------------------------------------------- all updates

  predicate Renews(s: State, a: A.Action) { a.InstallBundle? && !A.Joins(s, a.source) }

  /** The writer of an update, if it is committed and writes records. */
  function WriterOf(s: State, a: A.Action): seq<Writer>
    requires A.Supplied(a)
  {
    if a.Follow? then
      if R.CommitsFeed(s, a.step) then [Feed(T.Target(s.team, a.step.source), a.step.fetch.feed)] else []
    else if !A.Commits(s, a) then []
    else if a.Change? then [Edit(a.edit, a.newIds, LinksOf(s, a.edit, a.newIds))]
    else if Renews(s, a) then [Renewed(IndexOf(s.team, SubKey, a.source.value.publicKey), a.feed)]
    else [Added(Behind(s, A.Attempt(s, a).value))]
  }

  lemma {:induction false} RegisteredItems(team: seq<Subscription>, at: nat, source: Source, feed: State)
    requires at <= |team| && Registered(team, at, source, feed).Ok?
    ensures var r := Registered(team, at, source, feed).value;
      |team| <= |r| && forall i :: 0 <= i < |team| ==> r[i].items == team[i].items
    decreases |team| - at
  {
    if at < |team| && !SameSource(team[at].source, source) {
      RegisteredItems(team, at + 1, source, feed);
    }
  }

  lemma JoinExtends(s: State, source: Option<Source>, feed: State)
    requires UniqueIds(s) && JoinAndRegister(s, source, feed).Ok?
    ensures Extends(s, JoinAndRegister(s, source, feed).value) && ItemsStay(s, JoinAndRegister(s, source, feed).value)
  {
    hide Joined, Unique, Registered;
    JoinedMeaning(s.hosts, feed.hosts, HostId);
    JoinedMeaning(s.keys, feed.keys, KeyId);
    JoinedMeaning(s.tunnels, feed.tunnels, TunnelId);
    JoinedMeaning(s.services, feed.services, ServiceId);
    if source.Some? {
      RegisteredItems(s.team, 0, source.value, feed);
    }
  }

  lemma BackupExtends(s: State, file: B.File, withSettings: bool, pathOk: B.PathTest)
    requires B.Import(s, file, withSettings, pathOk).Ok?
    ensures var r := B.Import(s, file, withSettings, pathOk).value.0; Extends(s, r) && ItemsStay(s, r)
  {
    hide Valid, IndexOf, B.AllMergeable, Additions;
  }

  lemma ImportExtends(s: State, cands: seq<I.Candidate>, chosen: set<string>, files: I.Files, newIds: seq<string>)
    requires 2 * |cands| <= |newIds| && I.ApplySelected(s, cands, chosen, files, newIds).Ok?
    ensures var r := I.ApplySelected(s, cands, chosen, files, newIds).value; Extends(s, r) && ItemsStay(s, r)
  {
    ImportPrefix(s, cands, chosen, files, newIds);
    hide I.ApplySelected;
  }

  predicate Adds(s: State, a: A.Action) {
    a.ImportHosts? || a.ImportBackup? || (a.InstallBundle? && A.Joins(s, a.source))
  }

  lemma AttemptExtends(s: State, a: A.Action)
    requires A.Supplied(a) && UniqueIds(s) && Adds(s, a) && A.Attempt(s, a).Ok?
    ensures Extends(s, A.Attempt(s, a).value) && ItemsStay(s, A.Attempt(s, a).value)
  {
    hide Valid, UniqueIds, I.ApplySelected, B.Import, JoinAndRegister, Refollow, Extends, ItemsStay, Has;
    match a {
      case ImportHosts(cands, chosen, files, ids) => ImportExtends(s, cands, chosen, files, ids);
      case ImportBackup(file, withSettings, pathOk) => BackupExtends(s, file, withSettings, pathOk);
      case InstallBundle(source, feed, now) => JoinExtends(s, source, feed);
    }
  }

  /** A committed update that is not a step of the poller. */
  ghost predicate Doable(s: State, a: A.Action) {
    A.Supplied(a) && A.FreshFor(s, a) && Valid(s) && UniqueIds(s) && !a.Follow? && A.Commits(s, a)
  }

  lemma RenewedAt(s: State, a: A.Action)
    requires Renews(s, a)
    ensures var index := IndexOf(s.team, SubKey, a.source.value.publicKey);
      index < |s.team| && InstallEdit(s, a.source, a.feed, a.now) == Refollow(s, index, a.source.value, a.feed, a.now)
  {
    hide Refollow, JoinAndRegister;
  }

  lemma ActionWrites(s: State, a: A.Action, last: Option<Service>, key: string)
    requires Doable(s, a) && LinkKey(last, key) && Shows(s, last, Find(s.services, ServiceId, key))
    ensures |WriterOf(s, a)| == 1 && A.Perform(s, a) == A.Attempt(s, a).value
    ensures Writes(s, WriterOf(s, a)[0], A.Perform(s, a), key) && WritesLinks(s, WriterOf(s, a)[0], A.Perform(s, a), last, key)
  {
    var r := A.Attempt(s, a).value;
    hide Valid, UniqueIds, A.FreshIn, E.Edited, I.ApplySelected, B.Import, InstallEdit, Refollow, Writes, WritesLinks, Shows, Find,
      LinksOf, Behind, Extends, ItemsStay, IndexOf, A.Joins;
    if a.Change? {
      EditWrites(s, a.edit, a.newIds, key);
      EditWritesLinks(s, a.edit, a.newIds, last, key);
    } else if Renews(s, a) {
      var index := IndexOf(s.team, SubKey, a.source.value.publicKey);
      RenewedAt(s, a);
      BundleWrites(s, index, a.source.value, a.feed, a.now, key);
      BundleWritesLinks(s, index, a.source.value, a.feed, a.now, last, key);
    } else {
      AttemptExtends(s, a);
      AddedWrites(s, r, key);
      AddedWritesLinks(s, r, last, key);
    }
  }

  // ---------------------------------------------------------------- items

  /** The feed this writer brought for subscription `i`. */
  function FeedFor(w: Writer, i: nat): Option<State> {
    match w
    case Feed(index, feed) => if index == i then Some(feed) else None
    case Renewed(index, feed) => if index == i then Some(feed) else None
    case _ => None
  }

  ghost predicate Owns(log: seq<Writer>, start: State, i: nat, it: Item)
    requires i < |start.team|
  {
    it in start.team[i].items || exists j :: 0 <= j < |log| && FeedFor(log[j], i).Some? && Holds(FeedFor(log[j], i).value, it)
  }

  function LatestFeed(log: seq<Writer>, i: nat): Option<State> {
    if log == [] then None else Or(FeedFor(log[|log| - 1], i), LatestFeed(log[..|log| - 1], i))
  }

  /** The subscription lists everything it ever shared; an item is current exactly when its last
      committed feed holds it. */
  ghost predicate ItemsTold(start: State, log: seq<Writer>, s: State, i: nat)
    requires i < |start.team| <= |s.team|
  {
    && (forall it :: it in s.team[i].items <==> Owns(log, start, i, it))
    && match LatestFeed(log, i)
       case None => s.team[i].items == start.team[i].items
       case Some(feed) => forall it <- s.team[i].items :: s.team[i].items[it] == Current <==> Holds(feed, it)
  }

  /** What a writer does to the items of a subscription. */
  ghost predicate WritesItems(s: State, w: Writer, r: State, i: nat)
    requires i < |s.team| <= |r.team|
  {
    match FeedFor(w, i)
    case None => r.team[i].items == s.team[i].items
    case Some(feed) =>
      && (forall it :: it in r.team[i].items <==> it in s.team[i].items || Holds(feed, it))
      && (forall it <- r.team[i].items :: r.team[i].items[it] == Current <==> Holds(feed, it))
  }

  lemma OwnsStep(start: State, log: seq<Writer>, w: Writer, i: nat, it: Item)
    requires i < |start.team|
    ensures Owns(log + [w], start, i, it) <==>
      Owns(log, start, i, it) || (FeedFor(w, i).Some? && Holds(FeedFor(w, i).value, it))
    ensures LatestFeed(log + [w], i) == Or(FeedFor(w, i), LatestFeed(log, i))
  {
    hide Holds, FeedFor;
    var longer := log + [w];
    assert longer[..|log|] == log && longer[|log|] == w;
    if FeedFor(w, i).Some? && Holds(FeedFor(w, i).value, it) { assert FeedFor(longer[|log|], i).Some?; }
    if j: nat :| j < |log| && FeedFor(log[j], i).Some? && Holds(FeedFor(log[j], i).value, it) { assert longer[j] == log[j]; }
  }

  lemma ItemsToldStep(s: State, w: Writer, r: State, start: State, log: seq<Writer>, i: nat)
    requires i < |start.team| <= |s.team| <= |r.team| && ItemsTold(start, log, s, i) && WritesItems(s, w, r, i)
    ensures ItemsTold(start, log + [w], r, i)
  {
    hide Owns, LatestFeed, Holds, FeedFor;
    forall it
      ensures Owns(log + [w], start, i, it) <==> Owns(log, start, i, it) || (FeedFor(w, i).Some? && Holds(FeedFor(w, i).value, it))
      ensures LatestFeed(log + [w], i) == Or(FeedFor(w, i), LatestFeed(log, i))
    {
      OwnsStep(start, log, w, i, it);
    }
  }

  lemma FeedWritesItems(s: State, index: nat, feed: State, now: string, i: nat)
    requires Situation(s, index, feed) && i < |s.team|
    ensures |Applied(s, index, feed, now).team| == |s.team|
    ensures WritesItems(s, Feed(index, feed), Applied(s, index, feed, now), i)
  {
    hide Situation, Applied, Holds;
    R.ItemsStep(s, index, feed, now, i);
  }

  lemma BundleWritesItems(s: State, index: nat, source: Source, feed: State, now: string, i: nat)
    requires index < |s.team| && Valid(s) && UniqueIds(s) && Valid(feed) && Refollow(s, index, source, feed, now).Ok? && i < |s.team|
    ensures |Refollow(s, index, source, feed, now).value.team| == |s.team|
    ensures WritesItems(s, Renewed(index, feed), Refollow(s, index, source, feed, now).value, i)
  {
    hide Valid, UniqueIds, AdoptKeys, Refollow, Applied, Situation, IndexOf;
    PreparedSituation(s, index, source, feed, now);
    AdoptedKeys(s, index, feed.keys, "");
    R.ItemsStep(Prepared(s, index, source, feed), index, feed, now, i);
  }

  lemma ActionWritesItems(s: State, a: A.Action, i: nat)
    requires Doable(s, a) && i < |s.team| && |WriterOf(s, a)| == 1
    ensures |s.team| <= |A.Perform(s, a).team| && WritesItems(s, WriterOf(s, a)[0], A.Perform(s, a), i)
  {
    var r := A.Attempt(s, a).value;
    hide Valid, UniqueIds, A.FreshIn, E.Edited, I.ApplySelected, B.Import, InstallEdit, Refollow, Find, LinksOf, Behind, Extends, IndexOf, A.Joins, Holds;
    if a.Change? {
      EditTeamStays(s, a.edit, a.newIds);
    } else if Renews(s, a) {
      RenewedAt(s, a);
      BundleWritesItems(s, IndexOf(s.team, SubKey, a.source.value.publicKey), a.source.value, a.feed, a.now, i);
    } else {
      AttemptExtends(s, a);
    }
  }

  // ---------------------------------------------------------------- whole runs

  /** What a run leaves behind, in terms of its start and of its writers. */
  ghost predicate Told(start: State, log: seq<Writer>, s: State) {
    && |start.team| <= |s.team|
    && (forall key :: Written(start, log, s, key))
    && (forall i :: 0 <= i < |start.team| ==> ItemsTold(start, log, s, i))
  }

  /** Updates that can be performed one after the other. */
  predicate Possible(start: State, actions: seq<A.Action>)
    decreases |actions|, 0
  {
    actions == [] || (
      var n := |actions| - 1;
      && Possible(start, actions[..n])
      && A.Supplied(actions[n]) && A.FreshFor(After(start, actions[..n]), actions[n]))
  }

  function After(start: State, actions: seq<A.Action>): State
    requires Possible(start, actions)
    decreases |actions|, 1
  {
    if actions == [] then start else A.Perform(After(start, actions[..|actions| - 1]), actions[|actions| - 1])
  }

  /** The writers of a run, in order. */
  function Writers(start: State, actions: seq<A.Action>): seq<Writer>
    requires Possible(start, actions)
  {
    if actions == [] then []
    else
      var n := |actions| - 1;
      Writers(start, actions[..n]) + WriterOf(After(start, actions[..n]), actions[n])
  }

  lemma {:induction false} LastServiceKey(log: seq<Writer>, start: State, key: string)
    ensures LinkKey(LastServiceOf(log, start, key), key)
  {
    hide IndexOf;
    if log == [] {
      HasWitness(start.services, ServiceId, key);
    } else {
      LastServiceKey(log[..|log| - 1], start, key);
      ServiceByKey(log[|log| - 1], key, LastServiceOf(log[..|log| - 1], start, key));
    }
  }

  lemma ServiceByKey(w: Writer, key: string, prev: Option<Service>)
    requires LinkKey(prev, key)
    ensures LinkKey(ServiceBy(w, key, prev), key)
  {
    hide IndexOf;
    match w {
      case Feed(_, feed) => HasWitness(feed.services, ServiceId, key);
      case Renewed(_, feed) => HasWitness(feed.services, ServiceId, key);
      case Added(records) => HasWitness(records.services, ServiceId, key);
      case Edit(_, _, links) => HasWitness(links, ServiceId, key);
    }
  }

  lemma LastStep(log: seq<Writer>, w: Writer, start: State, key: string)
    ensures LastHostOf(log + [w], start, key) == HostBy(w, key, LastHostOf(log, start, key))
    ensures LastKeyOf(log + [w], start, key) == KeyBy(w, key, LastKeyOf(log, start, key))
    ensures LastTunnelOf(log + [w], start, key) == TunnelBy(w, key, LastTunnelOf(log, start, key))
    ensures LastServiceOf(log + [w], start, key) == ServiceBy(w, key, LastServiceOf(log, start, key))
  {
    hide HostBy, KeyBy, TunnelBy, ServiceBy, Find;
    assert (log + [w])[..|log|] == log;
  }

  lemma WrittenStep(start: State, log: seq<Writer>, s: State, w: Writer, r: State, key: string)
    requires Written(start, log, s, key) && Writes(s, w, r, key)
    requires WritesLinks(s, w, r, LastServiceOf(log, start, key), key)
    ensures Written(start, log + [w], r, key)
  {
    hide HostBy, KeyBy, TunnelBy, ServiceBy, Find, Shows, LastHostOf, LastKeyOf, LastTunnelOf, LastServiceOf;
    LastStep(log, w, start, key);
  }

  lemma LinkPart(start: State, log: seq<Writer>, s: State, key: string)
    requires Written(start, log, s, key)
    ensures Shows(s, LastServiceOf(log, start, key), Find(s.services, ServiceId, key))
  {
    hide Find, Shows, LastHostOf, LastKeyOf, LastTunnelOf, LastServiceOf;
  }

  lemma KeyWritten(start: State, log: seq<Writer>, s: State, a: A.Action, key: string)
    requires Doable(s, a) && Written(start, log, s, key)
    ensures |WriterOf(s, a)| == 1 && Written(start, log + WriterOf(s, a), A.Perform(s, a), key)
  {
    DoableSupplied(s, a);
    hide Doable, Written, A.Supplied, A.Perform, A.Attempt, WriterOf, Writes, WritesLinks, Shows, LastServiceOf, Find, LinkKey;
    LastServiceKey(log, start, key);
    LinkPart(start, log, s, key);
    ActionWrites(s, a, LastServiceOf(log, start, key), key);
    assert WriterOf(s, a) == [WriterOf(s, a)[0]];
    WrittenStep(start, log, s, WriterOf(s, a)[0], A.Perform(s, a), key);
  }

  lemma DoneTold(start: State, log: seq<Writer>, s: State, a: A.Action)
    requires Doable(s, a) && Told(start, log, s)
    ensures Told(start, log + WriterOf(s, a), A.Perform(s, a))
  {
    DoableSupplied(s, a);
    hide Doable, Written, ItemsTold, A.Supplied, A.Perform, A.Attempt, WriterOf, WritesItems;
    forall key ensures |WriterOf(s, a)| == 1 && Written(start, log + WriterOf(s, a), A.Perform(s, a), key) {
      KeyWritten(start, log, s, a, key);
    }
    KeyWritten(start, log, s, a, "");
    assert WriterOf(s, a) == [WriterOf(s, a)[0]];
    if |s.team| > 0 { ActionWritesItems(s, a, 0); }
    forall i | 0 <= i < |start.team|
      ensures |s.team| <= |A.Perform(s, a).team| && ItemsTold(start, log + WriterOf(s, a), A.Perform(s, a), i)
    {
      ActionWritesItems(s, a, i);
      ItemsToldStep(s, WriterOf(s, a)[0], A.Perform(s, a), start, log, i);
    }
  }

  lemma DoableSupplied(s: State, a: A.Action)
    requires Doable(s, a)
    ensures A.Supplied(a)
  {
    hide A.Supplied, A.FreshFor, Valid, UniqueIds, A.Commits;
  }

  lemma QuietShows(s: State, r: State, last: Option<Service>, now: Option<Service>)
    requires R.Quiet(s, r) && Shows(s, last, now)
    ensures Shows(r, last, now)
  {
    hide IndexOf, WithPort;
    if last.Some? {
      assert KeptBySome(s, last.value) <==> KeptBySome(r, last.value);
    }
  }

  /** An update that writes nothing leaves everything told as it is. */
  lemma QuietTold(start: State, log: seq<Writer>, s: State, r: State)
    requires R.Quiet(s, r) && Told(start, log, s)
    ensures Told(start, log, r)
  {
    hide LastHostOf, LastKeyOf, LastTunnelOf, LastServiceOf, Find, Shows, ItemsTold;
    forall key ensures Written(start, log, r, key) {
      assert Written(start, log, s, key);
      QuietShows(s, r, LastServiceOf(log, start, key), Find(s.services, ServiceId, key));
    }
    forall i | 0 <= i < |start.team| ensures ItemsTold(start, log, r, i) {
      QuietItems(start, log, s, r, i);
    }
  }

  lemma QuietItems(start: State, log: seq<Writer>, s: State, r: State, i: nat)
    requires R.Quiet(s, r) && i < |start.team| <= |s.team| && ItemsTold(start, log, s, i)
    ensures ItemsTold(start, log, r, i)
  {
    hide Owns, LatestFeed, Holds;
  }

  lemma SelfQuiet(s: State)
    ensures R.Quiet(s, s)
  {
  }

  lemma FollowTold(start: State, log: seq<Writer>, s: State, step: T.Step)
    requires Valid(s) && UniqueIds(s) && R.Verified(step) && Told(start, log, s)
    ensures A.Supplied(A.Follow(step)) && Told(start, log + WriterOf(s, A.Follow(step)), T.Next(s, step))
  {
    hide Valid, UniqueIds, R.Verified, Told, Situation, R.Quiet, T.Next, Applied, T.Target;
    if R.CommitsFeed(s, step) {
      R.ApplyStep(s, step);
      FedTold(start, log, s, T.Target(s.team, step.source), step.fetch.feed, step.now);
    } else {
      R.OnlyStatusChanges(s, step);
      assert log + [] == log;
      QuietTold(start, log, s, T.Next(s, step));
    }
  }

  lemma SameTeamSize(s: State, index: nat, feed: State, now: string)
    requires Situation(s, index, feed)
    ensures |Applied(s, index, feed, now).team| == |s.team|
  {
    hide Valid, Accepts, Synced, Localized, RetargetAll, Marks, UniqueIds;
  }

  lemma FedWritten(start: State, log: seq<Writer>, s: State, index: nat, feed: State, now: string, key: string)
    requires Situation(s, index, feed) && Valid(Applied(s, index, feed, now)) && Written(start, log, s, key)
    ensures Written(start, log + [Feed(index, feed)], Applied(s, index, feed, now), key)
  {
    assert index < |s.team|;
    hide *;
    LastServiceKey(log, start, key);
    LinkPart(start, log, s, key);
    FeedWrites(s, index, feed, now, key);
    FeedWritesLinks(s, index, feed, now, LastServiceOf(log, start, key), key);
    WrittenStep(start, log, s, Feed(index, feed), Applied(s, index, feed, now), key);
  }

  lemma ToldKey(start: State, log: seq<Writer>, s: State, key: string)
    requires Told(start, log, s)
    ensures Written(start, log, s, key) && |start.team| <= |s.team|
  {
    hide Written, ItemsTold;
  }

  lemma ToldItems(start: State, log: seq<Writer>, s: State, i: nat)
    requires Told(start, log, s) && i < |start.team|
    ensures |start.team| <= |s.team| && ItemsTold(start, log, s, i)
  {
    hide Written, ItemsTold;
  }

  lemma FedTold(start: State, log: seq<Writer>, s: State, index: nat, feed: State, now: string)
    requires Situation(s, index, feed) && Valid(Applied(s, index, feed, now)) && Told(start, log, s)
    ensures Told(start, log + [Feed(index, feed)], Applied(s, index, feed, now))
  {
    assert index < |s.team|;
    var r, w := Applied(s, index, feed, now), Feed(index, feed);
    SameTeamSize(s, index, feed, now);
    hide *;
    ToldKey(start, log, s, "");
    forall key ensures Written(start, log + [w], r, key) {
      ToldKey(start, log, s, key);
      FedWritten(start, log, s, index, feed, now, key);
    }
    forall i | 0 <= i < |start.team| ensures ItemsTold(start, log + [w], r, i) {
      ToldItems(start, log, s, i);
      FeedWritesItems(s, index, feed, now, i);
      ItemsToldStep(s, w, r, start, log, i);
    }
    IsTold(start, log + [w], r);
  }

  lemma IsTold(start: State, log: seq<Writer>, s: State)
    requires |start.team| <= |s.team| && (forall key :: Written(start, log, s, key))
    requires forall i :: 0 <= i < |start.team| ==> ItemsTold(start, log, s, i)
    ensures Told(start, log, s)
  {
    hide Written, ItemsTold;
  }

  lemma ToldAtStart(start: State)
    ensures Told(start, [], start)
  {
    hide IndexOf, Shown;
  }

  lemma StepTold(start: State, log: seq<Writer>, s: State, a: A.Action)
    requires Valid(s) && UniqueIds(s) && A.Supplied(a) && A.FreshFor(s, a) && Told(start, log, s)
    ensures Told(start, log + WriterOf(s, a), A.Perform(s, a))
  {
    hide Valid, UniqueIds, A.FreshFor, Told, R.Quiet, T.Next, R.CommitsFeed, A.Attempt, R.Verified;
    if a.Follow? {
      FollowTold(start, log, s, a.step);
    } else if A.Commits(s, a) {
      DoneTold(start, log, s, a);
    } else {
      SelfQuiet(s);
      assert log + [] == log;
      QuietTold(start, log, s, s);
    }
  }

  /** Every record has a last writer: from every checked start with unique identifiers, after any run
      of edits, imports, backups, bundles and steps of the poller, each record is what the writers of
      the run made of it, one after the other, and each subscription lists what it ever shared, current
      exactly when its last feed holds it. */
  lemma {:induction false} EveryRecordWritten(start: State, actions: seq<A.Action>)
    requires Valid(start) && UniqueIds(start) && Possible(start, actions)
    ensures Valid(After(start, actions)) && UniqueIds(After(start, actions))
    ensures Told(start, Writers(start, actions), After(start, actions))
  {
    hide Valid, UniqueIds, Told, A.Perform, A.Supplied, A.FreshFor, WriterOf;
    if actions == [] {
      ToldAtStart(start);
    } else {
      var n := |actions| - 1;
      EveryRecordWritten(start, actions[..n]);
      A.PerformKeeps(After(start, actions[..n]), actions[n]);
      StepTold(start, Writers(start, actions[..n]), After(start, actions[..n]), actions[n]);
    }
  }
}
