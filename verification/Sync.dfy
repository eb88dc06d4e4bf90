/**
 Following another machine's shared configuration: a feed overwrites the records this
 subscription owns, appends new ones, and never deletes. Records that left the feed are marked
 missing and kept; kept service links follow their tunnel's port.
 */
module Sync {
  import opened Wrappers
  import opened Text
  import opened Records
  import opened Model
  import opened Store

  // ---------------------------------------------------------------- one collection

  predicate Syncable<T>(stored: seq<T>, incoming: seq<T>, kind: Kind, items: map<Item, Mark>, id: T -> string) {
    && GoodIds(incoming, id) && Unique(incoming, id)
    && forall i :: 0 <= i < |incoming| && Has(stored, id, id(incoming[i])) ==> Item(kind, id(incoming[i])) in items
  }

  /** Accepting one more record. */
  lemma SyncableStep<T>(stored: seq<T>, incoming: seq<T>, kind: Kind, items: map<Item, Mark>, id: T -> string, i: nat)
    requires i < |incoming| && Syncable(stored, incoming[..i], kind, items, id)
    ensures var v := incoming[i];
      Syncable(stored, incoming[..i + 1], kind, items, id) <==>
      GoodId(id(v)) && id(v) !in AllIds(incoming[..i], id) && (Has(stored, id, id(v)) ==> Item(kind, id(v)) in items)
    ensures !Syncable(stored, incoming[..i + 1], kind, items, id) ==> !Syncable(stored, incoming, kind, items, id)
    ensures AllIds(incoming[..i + 1], id) == AllIds(incoming[..i], id) + {id(incoming[i])}
    ensures id(incoming[i]) !in AllIds(incoming[..i], id) ==> !Has(incoming[..i], id, id(incoming[i]))
    ensures incoming[..i + 1] == incoming[..i] + [incoming[i]]
  {
    hide GoodId, IndexOf;
    assert incoming[..i + 1] == incoming[..i] + [incoming[i]];
    IdsStep(incoming[..i + 1], id, i);
    assert incoming[..i + 1][..i] == incoming[..i];
    assert forall j :: 0 <= j < i + 1 ==> incoming[..i + 1][j] == incoming[j];
    HasWitness(incoming[..i], id, id(incoming[i]));
  }

  lemma OverlayStep<T>(stored: seq<T>, a: seq<T>, v: T, id: T -> string)
    requires !Has(a, id, id(v))
    ensures var (o, at) := (Overlay(stored, a, id), IndexOf(stored, id, id(v)));
      Overlay(stored, a + [v], id) == if at < |stored| then o[at := v] else o
  {
    var at := IndexOf(stored, id, id(v));
    forall i | 0 <= i < |stored|
      ensures Overlaid(stored, a + [v], id, i) == if i == at then v else Overlaid(stored, a, id, i)
    {
      IndexOfAppend(a, [v], id, id(stored[i]));
      if id(stored[i]) == id(v) {
        IndexOfAt(stored, id, i);
      }
    }
  }

  lemma AdditionsStep<T>(stored: seq<T>, a: seq<T>, v: T, id: T -> string)
    ensures Additions(stored, a + [v], id) == Additions(stored, a, id) + if Has(stored, id, id(v)) then [] else [v]
    ensures !Has(a, id, id(v)) ==> !Has(Additions(stored, a, id), id, id(v))
  {
    assert (a + [v])[..|a|] == a;
    var extra := Additions(stored, a, id);
    AdditionsMembers(stored, a, id);
    HasWitness(extra, id, id(v));
    if Has(extra, id, id(v)) {
      HasMember(a, id, Find(extra, id, id(v)).value);
    }
  }

  /** The position an incoming record takes in the partly merged collection. */
  lemma SyncedStep<T>(stored: seq<T>, a: seq<T>, v: T, id: T -> string)
    requires !Has(a, id, id(v))
    ensures var was := Synced(stored, a, id);
      var at := IndexOf(was, id, id(v));
      && (at < |was| <==> Has(stored, id, id(v)))
      && Synced(stored, a + [v], id) == if at < |was| then was[at := v] else was + [v]
  {
    hide IndexOf, Overlay, Additions;
    var (o, extra) := (Overlay(stored, a, id), Additions(stored, a, id));
    OverlayStep(stored, a, v, id);
    AdditionsStep(stored, a, v, id);
    IndexOfAppend(o, extra, id, id(v));
    OverlayIndex(stored, a, id, id(v));
    if !Has(stored, id, id(v)) {
      assert o + (extra + [v]) == (o + extra) + [v];
    }
  }

  /** The search for the record to overwrite. */
  method Locate<T>(xs: seq<T>, id: T -> string, key: string) returns (at: nat)
    ensures at == IndexOf(xs, id, key)
  {
    at := 0;
    while at < |xs| && id(xs[at]) != key
      invariant at <= IndexOf(xs, id, key)
    {
      at := at + 1;
    }
    if at < |xs| {
      IndexOfAt(xs, id, at);
    }
  }

  lemma SyncStart<T>(stored: seq<T>, kind: Kind, items: map<Item, Mark>, id: T -> string)
    ensures Syncable(stored, [], kind, items, id) && Synced(stored, [], id) == stored && AllIds<T>([], id) == {}
  {
    assert Overlay(stored, [], id) == stored;
  }

  method SyncRecords<T>(stored: seq<T>, incoming: seq<T>, kind: Kind, items: map<Item, Mark>, id: T -> string)
    returns (r: Result<seq<T>>)
    ensures r.Ok? <==> Syncable(stored, incoming, kind, items, id)
    ensures r.Ok? ==> r.value == Synced(stored, incoming, id)
  {
    var merged, seen: set<string> := stored, {};
    SyncStart(stored, kind, items, id);
    assert incoming[..0] == [];
    hide GoodId, IndexOf, Synced, Syncable, AllIds, Has;
    for i := 0 to |incoming|
      invariant Syncable(stored, incoming[..i], kind, items, id)
      invariant seen == AllIds(incoming[..i], id)
      invariant merged == Synced(stored, incoming[..i], id)
    {
      var v := incoming[i];
      var key := id(v);
      SyncableStep(stored, incoming, kind, items, id, i);
      if !GoodId(key) || key in seen {
        return Err;
      }
      seen := seen + {key};
      SyncedStep(stored, incoming[..i], v, id);
      var at := Locate(merged, id, key);
      if at < |merged| {
        if Item(kind, key) !in items {
          return Err;
        }
        merged := merged[at := v];
      } else {
        merged := merged + [v];
      }
    }
    assert incoming[..|incoming|] == incoming;
    r := Ok(merged);
  }

  // ---------------------------------------------------------------- a whole feed

  /** The feed holds a record for this item. */
  predicate Holds(feed: State, it: Item) {
    match it.kind
    case Hosts => Has(feed.hosts, HostId, it.id)
    case Keys => Has(feed.keys, KeyId, it.id)
    case Tunnels => Has(feed.tunnels, TunnelId, it.id)
    case Services => Has(feed.services, ServiceId, it.id)
  }

  function KindItems<T(==)>(kind: Kind, xs: seq<T>, id: T -> string): (r: set<Item>)
    ensures forall it :: it in r <==> it.kind == kind && Has(xs, id, it.id)
  {
    forall it: Item ensures it in (set x | x in xs :: Item(kind, id(x))) <==> it.kind == kind && Has(xs, id, it.id) {
      HasWitness(xs, id, it.id);
      if exists x :: x in xs && id(x) == it.id {
        var x :| x in xs && id(x) == it.id;
        HasMember(xs, id, x);
      }
    }
    set x | x in xs :: Item(kind, id(x))
  }

  /** Every item a feed holds, marked current. */
  function Track(feed: State): (m: map<Item, Mark>)
    ensures forall it :: it in m <==> Holds(feed, it)
    ensures forall it <- m :: m[it] == Current
  {
    map it | it in KindItems(Hosts, feed.hosts, HostId) + KindItems(Keys, feed.keys, KeyId)
                   + KindItems(Tunnels, feed.tunnels, TunnelId) + KindItems(Services, feed.services, ServiceId) :: Current
  }

  /** The subscription's items after a feed: what it held before is kept as missing. */
  function Marks(items: map<Item, Mark>, feed: State): (m: map<Item, Mark>)
    ensures m.Keys == items.Keys + Track(feed).Keys
    ensures forall it <- m :: m[it] == Current <==> Holds(feed, it)
  {
    map it | it in items.Keys + Track(feed).Keys :: if it in Track(feed) then Current else Missing
  }

  predicate KeysKnown(stored: seq<Key>, items: map<Item, Mark>, incoming: seq<Key>) {
    forall k <- incoming :: Has(stored, KeyId, k.id) && Item(Keys, k.id) in items
  }

  /** A feed never moves a key file: the local path stays. */
  function Localized(stored: seq<Key>, incoming: seq<Key>): (r: seq<Key>)
    ensures |r| == |incoming|
    ensures forall i :: 0 <= i < |r| ==> r[i].id == incoming[i].id
  {
    seq(|incoming|, i requires 0 <= i < |incoming| =>
      match Find(stored, KeyId, incoming[i].id)
      case None => incoming[i]
      case Some(k) => incoming[i].(path := k.path))
  }

  function WithPort(u: Url, localPort: int): Url
    requires u.Url?
  {
    u.(host := "127.0.0.1", port := Itoa(localPort))
  }

  predicate Kept(marks: map<Item, Mark>, v: Service) {
    Item(Services, v.id) in marks && marks[Item(Services, v.id)] == Missing
  }

  predicate Retargetable(services: seq<Service>, tunnels: seq<Tunnel>, marks: map<Item, Mark>) {
    forall v <- services :: Kept(marks, v) ==> Has(tunnels, TunnelId, v.tunnelId) && v.url.Url?
  }

  /** A kept service link follows the port of its tunnel. */
  function Retargeted(tunnels: seq<Tunnel>, marks: map<Item, Mark>, v: Service): Service {
    if Kept(marks, v) && Has(tunnels, TunnelId, v.tunnelId) && v.url.Url?
    then v.(url := WithPort(v.url, Find(tunnels, TunnelId, v.tunnelId).value.localPort))
    else v
  }

  function RetargetAll(services: seq<Service>, tunnels: seq<Tunnel>, marks: map<Item, Mark>): (r: seq<Service>)
    ensures |r| == |services|
  {
    seq(|services|, i requires 0 <= i < |services| => Retargeted(tunnels, marks, services[i]))
  }

  predicate Accepts(s: State, items: map<Item, Mark>, feed: State) {
    && KeysKnown(s.keys, items, feed.keys)
    && Syncable(s.keys, Localized(s.keys, feed.keys), Keys, items, KeyId)
    && Syncable(s.hosts, feed.hosts, Hosts, items, HostId)
    && Syncable(s.tunnels, feed.tunnels, Tunnels, items, TunnelId)
    && Syncable(s.services, feed.services, Services, items, ServiceId)
    && Retargetable(Synced(s.services, feed.services, ServiceId), Synced(s.tunnels, feed.tunnels, TunnelId), Marks(items, feed))
  }

  function Followed(sub: Subscription, feed: State, now: string): Subscription {
    sub.(items := Marks(sub.items, feed), lastSync := now, error := "")
  }

  function Applied(s: State, index: nat, feed: State, now: string): State
    requires index < |s.team|
  {
    var sub := s.team[index];
    var tunnels := Synced(s.tunnels, feed.tunnels, TunnelId);
    s.(keys := Synced(s.keys, Localized(s.keys, feed.keys), KeyId),
       hosts := Synced(s.hosts, feed.hosts, HostId),
       tunnels := tunnels,
       services := RetargetAll(Synced(s.services, feed.services, ServiceId), tunnels, Marks(sub.items, feed)),
       team := s.team[index := Followed(sub, feed, now)])
  }

  function FeedResult(s: State, index: nat, feed: State, now: string): Result<State>
    requires index < |s.team|
  {
    if Accepts(s, s.team[index].items, feed) then Ok(Applied(s, index, feed, now)) else Err
  }

  method LocalizeKeys(stored: seq<Key>, items: map<Item, Mark>, incoming: seq<Key>) returns (r: Result<seq<Key>>)
    ensures r.Ok? <==> KeysKnown(stored, items, incoming)
    ensures r.Ok? ==> r.value == Localized(stored, incoming)
  {
    hide IndexOf;
    var keys := incoming;
    for i := 0 to |incoming|
      invariant |keys| == |incoming|
      invariant KeysKnown(stored, items, incoming[..i])
      invariant forall j :: 0 <= j < |keys| ==> keys[j] == if j < i then Localized(stored, incoming)[j] else incoming[j]
    {
      var k := incoming[i];
      assert k in incoming;
      var found := Find(stored, KeyId, k.id);
      if found.None? || Item(Keys, k.id) !in items {
        return Err;
      }
      keys := keys[i := k.(path := found.value.path)];
    }
    assert keys == Localized(stored, incoming);
    r := Ok(keys);
  }

  method Retarget(services: seq<Service>, tunnels: seq<Tunnel>, marks: map<Item, Mark>) returns (r: Result<seq<Service>>)
    ensures r.Ok? <==> Retargetable(services, tunnels, marks)
    ensures r.Ok? ==> r.value == RetargetAll(services, tunnels, marks)
  {
    hide IndexOf;
    var out := services;
    for i := 0 to |services|
      invariant |out| == |services|
      invariant Retargetable(services[..i], tunnels, marks)
      invariant forall j :: 0 <= j < |out| ==> out[j] == if j < i then Retargeted(tunnels, marks, services[j]) else services[j]
    {
      var v := services[i];
      assert v in services;
      if Kept(marks, v) {
        var found := Find(tunnels, TunnelId, v.tunnelId);
        if found.None? || !v.url.Url? {
          return Err;
        }
        out := out[i := v.(url := WithPort(v.url, found.value.localPort))];
      }
    }
    assert out == RetargetAll(services, tunnels, marks);
    r := Ok(out);
  }

  /** The feed is applied to the working copy step by step; after an error the copy is dropped. */
  method ApplyFeed(draft: Draft, index: nat, feed: State, now: string) returns (ok: bool)
    requires index < |draft.team|
    modifies draft
    ensures ok <==> FeedResult(old(draft.View()), index, feed, now).Ok?
    ensures ok ==> FeedResult(old(draft.View()), index, feed, now) == Ok(draft.View())
  {
    hide Syncable, Synced, Localized, KeysKnown, Retargetable, RetargetAll, Marks;
    var sub := draft.team[index];
    ok := false;
    var incoming := LocalizeKeys(draft.keys, sub.items, feed.keys);
    if incoming.Err? { return; }
    var keys := SyncRecords(draft.keys, incoming.value, Keys, sub.items, KeyId);
    if keys.Err? { return; }
    draft.keys := keys.value;
    var hosts := SyncRecords(draft.hosts, feed.hosts, Hosts, sub.items, HostId);
    if hosts.Err? { return; }
    draft.hosts := hosts.value;
    var tunnels := SyncRecords(draft.tunnels, feed.tunnels, Tunnels, sub.items, TunnelId);
    if tunnels.Err? { return; }
    draft.tunnels := tunnels.value;
    var services := SyncRecords(draft.services, feed.services, Services, sub.items, ServiceId);
    if services.Err? { return; }
    draft.services := services.value;
    var current := Marks(sub.items, feed);
    var kept := Retarget(draft.services, draft.tunnels, current);
    if kept.Err? { return; }
    draft.services := kept.value;
    draft.team := draft.team[index := sub.(items := current, lastSync := now, error := "")];
    assert draft.View() == Applied(old(draft.View()), index, feed, now);
    ok := true;
  }
}
