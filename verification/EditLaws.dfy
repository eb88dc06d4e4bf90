/**
 What the user's edits and an installed bundle store, said of the stored records themselves: which
 edits are accepted, where a saved record lands, what a web link keeps of the one it replaces, and
 which address a followed master is known under.
 */
module EditLaws {
  import opened Wrappers
  import opened Text
  import opened Records
  import opened Model
  import opened Store
  import opened Sync
  import opened Bundles
  import E = Editing

  // ---------------------------------------------------------------- places

  /** A saved record takes the place of the one with its identifier, or the end; nothing else moves. */
  lemma ReplacedPlaces<T>(xs: seq<T>, key: string, value: T, id: T -> string)
    requires Unique(xs, id)
    ensures var r := Replaced(xs, key, value, id);
      && (r.Ok? <==> key == "" || exists i :: 0 <= i < |xs| && id(xs[i]) == key)
      && (r.Ok? && key == "" ==> r.value == xs + [value])
      && (r.Ok? && key != "" ==> |r.value| == |xs| && forall i :: 0 <= i < |xs| ==>
            r.value[i] == if id(xs[i]) == key then value else xs[i])
  {
  }

  /** The records left by a deletion keep their order. */
  lemma DeletedOrder<T>(xs: seq<T>, key: string, id: T -> string)
    requires Unique(xs, id)
    ensures Deleted(xs, key, id).Ok? <==> exists i :: 0 <= i < |xs| && id(xs[i]) == key
    ensures Deleted(xs, key, id).Ok? ==> Deleted(xs, key, id).value == Filter(xs, (x: T) => id(x) != key)
  {
    var k := IndexOf(xs, id, key);
    if k < |xs| {
      hide IndexOf, Filter;
      assert forall j :: 0 <= j < |xs| && j != k ==> id(xs[j]) != key;
      FilterOne(xs, (x: T) => id(x) != key, k);
    }
  }

  lemma FilterOne<T>(xs: seq<T>, p: T -> bool, k: nat)
    requires k < |xs| && !p(xs[k]) && forall j :: 0 <= j < |xs| && j != k ==> p(xs[j])
    ensures Filter(xs, p) == xs[..k] + xs[k + 1..]
  {
    hide Filter;
    SlicesHold(xs, p, k);
    FilterAll(xs[..k], p);
    FilterAll(xs[k + 1..], p);
    FilterSum(xs[..k], [xs[k]], p);
    FilterSum(xs[..k] + [xs[k]], xs[k + 1..], p);
    FilterNone(xs[k], p);
    assert xs == xs[..k] + [xs[k]] + xs[k + 1..];
  }

  lemma SlicesHold<T>(xs: seq<T>, p: T -> bool, k: nat)
    requires k < |xs| && forall j :: 0 <= j < |xs| && j != k ==> p(xs[j])
    ensures forall x :: x in xs[..k] ==> p(x)
    ensures forall x :: x in xs[k + 1..] ==> p(x)
  {
    var left, right := xs[..k], xs[k + 1..];
    assert forall j :: 0 <= j < |left| ==> left[j] == xs[j];
    assert forall j :: 0 <= j < |right| ==> right[j] == xs[k + 1 + j];
  }

  lemma FilterNone<T>(x: T, p: T -> bool)
    requires !p(x)
    ensures Filter([x], p) == []
  {
    assert [x][..0] == [];
  }

  // ---------------------------------------------------------------- web links

  /** The identifier the j-th submitted link is stored under. */
  function StoredId(links: seq<Service>, newIds: seq<string>, j: nat): string
    requires j < |links| <= |newIds|
  {
    if links[j].id == "" then newIds[j] else links[j].id
  }

  /** `v` is the link stored for a submitted one: a new link takes its host's environment, one that was
      there keeps its environment and description whatever was submitted. */
  ghost predicate StoredFor(services: seq<Service>, host: Host, tunnel: Tunnel, link: Service, newId: string, v: Service) {
    if link.id == "" then
      v == Service(newId, link.name, host.environment, tunnel.id, link.url, link.description)
    else
      exists was <- services :: was.id == link.id && was.tunnelId == tunnel.id
        && v == Service(link.id, link.name, was.environment, tunnel.id, link.url, was.description)
  }

  /** A submitted link is taken when it is new, or names a link of this tunnel once. */
  ghost predicate Takes(services: seq<Service>, tunnel: Tunnel, links: seq<Service>, newIds: seq<string>, j: nat)
    requires j < |links| <= |newIds|
  {
    links[j].id != "" ==>
      && (exists was <- services :: was.id == links[j].id && was.tunnelId == tunnel.id)
      && (forall i :: 0 <= i < j ==> StoredId(links, newIds, i) != links[j].id)
  }

  ghost predicate StoredLinks(services: seq<Service>, host: Host, tunnel: Tunnel, links: seq<Service>,
                              newIds: seq<string>, stored: seq<Service>)
    requires |links| <= |newIds|
  {
    |stored| == |links| && forall j :: 0 <= j < |links| ==> StoredLink(services, host, tunnel, links, newIds, stored[j], j)
  }

  ghost predicate StoredLink(services: seq<Service>, host: Host, tunnel: Tunnel, links: seq<Service>,
                             newIds: seq<string>, v: Service, j: nat)
    requires j < |links| <= |newIds|
  {
    && Takes(services, tunnel, links, newIds, j)
    && StoredFor(services, host, tunnel, links[j], newIds[j], v)
    && ValidService(v, tunnel)
  }

  lemma CompletedStored(services: seq<Service>, host: Host, tunnel: Tunnel, link: Service, newId: string, v: Service)
    requires Unique(services, ServiceId)
    ensures E.Completed(Filter(services, E.OfTunnel(tunnel.id)), host, tunnel, link, newId) == Some(v)
            <==> StoredFor(services, host, tunnel, link, newId, v)
  {
    var own := Filter(services, E.OfTunnel(tunnel.id));
    hide IndexOf;
    if link.id != "" {
      FilterUnique(services, E.OfTunnel(tunnel.id), ServiceId);
      FilterFind(services, E.OfTunnel(tunnel.id), ServiceId, link.id);
      FindLastUnique(own, ServiceId, link.id);
      HasWitness(services, ServiceId, link.id);
      forall was | was in services && was.id == link.id ensures Find(services, ServiceId, link.id) == Some(was) {
        FindMember(services, ServiceId, was);
      }
    }
  }

  /** One more link, as the loop takes it. */
  lemma LinkedStep(own: seq<Service>, host: Host, tunnel: Tunnel, links: seq<Service>, newIds: seq<string>, stored: seq<Service>)
    requires 0 < |links| <= |newIds| && stored != []
    ensures var n, m := |links| - 1, |stored| - 1;
      E.Linked(own, host, tunnel, links, newIds) == Ok(stored) <==>
        && E.Linked(own, host, tunnel, links[..n], newIds) == Ok(stored[..m])
        && E.Completed(own, host, tunnel, links[n], newIds[n]) == Some(stored[m])
        && !(links[n].id != "" && Has(stored[..m], ServiceId, stored[m].id))
        && ValidService(stored[m], tunnel)
  {
    hide IndexOf, E.Completed, ValidService, Has;
    var m := |stored| - 1;
    assert stored == stored[..m] + [stored[m]];
    forall done: seq<Service>, v | done + [v] == stored ensures done == stored[..m] && v == stored[m] {
      assert (done + [v])[..|done|] == done;
    }
  }

  lemma LinkedNotEmpty(own: seq<Service>, host: Host, tunnel: Tunnel, links: seq<Service>, newIds: seq<string>)
    requires 0 < |links| <= |newIds|
    ensures E.Linked(own, host, tunnel, links, newIds) != Ok([])
  {
    hide IndexOf, E.Completed, ValidService, Has;
  }

  lemma StoredStep(services: seq<Service>, host: Host, tunnel: Tunnel, links: seq<Service>, newIds: seq<string>, stored: seq<Service>)
    requires 0 < |links| <= |newIds| && stored != []
    ensures var n, m := |links| - 1, |stored| - 1;
      StoredLinks(services, host, tunnel, links, newIds, stored) <==>
        && StoredLinks(services, host, tunnel, links[..n], newIds, stored[..m])
        && Takes(services, tunnel, links, newIds, n)
        && StoredFor(services, host, tunnel, links[n], newIds[n], stored[m])
        && ValidService(stored[m], tunnel)
  {
    var n, m := |links| - 1, |stored| - 1;
    if n == m {
      forall j | 0 <= j < n
        ensures StoredLink(services, host, tunnel, links, newIds, stored[j], j)
                <==> StoredLink(services, host, tunnel, links[..n], newIds, stored[..m][j], j)
      {
        SameLink(services, host, tunnel, links, newIds, stored[j], j);
      }
    }
    hide Takes, StoredFor, ValidService;
    assert StoredLink(services, host, tunnel, links, newIds, stored[m], n) <==>
      && Takes(services, tunnel, links, newIds, n) && StoredFor(services, host, tunnel, links[n], newIds[n], stored[m])
      && ValidService(stored[m], tunnel);
    hide StoredLink;
  }

  lemma SameLink(services: seq<Service>, host: Host, tunnel: Tunnel, links: seq<Service>, newIds: seq<string>, v: Service, j: nat)
    requires 0 < |links| <= |newIds| && j < |links| - 1
    ensures StoredLink(services, host, tunnel, links, newIds, v, j)
            <==> StoredLink(services, host, tunnel, links[..|links| - 1], newIds, v, j)
  {
    hide StoredFor, ValidService;
    var n := |links| - 1;
    assert links[j] == links[..n][j];
    assert forall i :: 0 <= i < j ==> StoredId(links, newIds, i) == StoredId(links[..n], newIds, i);
  }

  lemma TakenOnce(services: seq<Service>, host: Host, tunnel: Tunnel, links: seq<Service>, newIds: seq<string>, stored: seq<Service>)
    requires 0 < |links| <= |newIds| && stored != []
    requires var n, m := |links| - 1, |stored| - 1;
      && StoredLinks(services, host, tunnel, links[..n], newIds, stored[..m])
      && StoredFor(services, host, tunnel, links[n], newIds[n], stored[m])
    ensures var n, m := |links| - 1, |stored| - 1;
      Takes(services, tunnel, links, newIds, n) <==> !(links[n].id != "" && Has(stored[..m], ServiceId, stored[m].id))
  {
    hide IndexOf;
    var n, m := |links| - 1, |stored| - 1;
    forall i | 0 <= i < n ensures stored[i].id == StoredId(links, newIds, i) {
      assert StoredLink(services, host, tunnel, links[..n], newIds, stored[..m][i], i);
    }
    if links[n].id != "" {
      HasWitness(stored[..m], ServiceId, links[n].id);
      if Has(stored[..m], ServiceId, links[n].id) {
        var i := IndexOf(stored[..m], ServiceId, links[n].id);
        assert StoredId(links, newIds, i) == links[n].id;
      }
      forall i | 0 <= i < m && stored[i].id == links[n].id ensures Has(stored[..m], ServiceId, links[n].id) {
        HasMember(stored[..m], ServiceId, stored[i]);
      }
    }
  }

  /** Replacing the links of a tunnel succeeds with exactly the links stored for the submitted ones. */
  lemma {:induction false} LinkedExact(services: seq<Service>, host: Host, tunnel: Tunnel, links: seq<Service>,
                                       newIds: seq<string>, stored: seq<Service>)
    requires Unique(services, ServiceId) && |links| <= |newIds|
    ensures E.Linked(Filter(services, E.OfTunnel(tunnel.id)), host, tunnel, links, newIds) == Ok(stored)
            <==> StoredLinks(services, host, tunnel, links, newIds, stored)
  {
    hide StoredFor, StoredLink, Takes, ValidService, Unique, IndexOf, Filter, E.Completed, Has;
    var own := Filter(services, E.OfTunnel(tunnel.id));
    if links != [] && stored == [] {
      LinkedNotEmpty(own, host, tunnel, links, newIds);
    } else if links != [] {
      var n, m := |links| - 1, |stored| - 1;
      LinkedExact(services, host, tunnel, links[..n], newIds, stored[..m]);
      CompletedStored(services, host, tunnel, links[n], newIds[n], stored[m]);
      LinkedStep(own, host, tunnel, links, newIds, stored);
      StoredStep(services, host, tunnel, links, newIds, stored);
      if StoredLinks(services, host, tunnel, links[..n], newIds, stored[..m])
         && StoredFor(services, host, tunnel, links[n], newIds[n], stored[m]) {
        TakenOnce(services, host, tunnel, links, newIds, stored);
      }
    }
  }

  /** `stored` is what this tunnel's links become. */
  ghost predicate Links(hosts: seq<Host>, services: seq<Service>, t: Tunnel, links: seq<Service>, newIds: seq<string>,
                        stored: seq<Service>)
    requires |links| <= |newIds|
  {
    exists host <- hosts :: host.id == t.hostId && StoredLinks(services, host, t, links, newIds, stored)
  }

  /** Saving links: the links of the other tunnels stay in order, and this tunnel's are exactly those
      stored for the submitted ones. */
  lemma LinksReplaced(s: State, t: Tunnel, links: seq<Service>, newIds: seq<string>, stored: seq<Service>)
    requires Unique(s.hosts, HostId) && Unique(s.services, ServiceId) && |links| <= |newIds|
    ensures E.ReplaceLinks(s, t, links, newIds).Ok? <==> exists other: seq<Service> :: Links(s.hosts, s.services, t, links, newIds, other)
    ensures Links(s.hosts, s.services, t, links, newIds, stored) ==>
      E.ReplaceLinks(s, t, links, newIds) == Ok(s.(services := Filter(s.services, (v: Service) => v.tunnelId != t.id) + stored))
  {
    hide IndexOf, StoredLinks, E.Linked, Filter;
    HasWitness(s.hosts, HostId, t.hostId);
    forall h | h in s.hosts && h.id == t.hostId ensures Find(s.hosts, HostId, t.hostId) == Some(h) {
      FindMember(s.hosts, HostId, h);
    }
    if Has(s.hosts, HostId, t.hostId) {
      var host := Find(s.hosts, HostId, t.hostId).value;
      var own := E.Linked(Filter(s.services, E.OfTunnel(t.id)), host, t, links, newIds);
      if own.Ok? {
        LinkedExact(s.services, host, t, links, newIds, own.value);
        assert Links(s.hosts, s.services, t, links, newIds, own.value);
      }
      forall other: seq<Service> | Links(s.hosts, s.services, t, links, newIds, other) ensures own == Ok(other) {
        LinkedExact(s.services, host, t, links, newIds, other);
      }
      FilterSame(s.services, E.OffTunnel(t.id), (v: Service) => v.tunnelId != t.id);
    }
  }

  /** The identifier a saved record is stored under: its own, or a new one. */
  function OwnId(id: string, newId: string): string { if id == "" then newId else id }

  /** A tunnel saved with its links. */
  lemma LinksStored(s: State, t: Tunnel, links: seq<Service>, newIds: seq<string>, r: State)
    requires UniqueIds(s) && |newIds| >= 2 + |links|
    requires E.Edited(s, E.SaveTunnel(t, Some(links), false), newIds) == Ok(r)
    ensures var v := t.(id := OwnId(t.id, newIds[0]));
      exists stored: seq<Service> ::
        && Links(s.hosts, s.services, v, links, newIds[2..], stored)
        && r.services == Filter(s.services, (w: Service) => w.tunnelId != v.id) + stored
  {
    hide IndexOf, Replaced, Links, E.ReplaceLinks, Filter;
    var v := t.(id := OwnId(t.id, newIds[0]));
    var saved := s.(tunnels := Replaced(s.tunnels, t.id, v, TunnelId).value);
    LinksReplaced(saved, v, links, newIds[2..], []);
    var stored :| Links(s.hosts, s.services, v, links, newIds[2..], stored);
    LinksReplaced(saved, v, links, newIds[2..], stored);
  }

  // ---------------------------------------------------------------- which edits are accepted

  /** The submitted links can all be stored. */
  ghost predicate Linkable(s: State, t: Tunnel, links: seq<Service>, newIds: seq<string>)
    requires |newIds| >= 2 + |links|
  {
    exists stored: seq<Service> :: Links(s.hosts, s.services, t.(id := OwnId(t.id, newIds[0])), links, newIds[2..], stored)
  }

  /** A running tunnel is neither saved nor deleted, a refused path saves nothing, a new tunnel is not
      given together with an existing one, and only a stored record is overwritten or deleted. */
  ghost predicate Accepted(s: State, e: E.Edit, newIds: seq<string>)
    requires |newIds| >= E.Needs(e)
  {
    match e
    case SaveHost(h) => h.id == "" || Stored(s.hosts, HostId, h.id)
    case SaveKey(k, path) => path.Some? && (k.id == "" || Stored(s.keys, KeyId, k.id))
    case SaveTunnel(t, links, active) =>
      && !active && (t.id == "" || Stored(s.tunnels, TunnelId, t.id))
      && (links.None? || Linkable(s, t, links.value, newIds))
    case SaveService(v, newTunnel) =>
      (newTunnel.Some? ==> v.tunnelId == "") && (v.id == "" || Stored(s.services, ServiceId, v.id))
    case SaveSettings(settings) => settings.Some?
    case DeleteHost(id) => Stored(s.hosts, HostId, id)
    case DeleteKey(id) => Stored(s.keys, KeyId, id)
    case DeleteTunnel(id, active) => !active && Stored(s.tunnels, TunnelId, id)
    case DeleteService(id) => Stored(s.services, ServiceId, id)
  }

  lemma EditExact(s: State, e: E.Edit, newIds: seq<string>)
    requires UniqueIds(s) && |newIds| >= E.Needs(e)
    ensures E.Edited(s, e, newIds).Ok? <==> Accepted(s, e, newIds)
  {
    hide IndexOf, Has, Stored, Linkable, E.Linked, Filter, E.ReplaceLinks;
    match e {
      case SaveHost(h) => StoredHas(s.hosts, HostId, h.id);
      case SaveKey(k, path) => StoredHas(s.keys, KeyId, k.id);
      case SaveTunnel(t, links, active) =>
        StoredHas(s.tunnels, TunnelId, t.id);
        if links.Some? { SavedExact(s, t, links.value, newIds); }
      case SaveService(v, newTunnel) => StoredHas(s.services, ServiceId, v.id);
      case SaveSettings(settings) =>
      case DeleteHost(id) => StoredHas(s.hosts, HostId, id); DeletedHas(s.hosts, HostId, id);
      case DeleteKey(id) => StoredHas(s.keys, KeyId, id); DeletedHas(s.keys, KeyId, id);
      case DeleteTunnel(id, active) => StoredHas(s.tunnels, TunnelId, id); DeletedHas(s.tunnels, TunnelId, id);
      case DeleteService(id) => StoredHas(s.services, ServiceId, id); DeletedHas(s.services, ServiceId, id);
    }
  }

  lemma SavedExact(s: State, t: Tunnel, links: seq<Service>, newIds: seq<string>)
    requires UniqueIds(s) && |newIds| >= 2 + |links|
    ensures E.SavedTunnel(s, t, Some(links), newIds).Ok? <==>
      (t.id == "" || Has(s.tunnels, TunnelId, t.id)) && Linkable(s, t, links, newIds)
  {
    hide IndexOf, Has, Links, E.ReplaceLinks, Filter;
    var v := t.(id := OwnId(t.id, newIds[0]));
    var tunnels := Replaced(s.tunnels, t.id, v, TunnelId);
    if tunnels.Ok? { LinksReplaced(s.(tunnels := tunnels.value), v, links, newIds[2..], []); }
  }

  lemma DeletedHas<T>(xs: seq<T>, id: T -> string, key: string)
    ensures Deleted(xs, key, id).Ok? <==> Has(xs, id, key)
  {
  }

  // ---------------------------------------------------------------- what an edit stores

  /** The tunnel made for a new link. */
  function LinkTunnel(v: Service, t: Tunnel, newId: string): Tunnel {
    Tunnel(newId, v.name + " tunnel", "127.0.0.1", t.localPort, t.remoteHost, t.remotePort, t.hostId, t.autoReconnect,
           t.description)
  }

  /** The value an edit stores, as a record of its fields. */
  lemma EditStores(s: State, e: E.Edit, newIds: seq<string>, r: State)
    requires UniqueIds(s) && |newIds| >= E.Needs(e) && E.Edited(s, e, newIds) == Ok(r)
    ensures r.team == s.team
    ensures r.settings == if e.SaveSettings? then e.settings.value else s.settings
    ensures e.SaveKey? ==> Key(OwnId(e.key.id, newIds[0]), e.key.name, e.path.value) in r.keys
    ensures e.SaveHost? ==> e.host.(id := OwnId(e.host.id, newIds[0])) in r.hosts
    ensures e.SaveTunnel? ==> e.tunnel.(id := OwnId(e.tunnel.id, newIds[0])) in r.tunnels
    ensures e.SaveTunnel? && e.links.None? ==> r.services == s.services
    ensures e.SaveService? ==>
      e.service.(id := OwnId(e.service.id, newIds[1]),
                 tunnelId := if e.newTunnel.Some? then newIds[0] else e.service.tunnelId) in r.services
    ensures e.SaveService? && e.newTunnel.None? ==> r.tunnels == s.tunnels
    ensures e.SaveService? && e.newTunnel.Some? ==> r.tunnels == s.tunnels + [LinkTunnel(e.service, e.newTunnel.value, newIds[0])]
  {
    hide Deleted, Filter, E.ReplaceLinks;
    if e.SaveKey? { ReplacedHas(s.keys, e.key.id, e.key.(id := E.Named(e.key.id, newIds[0]), path := e.path.value), KeyId); }
    if e.SaveHost? { ReplacedHas(s.hosts, e.host.id, e.host.(id := E.Named(e.host.id, newIds[0])), HostId); }
    if e.SaveTunnel? {
      ReplacedHas(s.tunnels, e.tunnel.id, e.tunnel.(id := E.Named(e.tunnel.id, newIds[0])), TunnelId);
      assert e.links.Some? ==> E.SavedTunnel(s, e.tunnel, e.links, newIds).Ok?;
      LinksOnly(s, e.tunnel, e.links, newIds);
    }
    if e.SaveService? {
      ReplacedHas(s.services, e.service.id, e.service.(id := E.Named(e.service.id, newIds[1]),
        tunnelId := if e.newTunnel.Some? then newIds[0] else e.service.tunnelId), ServiceId);
    }
  }

  lemma LinksOnly(s: State, t: Tunnel, links: Option<seq<Service>>, newIds: seq<string>)
    requires |newIds| >= 2 && (links.Some? ==> |newIds| >= 2 + |links.value|) && E.SavedTunnel(s, t, links, newIds).Ok?
    ensures var r := E.SavedTunnel(s, t, links, newIds).value;
      && Replaced(s.tunnels, t.id, t.(id := E.Named(t.id, newIds[0])), TunnelId) == Ok(r.tunnels)
      && r.team == s.team && r.settings == s.settings && (links.None? ==> r.services == s.services)
  {
    hide Replaced, Filter, E.Linked, IndexOf;
  }

  lemma ReplacedHas<T>(xs: seq<T>, key: string, value: T, id: T -> string)
    ensures var r := Replaced(xs, key, value, id); r.Ok? ==> value in r.value
  {
    var r := Replaced(xs, key, value, id);
    if r.Ok? {
      assert r.value[if key == "" then |xs| else IndexOf(xs, id, key)] == value;
    }
  }

  // ---------------------------------------------------------------- the address of a master

  /** A master that is already known, by the feed and key it signs with, gets the address of the bundle;
      nothing else of any subscription changes. */
  lemma {:induction false} RegisteredAddress(team: seq<Subscription>, at: nat, source: Source, feed: State, i: nat)
    requires at <= i < |team| && Registered(team, at, source, feed).Ok?
    requires team[i].source.feed == source.feed && team[i].source.publicKey == source.publicKey
    requires forall j :: at <= j < i ==> !(team[j].source.feed == source.feed && team[j].source.publicKey == source.publicKey)
    ensures Registered(team, at, source, feed).value == team[i := team[i].(source := source)]
    decreases i - at
  {
    if at < i { RegisteredAddress(team, at + 1, source, feed, i); }
  }

  /** A master that is not known is followed from now on: every record of its bundle is its own, current,
      and of no other subscription. */
  lemma {:induction false} RegisteredNew(team: seq<Subscription>, at: nat, source: Source, feed: State)
    requires at <= |team| && Registered(team, at, source, feed).Ok?
    requires forall j :: at <= j < |team| ==> !(team[j].source.feed == source.feed && team[j].source.publicKey == source.publicKey)
    ensures Registered(team, at, source, feed).value == team + [Subscription(source, Track(feed), "", "", false)]
    ensures forall j :: at <= j < |team| ==> forall it <- team[j].items :: it !in Track(feed)
    decreases |team| - at
  {
    hide Track;
    if at < |team| { RegisteredNew(team, at + 1, source, feed); }
  }

  /** Installing a bundle: a followed master is stored under the address in the bundle and counts as
      just synchronised; its pause stays, and so does every other subscription. */
  lemma InstalledAddress(s: State, source: Source, feed: State, now: string, i: nat)
    requires i < |s.team| && s.team[i].source.publicKey == source.publicKey
    requires forall j :: 0 <= j < i ==> s.team[j].source.publicKey != source.publicKey
    requires InstallEdit(s, Some(source), feed, now).Ok?
    ensures var team := InstallEdit(s, Some(source), feed, now).value.team;
      && |team| == |s.team| && (forall j :: 0 <= j < |team| && j != i ==> team[j] == s.team[j])
      && team[i] == Subscription(source, team[i].items, now, "", s.team[i].paused)
      && forall it :: it in team[i].items <==> it in s.team[i].items || Holds(feed, it)
  {
    IndexOfAt(s.team, SubKey, i);
    assert IndexOf(s.team, SubKey, source.publicKey) == i;
    hide IndexOf, AdoptKeys, Synced, Accepts, RetargetAll, Localized;
    AdoptedTeam(s, i, feed.keys);
    KeysHold(feed);
  }

  lemma KeysHold(feed: State)
    ensures forall k <- feed.keys :: Holds(feed, Item(Keys, k.id))
  {
    forall k | k in feed.keys ensures Holds(feed, Item(Keys, k.id)) { HasMember(feed.keys, KeyId, k); }
  }

  lemma {:induction false} AdoptedTeam(s: State, i: nat, keys: seq<Key>)
    requires i < |s.team| && AdoptKeys(s, i, keys).Ok?
    ensures var team := AdoptKeys(s, i, keys).value.team;
      && |team| == |s.team| && (forall j :: 0 <= j < |team| && j != i ==> team[j] == s.team[j])
      && team[i] == s.team[i].(items := team[i].items)
      && forall it :: it in team[i].items <==> it in s.team[i].items || exists k <- keys :: it == Item(Keys, k.id)
  {
    hide IndexOf, Synced, Syncable, Has;
    if keys != [] {
      var n := |keys| - 1;
      AdoptedTeam(s, i, keys[..n]);
      assert keys == keys[..n] + [keys[n]];
    }
  }

  /** The first bundle of a master. */
  lemma InstalledNew(s: State, source: Source, feed: State, now: string)
    requires InstallEdit(s, Some(source), feed, now).Ok? && forall sub <- s.team :: sub.source.publicKey != source.publicKey
    ensures InstallEdit(s, Some(source), feed, now).value.team == s.team + [Subscription(source, Track(feed), "", "", false)]
    ensures forall sub <- s.team :: forall it <- sub.items :: !Holds(feed, it)
  {
    hide Track, Joined;
    HasWitness(s.team, SubKey, source.publicKey);
    RegisteredNew(s.team, 0, source, feed);
  }
}
