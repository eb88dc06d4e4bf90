/**
 Ownership over whole runs: as long as no update deletes a shared record locally, every owned item
 has a local record, no item has two owners, and the subscriptions have distinct public keys.
 */
module OwnedRuns {
  import opened Wrappers
  import opened Text
  import opened Records
  import opened Model
  import opened Store
  import E = Editing
  import I = Importer
  import B = Backup
  import opened Sync
  import opened FeedSound
  import opened Bundles
  import opened Ownership
  import T = Team
  import R = TeamRun
  import IC = ImportCommits
  import IS = ImportSound
  import opened References
  import opened Runs

  /** Some subscription owns this item. */
  predicate Shared(s: State, it: Item) {
    exists i :: 0 <= i < |s.team| && it in s.team[i].items
  }

  /** A submitted link stands for the stored one with this id; one without id is new. */
  predicate Mentions(l: Service, id: string) { l.id != "" && l.id == id }

  /** The submitted links of a tunnel still mention every shared link of it. */
  predicate LinksKeepShared(s: State, tunnelId: string, links: seq<Service>) {
    forall v <- s.services :: v.tunnelId == tunnelId && Shared(s, Item(Services, v.id)) ==> exists l <- links :: Mentions(l, v.id)
  }

  /** The edit deletes no shared record. */
  predicate SparesShared(s: State, e: E.Edit) {
    match e
    case DeleteHost(id) => !Shared(s, Item(Hosts, id))
    case DeleteKey(id) => !Shared(s, Item(Keys, id))
    case DeleteTunnel(id, _) =>
      !Shared(s, Item(Tunnels, id)) && forall v <- s.services :: v.tunnelId == id ==> !Shared(s, Item(Services, v.id))
    case DeleteService(id) => !Shared(s, Item(Services, id))
    case SaveTunnel(t, Some(links), _) => LinksKeepShared(s, t.id, links)
    case _ => true
  }

  lemma FilterHas(xs: seq<Service>, p: Service -> bool, other: string)
    requires Unique(xs, ServiceId) && Has(xs, ServiceId, other) && p(Find(xs, ServiceId, other).value)
    ensures Has(Filter(xs, p), ServiceId, other)
  {
    FilterFind(xs, p, ServiceId, other);
  }

  lemma {:induction false} LinkedHas(own: seq<Service>, host: Host, tunnel: Tunnel, links: seq<Service>, newIds: seq<string>, id: string)
    requires |links| <= |newIds| && E.Linked(own, host, tunnel, links, newIds).Ok?
    requires exists l <- links :: Mentions(l, id)
    ensures Has(E.Linked(own, host, tunnel, links, newIds).value, ServiceId, id)
  {
    hide ValidService;
    if links != [] {
      var n := |links| - 1;
      var done := E.Linked(own, host, tunnel, links[..n], newIds).value;
      var v := E.Completed(own, host, tunnel, links[n], newIds[n]).value;
      var l :| l in links && Mentions(l, id);
      assert links == links[..n] + [links[n]];
      IS.HasConcat(done, [v], ServiceId, id);
      if l in links[..n] {
        LinkedHas(own, host, tunnel, links[..n], newIds, id);
      }
    }
  }

  lemma ReplaceLinksHas(s: State, tunnel: Tunnel, links: seq<Service>, newIds: seq<string>, id: string)
    requires UniqueIds(s) && |links| <= |newIds| && E.ReplaceLinks(s, tunnel, links, newIds).Ok?
    requires Has(s.services, ServiceId, id)
    requires Find(s.services, ServiceId, id).value.tunnelId == tunnel.id ==> exists l <- links :: Mentions(l, id)
    ensures Has(E.ReplaceLinks(s, tunnel, links, newIds).value.services, ServiceId, id)
  {
    hide IndexOf, E.Linked, Filter;
    var off := Filter(s.services, E.OffTunnel(tunnel.id));
    var mine := Filter(s.services, E.OfTunnel(tunnel.id));
    var host := Find(s.hosts, HostId, tunnel.hostId).value;
    var own := E.Linked(mine, host, tunnel, links, newIds).value;
    IS.HasConcat(off, own, ServiceId, id);
    if Find(s.services, ServiceId, id).value.tunnelId == tunnel.id {
      LinkedHas(mine, host, tunnel, links, newIds, id);
    } else {
      FilterHas(s.services, E.OffTunnel(tunnel.id), id);
    }
  }

  lemma EditTeam(s: State, e: E.Edit, newIds: seq<string>)
    requires |newIds| >= E.Needs(e) && E.Edited(s, e, newIds).Ok?
    ensures E.Edited(s, e, newIds).value.team == s.team
  {
    hide Replaced, Deleted, Filter, E.Linked, IndexOf;
  }

  lemma SavedTunnelHolds(s: State, t: Tunnel, links: Option<seq<Service>>, newIds: seq<string>, it: Item)
    requires |newIds| >= 2 && (links.Some? ==> |newIds| >= 2 + |links.value|) && newIds[0] != ""
    requires UniqueIds(s) && E.SavedTunnel(s, t, links, newIds).Ok? && Holds(s, it)
    requires FreshIn(s, newIds)
    requires it.kind == Services && links.Some? && Find(s.services, ServiceId, it.id).value.tunnelId == t.id && t.id != "" ==>
      exists l <- links.value :: Mentions(l, it.id)
    requires Valid(s)
    ensures Holds(E.SavedTunnel(s, t, links, newIds).value, it)
  {
    hide IndexOf, Replaced, E.ReplaceLinks, Valid, Unique;
    var v := t.(id := E.Named(t.id, newIds[0]));
    ReplacedHas(s.tunnels, t.id, v, TunnelId, it.id);
    var saved := s.(tunnels := Replaced(s.tunnels, t.id, v, TunnelId).value);
    SavedUnique(s, t, newIds);
    if links.Some? {
      ReplaceLinksOnly(saved, v, links.value, newIds[2..]);
    }
    if links.Some? && it.kind == Services {
      assert Unused(s, newIds[0]);
      NewTunnelUnlinked(s, newIds[0], it.id);
      ReplaceLinksHas(saved, v, links.value, newIds[2..], it.id);
    }
  }

  lemma ReplaceLinksOnly(s: State, tunnel: Tunnel, links: seq<Service>, newIds: seq<string>)
    requires |links| <= |newIds| && E.ReplaceLinks(s, tunnel, links, newIds).Ok?
    ensures var r := E.ReplaceLinks(s, tunnel, links, newIds).value; r == s.(services := r.services)
  {
    hide E.Linked, Filter, IndexOf;
  }

  lemma SavedUnique(s: State, t: Tunnel, newIds: seq<string>)
    requires UniqueIds(s) && |newIds| >= 2 && FreshIn(s, newIds)
    requires Replaced(s.tunnels, t.id, t.(id := E.Named(t.id, newIds[0])), TunnelId).Ok?
    ensures UniqueIds(s.(tunnels := Replaced(s.tunnels, t.id, t.(id := E.Named(t.id, newIds[0])), TunnelId).value))
  {
    assert Unused(s, newIds[0]);
    hide Replaced, IndexOf;
    ReplacedKeeps(s.tunnels, t.id, t.(id := E.Named(t.id, newIds[0])), TunnelId);
  }

  /** No stored link uses a tunnel identifier that no tunnel has. */
  lemma NewTunnelUnlinked(s: State, tunnelId: string, id: string)
    requires Valid(s) && !Has(s.tunnels, TunnelId, tunnelId) && Has(s.services, ServiceId, id)
    ensures Find(s.services, ServiceId, id).value.tunnelId != tunnelId
  {
    hide IndexOf, ValidService;
    HasWitness(s.services, ServiceId, id);
    assert ServiceOk(s.tunnels, Find(s.services, ServiceId, id).value);
  }

  lemma SavedServiceHolds(s: State, v: Service, newTunnel: Option<Tunnel>, newIds: seq<string>, it: Item)
    requires |newIds| >= 2 && E.SavedService(s, v, newTunnel, newIds).Ok? && Holds(s, it)
    ensures Holds(E.SavedService(s, v, newTunnel, newIds).value, it)
  {
    hide IndexOf, Replaced;
    var w := v.(id := E.Named(v.id, newIds[1]), tunnelId := if newTunnel.Some? then newIds[0] else v.tunnelId);
    ReplacedHas(s.services, v.id, w, ServiceId, it.id);
    if newTunnel.Some? {
      IndexOfAppend(s.tunnels, [newTunnel.value.(id := newIds[0], name := v.name + " tunnel", localHost := "127.0.0.1")], TunnelId, it.id);
    }
  }

  lemma SaveHolds(s: State, e: E.Edit, newIds: seq<string>, it: Item)
    requires |newIds| >= E.Needs(e) && Valid(s) && UniqueIds(s) && FreshIn(s, newIds) && E.Edited(s, e, newIds).Ok?
    requires e.SaveHost? || e.SaveKey? || e.SaveTunnel? || e.SaveService? || e.SaveSettings?
    requires SparesShared(s, e) && Shared(s, it) && Holds(s, it)
    ensures Holds(E.Edited(s, e, newIds).value, it)
  {
    assert newIds[0] != "";
    hide IndexOf, Replaced, E.SavedTunnel, E.SavedService, UniqueIds, FreshIn, Valid, Shared;
    match e {
      case SaveHost(h) => ReplacedHas(s.hosts, h.id, h.(id := E.Named(h.id, newIds[0])), HostId, it.id);
      case SaveKey(k, path) => ReplacedHas(s.keys, k.id, k.(id := E.Named(k.id, newIds[0]), path := path.value), KeyId, it.id);
      case SaveTunnel(t, links, active) =>
        if it.kind == Services { HasWitness(s.services, ServiceId, it.id); }
        SavedTunnelHolds(s, t, links, newIds, it);
      case SaveService(v, newTunnel) => SavedServiceHolds(s, v, newTunnel, newIds, it);
      case SaveSettings(settings) =>
    }
  }

  lemma DeleteTunnelHolds(s: State, id: string, newIds: seq<string>, it: Item)
    requires |newIds| >= 2 && UniqueIds(s) && E.Edited(s, E.DeleteTunnel(id, false), newIds).Ok?
    requires SparesShared(s, E.DeleteTunnel(id, false)) && Shared(s, it) && Holds(s, it)
    ensures Holds(E.Edited(s, E.DeleteTunnel(id, false), newIds).value, it)
  {
    hide IndexOf, Deleted, Unique, Filter, Shared;
    DeletedFind(s.tunnels, id, TunnelId, it.id);
    if it.kind == Services {
      HasWitness(s.services, ServiceId, it.id);
      FilterHas(s.services, E.OffTunnel(id), it.id);
    }
  }

  lemma DeleteHolds(s: State, e: E.Edit, newIds: seq<string>, it: Item)
    requires |newIds| >= E.Needs(e) && UniqueIds(s) && E.Edited(s, e, newIds).Ok?
    requires e.DeleteHost? || e.DeleteKey? || e.DeleteService?
    requires SparesShared(s, e) && Shared(s, it) && Holds(s, it)
    ensures Holds(E.Edited(s, e, newIds).value, it)
  {
    hide IndexOf, Deleted, Unique, Shared;
    match e {
      case DeleteHost(id) => DeletedFind(s.hosts, id, HostId, it.id);
      case DeleteKey(id) => DeletedFind(s.keys, id, KeyId, it.id);
      case DeleteService(id) => DeletedFind(s.services, id, ServiceId, it.id);
    }
  }

  /** An edit that spares shared records keeps every shared record stored. */
  lemma EditHolds(s: State, e: E.Edit, newIds: seq<string>, it: Item)
    requires |newIds| >= E.Needs(e) && Valid(s) && UniqueIds(s) && FreshIn(s, newIds) && E.Edited(s, e, newIds).Ok?
    requires SparesShared(s, e) && Shared(s, it) && Holds(s, it)
    ensures Holds(E.Edited(s, e, newIds).value, it)
  {
    hide SparesShared, Shared, Holds, UniqueIds, FreshIn, Valid, E.SavedTunnel, E.SavedService, Replaced, Deleted, Filter;
    if e.DeleteHost? || e.DeleteKey? || e.DeleteService? {
      DeleteHolds(s, e, newIds, it);
    } else if e.DeleteTunnel? {
      DeleteTunnelHolds(s, e.id, newIds, it);
    } else {
      SaveHolds(s, e, newIds, it);
    }
  }

  /** A link of the tunnel that is not submitted again is gone afterwards. */
  lemma DroppedLink(s: State, tunnel: Tunnel, links: seq<Service>, newIds: seq<string>, v: Service)
    requires UniqueIds(s) && |links| <= |newIds| && E.ReplaceLinks(s, tunnel, links, newIds).Ok?
    requires v in s.services && v.tunnelId == tunnel.id && forall l <- links :: !Mentions(l, v.id)
    requires forall i :: 0 <= i < |newIds| ==> newIds[i] != v.id
    ensures !Has(E.ReplaceLinks(s, tunnel, links, newIds).value.services, ServiceId, v.id)
  {
    hide IndexOf, E.Linked, Filter;
    var off := Filter(s.services, E.OffTunnel(tunnel.id));
    var mine := Filter(s.services, E.OfTunnel(tunnel.id));
    var host := Find(s.hosts, HostId, tunnel.hostId).value;
    var own := E.Linked(mine, host, tunnel, links, newIds).value;
    FindMember(s.services, ServiceId, v);
    FilterFind(s.services, E.OffTunnel(tunnel.id), ServiceId, v.id);
    LinkedFrom(mine, host, tunnel, links, newIds, v.id);
    IS.HasConcat(off, own, ServiceId, v.id);
  }

  lemma {:induction false} LinkedFrom(own: seq<Service>, host: Host, tunnel: Tunnel, links: seq<Service>, newIds: seq<string>, id: string)
    requires |links| <= |newIds| && E.Linked(own, host, tunnel, links, newIds).Ok?
    requires (forall l <- links :: !Mentions(l, id)) && forall i :: 0 <= i < |newIds| ==> newIds[i] != id
    ensures !Has(E.Linked(own, host, tunnel, links, newIds).value, ServiceId, id)
  {
    hide ValidService;
    if links != [] {
      var n := |links| - 1;
      assert links == links[..n] + [links[n]];
      assert links[n] in links && !Mentions(links[n], id);
      LinkedFrom(own, host, tunnel, links[..n], newIds, id);
      var v := E.Completed(own, host, tunnel, links[n], newIds[n]).value;
      IS.HasConcat(E.Linked(own, host, tunnel, links[..n], newIds).value, [v], ServiceId, id);
    }
  }

  lemma LostLink(s: State, t: Tunnel, links: seq<Service>, newIds: seq<string>) returns (it: Item)
    requires |newIds| >= 2 + |links| && UniqueIds(s) && FreshIn(s, newIds)
    requires E.SavedTunnel(s, t, Some(links), newIds).Ok? && !LinksKeepShared(s, t.id, links) && Valid(s)
    ensures Shared(s, it) && !Holds(E.SavedTunnel(s, t, Some(links), newIds).value, it)
  {
    hide IndexOf, Replaced, E.ReplaceLinks, Valid, Unique, Shared, NonEmptyIds;
    var w :| w in s.services && w.tunnelId == t.id && Shared(s, Item(Services, w.id)) && forall l <- links :: !Mentions(l, w.id);
    it := Item(Services, w.id);
    var v := t.(id := E.Named(t.id, newIds[0]));
    SavedUnique(s, t, newIds);
    var saved := s.(tunnels := Replaced(s.tunnels, t.id, v, TunnelId).value);
    HasMember(s.services, ServiceId, w);
    TunnelNamed(s, w);
    forall i | 0 <= i < |newIds[2..]| ensures newIds[2..][i] != w.id {
      assert Unused(s, newIds[i + 2]);
    }
    DroppedLink(saved, v, links, newIds[2..], w);
  }

  lemma TunnelNamed(s: State, w: Service)
    requires Valid(s) && w in s.services
    ensures w.tunnelId != ""
  {
    assert ServiceOk(s.tunnels, w);
    hide IndexOf, Name, LocalUrl;
  }

  lemma LostByDelete<T>(xs: seq<T>, key: string, id: T -> string)
    requires Unique(xs, id) && Deleted(xs, key, id).Ok?
    ensures !Has(Deleted(xs, key, id).value, id, key)
  {
    DeletedFind(xs, key, id, key);
    hide Deleted, Unique;
  }

  /** An edit that does not spare shared records loses one. */
  lemma SharedLost(s: State, e: E.Edit, newIds: seq<string>) returns (it: Item)
    requires |newIds| >= E.Needs(e) && Valid(s) && UniqueIds(s) && FreshIn(s, newIds) && E.Edited(s, e, newIds).Ok?
    requires !SparesShared(s, e)
    ensures Shared(s, it) && !Holds(E.Edited(s, e, newIds).value, it)
  {
    hide IndexOf, Replaced, Deleted, E.SavedTunnel, E.SavedService, Unique, NonEmptyIds, Filter, FreshIn, Valid, Shared, LinksKeepShared;
    match e {
      case DeleteHost(id) => it := Item(Hosts, id); LostByDelete(s.hosts, id, HostId);
      case DeleteKey(id) => it := Item(Keys, id); LostByDelete(s.keys, id, KeyId);
      case DeleteService(id) => it := Item(Services, id); LostByDelete(s.services, id, ServiceId);
      case DeleteTunnel(id, active) =>
        if Shared(s, Item(Tunnels, id)) {
          it := Item(Tunnels, id);
          LostByDelete(s.tunnels, id, TunnelId);
        } else {
          var v :| v in s.services && v.tunnelId == id && Shared(s, Item(Services, v.id));
          it := Item(Services, v.id);
          FindMember(s.services, ServiceId, v);
          FilterFind(s.services, E.OffTunnel(id), ServiceId, v.id);
        }
      case SaveTunnel(t, links, active) => it := LostLink(s, t, links.value, newIds);
    }
  }

  // ---------------------------------------------------------------- all updates

  lemma SameTeamOwned(s: State, r: State)
    requires Owned(s) && r.team == s.team
    requires forall it :: Shared(s, it) && Holds(s, it) ==> Holds(r, it)
    ensures Owned(r)
  {
    hide Holds;
    forall i, it | 0 <= i < |r.team| && it in r.team[i].items ensures Holds(r, it) {
      assert Shared(s, it);
    }
  }

  /** A local edit keeps ownership exactly when it deletes no shared record. */
  lemma EditOwnership(s: State, e: E.Edit, newIds: seq<string>)
    requires |newIds| >= E.Needs(e) && Valid(s) && UniqueIds(s) && Owned(s) && FreshIn(s, newIds) && E.Edited(s, e, newIds).Ok?
    ensures Owned(E.Edited(s, e, newIds).value) <==> SparesShared(s, e)
  {
    var r := E.Edited(s, e, newIds).value;
    EditTeam(s, e, newIds);
    hide Valid, UniqueIds, FreshIn, E.Edited, SparesShared, Holds;
    if SparesShared(s, e) {
      forall it | Shared(s, it) && Holds(s, it) ensures Holds(r, it) { EditHolds(s, e, newIds, it); }
      SameTeamOwned(s, r);
    } else {
      var it := SharedLost(s, e, newIds);
    }
  }

  /** Deleting a shared link is always committed, and breaks ownership. */
  lemma DeletedSharedLink(s: State, id: string, newIds: seq<string>)
    requires Valid(s) && UniqueIds(s) && Owned(s) && Has(s.services, ServiceId, id) && Shared(s, Item(Services, id))
    requires |newIds| >= 2 && FreshIn(s, newIds)
    ensures var a := Change(E.DeleteService(id), newIds);
      Supplied(a) && Commits(s, a) && !Owned(Perform(s, a))
  {
    var a := Change(E.DeleteService(id), newIds);
    hide HostOk, TunnelOk, ServiceOk, ValidKey, IndexOf, Unique, Owned, Shared, FreshIn;
    forall v ensures v in Deleted(s.services, id, ServiceId).value ==> v in s.services {
      DeletedMembers(s.services, id, ServiceId, v);
    }
    assert Commits(s, a);
    hide Valid;
    EditOwnership(s, E.DeleteService(id), newIds);
  }

  /** Such a configuration: one subscription that shares a link, its tunnel, its host and its key. */
  lemma SharedLinkLost(k: Key, h: Host, t: Tunnel, v: Service, source: Source, newIds: seq<string>)
    requires ValidKey(k) && ValidHost(h) && ValidTunnel(t) && ValidService(v, t)
    requires h.keyId == k.id && h.jumpId == "" && h.id != "" && t.hostId == h.id && v.tunnelId == t.id
    requires |newIds| == 2 && newIds[0] != newIds[1]
    requires forall id <- newIds :: id != "" && id != k.id && id != h.id && id != t.id && id != v.id
    ensures var feed := EMPTY.(keys := [k], hosts := [h], tunnels := [t], services := [v]);
      var s := feed.(team := [Subscription(source, Track(feed), "", "", false)]);
      var a := Change(E.DeleteService(v.id), newIds);
      Valid(s) && Owned(s) && Supplied(a) && Commits(s, a) && !Owned(Perform(s, a))
  {
    var feed := EMPTY.(keys := [k], hosts := [h], tunnels := [t], services := [v]);
    var s := feed.(team := [Subscription(source, Track(feed), "", "", false)]);
    hide *;
    OneRecordEach(k, h, t, v, s);
    OneSubscription(s, feed);
    OneLinkShared(s, feed, v);
    UnusedByAll(k, h, t, v, s, newIds);
    DeletedSharedLink(s, v.id, newIds);
  }

  lemma OneLinkShared(s: State, feed: State, v: Service)
    requires |s.team| == 1 && s.team[0].items == Track(feed) && feed.services == s.services == [v]
    ensures Shared(s, Item(Services, v.id)) && Has(s.services, ServiceId, v.id)
  {
    HasMember(feed.services, ServiceId, v);
    hide Track;
    assert Item(Services, v.id) in s.team[0].items;
  }

  lemma UnusedByAll(k: Key, h: Host, t: Tunnel, v: Service, s: State, newIds: seq<string>)
    requires s.keys == [k] && s.hosts == [h] && s.tunnels == [t] && s.services == [v]
    requires |newIds| == 2 && newIds[0] != newIds[1]
    requires forall id <- newIds :: id != "" && id != k.id && id != h.id && id != t.id && id != v.id
    ensures FreshIn(s, newIds)
  {
    forall i | 0 <= i < 2 ensures newIds[i] != "" && Unused(s, newIds[i]) {
      assert newIds[i] in newIds;
    }
    hide Unused;
  }

  lemma DirectRoute(h: Host)
    requires h.jumpId == "" && h.id != ""
    ensures Route([h], h.id).Some?
  {
    assert Find([h], HostId, h.id) == Some(h);
    assert Walk([h], h.jumpId, MAX_HOPS - 1) == Some([]);
  }

  lemma OneRecordEach(k: Key, h: Host, t: Tunnel, v: Service, s: State)
    requires ValidKey(k) && ValidHost(h) && ValidTunnel(t) && ValidService(v, t)
    requires h.keyId == k.id && h.jumpId == "" && h.id != "" && t.hostId == h.id && v.tunnelId == t.id
    requires s.keys == [k] && s.hosts == [h] && s.tunnels == [t] && s.services == [v]
    ensures Valid(s) && UniqueIds(s)
  {
    hide ValidKey, ValidHost, ValidTunnel, ValidService;
    DirectRoute(h);
  }

  lemma OneSubscription(s: State, feed: State)
    requires |s.team| == 1 && s.team[0].items == Track(feed) && s == feed.(team := s.team)
    ensures Owned(s)
  {
    hide Track, IndexOf;
    TeamIrrelevant(feed, s.team);
  }

  lemma BackupHolds(s: State, file: B.File, withSettings: bool, pathOk: B.PathTest, it: Item)
    requires B.Import(s, file, withSettings, pathOk).Ok? && Holds(s, it)
    ensures Holds(B.Import(s, file, withSettings, pathOk).value.0, it) && B.Import(s, file, withSettings, pathOk).value.0.team == s.team
  {
    hide Valid, IndexOf, B.AllMergeable, Additions;
    var r := B.Import(s, file, withSettings, pathOk).value.0;
    IC.FindKept(s.hosts, r.hosts, HostId, it.id);
    IC.FindKept(s.keys, r.keys, KeyId, it.id);
    IC.FindKept(s.tunnels, r.tunnels, TunnelId, it.id);
    IC.FindKept(s.services, r.services, ServiceId, it.id);
  }

  lemma ImportHolds(s: State, cands: seq<I.Candidate>, chosen: set<string>, files: I.Files, newIds: seq<string>, it: Item)
    requires 2 * |cands| <= |newIds| && I.ApplySelected(s, cands, chosen, files, newIds).Ok? && Holds(s, it)
    ensures var r := I.ApplySelected(s, cands, chosen, files, newIds).value; Holds(r, it) && r.team == s.team
  {
    var t := I.AddAll(s, cands, chosen, files, newIds).value;
    AddAllGrowsBy(s, cands, chosen, files, newIds);
    hide I.AddAll, I.LinkAll, I.Demands, I.AllFound, I.HopsKnown, IndexOf;
    I.LinkAllSame(t.hosts, |s.hosts|, I.Demands(cands, chosen));
    var linked := I.LinkAll(t.hosts, |s.hosts|, I.Demands(cands, chosen)).value;
    IC.FindKept(s.hosts, t.hosts, HostId, it.id);
    IC.FindKept(s.keys, t.keys, KeyId, it.id);
    assert forall i :: 0 <= i < |t.hosts| ==> HostId(linked[i]) == HostId(t.hosts[i]);
    SameIndex(t.hosts, linked, HostId, it.id);
  }

  lemma QuietOwned(a: State, b: State)
    requires R.Quiet(a, b) && Owned(a)
    ensures Owned(b)
  {
    hide IndexOf;
    forall it ensures Holds(b, it) <==> Holds(a, it) {}
    forall i, j | 0 <= i < j < |b.team| ensures SubKey(b.team[i]) != SubKey(b.team[j]) {
      assert SubKey(a.team[i]) != SubKey(a.team[j]);
    }
  }

  lemma FollowOwned(s: State, step: T.Step)
    requires Valid(s) && UniqueIds(s) && R.Verified(step) && Owned(s)
    ensures Owned(T.Next(s, step))
  {
    hide Valid, UniqueIds, Owned, T.Next, T.PollCommits, Applied, T.Target;
    if R.CommitsFeed(s, step) {
      R.ApplyStep(s, step);
      FeedKeepsOwnership(s, T.Target(s.team, step.source), step.fetch.feed, step.now);
    } else {
      R.OnlyStatusChanges(s, step);
      QuietOwned(s, T.Next(s, step));
    }
  }

  /** The update, if it is committed, deletes no shared record. */
  predicate Spares(s: State, a: Action)
    requires Supplied(a)
  {
    a.Change? && Commits(s, a) ==> SparesShared(s, a.edit)
  }

  /** One update keeps ownership disjoint and backed by records exactly when it is rejected or spares
      shared records. */
  lemma PerformKeepsOwnership(s: State, a: Action)
    requires Supplied(a) && FreshFor(s, a) && Valid(s) && UniqueIds(s) && Owned(s)
    ensures Owned(Perform(s, a)) <==> Spares(s, a)
  {
    hide Valid, UniqueIds, NamedIds, Owned, E.Edited, I.ApplySelected, B.Import, InstallEdit, T.Next, FreshIn, SparesShared, Holds, Shared;
    match a {
      case Change(e, ids) =>
        if E.Edited(s, e, ids).Ok? { EditOwnership(s, e, ids); }
      case ImportHosts(cands, chosen, files, ids) =>
        if I.ApplySelected(s, cands, chosen, files, ids).Ok? {
          var r := I.ApplySelected(s, cands, chosen, files, ids).value;
          ImportTeam(s, cands, chosen, files, ids);
          forall it | Shared(s, it) && Holds(s, it) ensures Holds(r, it) { ImportHolds(s, cands, chosen, files, ids, it); }
          SameTeamOwned(s, r);
        }
      case ImportBackup(file, withSettings, pathOk) =>
        if B.Import(s, file, withSettings, pathOk).Ok? {
          var r := B.Import(s, file, withSettings, pathOk).value.0;
          BackupTeam(s, file, withSettings, pathOk);
          forall it | Shared(s, it) && Holds(s, it) ensures Holds(r, it) { BackupHolds(s, file, withSettings, pathOk, it); }
          SameTeamOwned(s, r);
        }
      case InstallBundle(source, feed, now) =>
        if InstallEdit(s, source, feed, now).Ok? { InstallKeepsOwnership(s, source, feed, now); }
      case Follow(step) => FollowOwned(s, step);
    }
  }

  lemma ImportTeam(s: State, cands: seq<I.Candidate>, chosen: set<string>, files: I.Files, newIds: seq<string>)
    requires 2 * |cands| <= |newIds| && I.ApplySelected(s, cands, chosen, files, newIds).Ok?
    ensures I.ApplySelected(s, cands, chosen, files, newIds).value.team == s.team
  {
    AddAllGrowsBy(s, cands, chosen, files, newIds);
    hide I.AddAll, I.LinkAll, I.Demands, I.AllFound, I.HopsKnown;
  }

  lemma BackupTeam(s: State, file: B.File, withSettings: bool, pathOk: B.PathTest)
    requires B.Import(s, file, withSettings, pathOk).Ok?
    ensures B.Import(s, file, withSettings, pathOk).value.0.team == s.team
  {
    hide Valid, B.AllMergeable, Additions, B.Extended;
  }

  // ---------------------------------------------------------------- runs

  /** No committed update of the run deleted a shared record. */
  predicate AllKeep(actions: seq<Action>)
    requires AllSupplied(actions)
  {
    actions == [] || (AllKeep(actions[..|actions| - 1]) && Spares(Run(actions[..|actions| - 1]), actions[|actions| - 1]))
  }

  /** Ownership is disjoint and backed by records at every point of the run. */
  ghost predicate AlwaysOwned(actions: seq<Action>)
    requires AllSupplied(actions)
  {
    forall n :: 0 <= n <= |actions| ==> Owned(Run(actions[..n]))
  }

  lemma OwnedStep(actions: seq<Action>)
    requires AllSupplied(actions) && actions != []
    ensures AlwaysOwned(actions) <==> AlwaysOwned(actions[..|actions| - 1]) && Owned(Run(actions))
  {
    hide Supplied, Owned, Run;
    var before := actions[..|actions| - 1];
    forall n | 0 <= n <= |before| ensures before[..n] == actions[..n] {}
    assert actions[..|actions|] == actions;
    if AlwaysOwned(actions) {
      forall n | 0 <= n <= |before| ensures Owned(Run(before[..n])) {
        assert Owned(Run(actions[..n]));
      }
    }
    if AlwaysOwned(before) && Owned(Run(actions)) {
      forall n | 0 <= n <= |actions| ensures Owned(Run(actions[..n])) {
        if n < |actions| { assert Owned(Run(before[..n])); }
      }
    }
  }

  lemma OwnedNow(actions: seq<Action>)
    requires AllSupplied(actions) && AlwaysOwned(actions)
    ensures Owned(Run(actions))
  {
    hide Supplied, Owned, Run;
    assert actions[..|actions|] == actions;
  }

  lemma EmptyOwned()
    ensures AlwaysOwned([])
  {
  }

  /** Ownership over whole runs from the empty store: owned items are stored, have one owner, and public
      keys are distinct throughout, exactly when no committed update deleted a shared record. */
  lemma {:induction false} RunKeepsOwnership(actions: seq<Action>)
    requires AllSupplied(actions) && AllFresh(actions)
    ensures AlwaysOwned(actions) <==> AllKeep(actions)
  {
    hide Valid, UniqueIds, NamedIds, Perform, Supplied, FreshFor, NamesIds, Resolved, Owned, Spares, AlwaysOwned;
    if actions == [] {
      EmptyOwned();
    } else {
      var before, a := actions[..|actions| - 1], actions[|actions| - 1];
      RunKeepsOwnership(before);
      RunKeepsStore(before);
      OwnedStep(actions);
      if AlwaysOwned(before) {
        OwnedNow(before);
        PerformKeepsOwnership(Run(before), a);
      }
    }
  }
}
