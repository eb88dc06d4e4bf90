/**
 Whole runs of the store: edits, imports, backup merges, installed bundles and team steps in any
 order. Identifiers stay unique in every collection although no commit checks it, and it is said
 exactly which updates leave a reference dangling.
 */
module Runs {
  import opened Wrappers
  import opened Text
  import opened Records
  import opened Model
  import opened Store
  import E = Editing
  import I = Importer
  import B = Backup
  import opened Sync
  import opened FeedSound
  import opened Bundles
  import opened Ownership
  import T = Team
  import R = TeamRun
  import IS = ImportSound
  import opened References

  /** Generated identifiers that no record uses yet. */
  predicate FreshIn(s: State, ids: seq<string>) {
    && (forall i :: 0 <= i < |ids| ==> ids[i] != "" && Unused(s, ids[i]))
    && (forall i, j :: 0 <= i < j < |ids| ==> ids[i] != ids[j])
  }

  predicate Unused(s: State, id: string) {
    !Has(s.hosts, HostId, id) && !Has(s.keys, KeyId, id) && !Has(s.tunnels, TunnelId, id) && !Has(s.services, ServiceId, id)
  }

  // ---------------------------------------------------------------- edits

  lemma ReplacedKeeps<T>(xs: seq<T>, key: string, value: T, id: T -> string)
    requires Unique(xs, id) && Replaced(xs, key, value, id).Ok?
    requires key == "" ==> !Has(xs, id, id(value))
    requires key != "" ==> id(value) == key
    requires id(value) != ""
    ensures var r := Replaced(xs, key, value, id).value;
      Unique(r, id) && (NonEmptyIds(xs, id) ==> NonEmptyIds(r, id))
  {
    ReplacedUnique(xs, key, value, id);
  }

  lemma DeletedKeeps<T>(xs: seq<T>, key: string, id: T -> string)
    requires Unique(xs, id) && Deleted(xs, key, id).Ok?
    ensures Unique(Deleted(xs, key, id).value, id) && (NonEmptyIds(xs, id) ==> NonEmptyIds(Deleted(xs, key, id).value, id))
  {
    DeletedFind(xs, key, id, key);
    hide Unique;
  }

  lemma FilterKeeps<T>(xs: seq<T>, p: T -> bool, id: T -> string)
    requires Unique(xs, id)
    ensures Unique(Filter(xs, p), id) && (NonEmptyIds(xs, id) ==> NonEmptyIds(Filter(xs, p), id))
  {
    FilterUnique(xs, p, id);
    FilterMembers(xs, p);
    if NonEmptyIds(xs, id) {
      var f := Filter(xs, p);
      forall i | 0 <= i < |f| ensures id(f[i]) != "" {
        assert f[i] in xs;
        var j :| 0 <= j < |xs| && xs[j] == f[i];
      }
    }
  }

  lemma ConcatUnique<T>(xs: seq<T>, ys: seq<T>, id: T -> string)
    requires Unique(xs, id) && Unique(ys, id) && forall x <- xs, y <- ys :: id(x) != id(y)
    ensures Unique(xs + ys, id)
    ensures NonEmptyIds(xs, id) && NonEmptyIds(ys, id) ==> NonEmptyIds(xs + ys, id)
  {
    var zs := xs + ys;
    forall i, j | 0 <= i < j < |zs| ensures id(zs[i]) != id(zs[j]) {
      if i < |xs| <= j {
        assert zs[i] in xs && zs[j] in ys;
      }
    }
  }

  /** Replaced links keep their identifiers or get new ones, all different. */
  lemma {:induction false} LinkedUnique(own: seq<Service>, host: Host, tunnel: Tunnel, links: seq<Service>, newIds: seq<string>)
    requires |links| <= |newIds| && E.Linked(own, host, tunnel, links, newIds).Ok?
    requires forall i :: 0 <= i < |newIds| ==> newIds[i] != "" && !Has(own, ServiceId, newIds[i])
    requires forall i, j :: 0 <= i < j < |newIds| ==> newIds[i] != newIds[j]
    ensures var r := E.Linked(own, host, tunnel, links, newIds).value;
      && Unique(r, ServiceId) && NonEmptyIds(r, ServiceId)
      && (forall v <- r :: Has(own, ServiceId, v.id) || v.id in newIds[..|links|])
  {
    hide ValidService, IndexOf;
    if links != [] {
      var n := |links| - 1;
      LinkedUnique(own, host, tunnel, links[..n], newIds);
      var done := E.Linked(own, host, tunnel, links[..n], newIds).value;
      var v := E.Completed(own, host, tunnel, links[n], newIds[n]).value;
      FindLastHas(own, ServiceId, links[n].id);
      assert newIds[..n + 1] == newIds[..n] + [newIds[n]];
      HasWitness(done, ServiceId, v.id);
      AppendUnique(done, ServiceId, v);
    }
  }

  lemma ReplaceLinksKeeps(s: State, tunnel: Tunnel, links: seq<Service>, newIds: seq<string>)
    requires UniqueIds(s) && |links| <= |newIds| && E.ReplaceLinks(s, tunnel, links, newIds).Ok?
    requires forall i :: 0 <= i < |newIds| ==> newIds[i] != "" && !Has(s.services, ServiceId, newIds[i])
    requires forall i, j :: 0 <= i < j < |newIds| ==> newIds[i] != newIds[j]
    ensures var r := E.ReplaceLinks(s, tunnel, links, newIds).value;
      && r == s.(services := r.services) && UniqueIds(r) && (NamedIds(s) ==> NamedIds(r))
  {
    hide IndexOf, ValidService, E.Linked, Filter;
    var mine, off := Filter(s.services, E.OfTunnel(tunnel.id)), Filter(s.services, E.OffTunnel(tunnel.id));
    var host := Find(s.hosts, HostId, tunnel.hostId).value;
    FilterKeeps(s.services, E.OffTunnel(tunnel.id), ServiceId);
    FilterMembers(s.services, E.OfTunnel(tunnel.id));
    FilterMembers(s.services, E.OffTunnel(tunnel.id));
    forall i | 0 <= i < |newIds| ensures !Has(mine, ServiceId, newIds[i]) {
      NotInFilter(s.services, mine, newIds[i]);
    }
    LinkedUnique(mine, host, tunnel, links, newIds);
    var own := E.Linked(mine, host, tunnel, links, newIds).value;
    forall x, y | x in off && y in own ensures ServiceId(x) != ServiceId(y) {
      OffDiffers(s.services, mine, tunnel.id, newIds, x, y.id);
    }
    ConcatUnique(off, own, ServiceId);
  }

  lemma NotInFilter(all: seq<Service>, some: seq<Service>, id: string)
    requires !Has(all, ServiceId, id) && forall v <- some :: v in all
    ensures !Has(some, ServiceId, id)
  {
    HasWitness(some, ServiceId, id);
    if Has(some, ServiceId, id) {
      HasMember(all, ServiceId, Find(some, ServiceId, id).value);
    }
  }

  lemma OffDiffers(all: seq<Service>, mine: seq<Service>, tunnelId: string, newIds: seq<string>, x: Service, id: string)
    requires Unique(all, ServiceId) && x in all && x.tunnelId != tunnelId
    requires forall v <- mine :: v in all && v.tunnelId == tunnelId
    requires forall i :: 0 <= i < |newIds| ==> !Has(all, ServiceId, newIds[i])
    requires Has(mine, ServiceId, id) || id in newIds
    ensures x.id != id
  {
    HasMember(all, ServiceId, x);
    HasWitness(mine, ServiceId, id);
    if Has(mine, ServiceId, id) {
      var v := Find(mine, ServiceId, id).value;
      FindMember(all, ServiceId, x);
      FindMember(all, ServiceId, v);
    }
  }

  lemma SavedTunnelKeeps(s: State, t: Tunnel, links: Option<seq<Service>>, newIds: seq<string>)
    requires |newIds| >= 2 && (links.Some? ==> |newIds| >= 2 + |links.value|)
    requires UniqueIds(s) && FreshIn(s, newIds) && E.SavedTunnel(s, t, links, newIds).Ok?
    ensures var r := E.SavedTunnel(s, t, links, newIds).value; UniqueIds(r) && (NamedIds(s) ==> NamedIds(r))
  {
    hide IndexOf, Replaced, E.ReplaceLinks;
    var v := t.(id := E.Named(t.id, newIds[0]));
    assert Unused(s, newIds[0]);
    ReplacedKeeps(s.tunnels, t.id, v, TunnelId);
    var saved := s.(tunnels := Replaced(s.tunnels, t.id, v, TunnelId).value);
    if links.Some? {
      forall i | 0 <= i < |newIds[2..]| ensures newIds[2..][i] != "" && !Has(saved.services, ServiceId, newIds[2..][i]) {
        assert Unused(s, newIds[i + 2]);
      }
      ReplaceLinksKeeps(saved, v, links.value, newIds[2..]);
    }
  }

  lemma SavedServiceKeeps(s: State, v: Service, newTunnel: Option<Tunnel>, newIds: seq<string>)
    requires |newIds| >= 2 && UniqueIds(s) && FreshIn(s, newIds) && E.SavedService(s, v, newTunnel, newIds).Ok?
    ensures var r := E.SavedService(s, v, newTunnel, newIds).value; UniqueIds(r) && (NamedIds(s) ==> NamedIds(r))
  {
    hide IndexOf, Replaced;
    assert Unused(s, newIds[0]) && Unused(s, newIds[1]);
    var w := v.(id := E.Named(v.id, newIds[1]), tunnelId := if newTunnel.Some? then newIds[0] else v.tunnelId);
    ReplacedKeeps(s.services, v.id, w, ServiceId);
    if newTunnel.Some? {
      AppendUnique(s.tunnels, TunnelId, newTunnel.value.(id := newIds[0], name := v.name + " tunnel", localHost := "127.0.0.1"));
    }
  }

  lemma EditKeeps(s: State, e: E.Edit, newIds: seq<string>)
    requires |newIds| >= E.Needs(e) && UniqueIds(s) && FreshIn(s, newIds) && E.Edited(s, e, newIds).Ok?
    ensures var r := E.Edited(s, e, newIds).value; UniqueIds(r) && (NamedIds(s) ==> NamedIds(r))
  {
    assert Unused(s, newIds[0]);
    hide IndexOf, Replaced, Deleted, E.SavedTunnel, E.SavedService, Unique, NonEmptyIds, Filter, FreshIn;
    match e {
      case SaveHost(h) => ReplacedKeeps(s.hosts, h.id, h.(id := E.Named(h.id, newIds[0])), HostId);
      case SaveKey(k, path) => ReplacedKeeps(s.keys, k.id, k.(id := E.Named(k.id, newIds[0]), path := path.value), KeyId);
      case SaveTunnel(t, links, active) => SavedTunnelKeeps(s, t, links, newIds);
      case SaveService(v, newTunnel) => SavedServiceKeeps(s, v, newTunnel, newIds);
      case SaveSettings(settings) =>
      case DeleteHost(id) => DeletedKeeps(s.hosts, id, HostId);
      case DeleteKey(id) => DeletedKeeps(s.keys, id, KeyId);
      case DeleteTunnel(id, active) =>
        DeletedKeeps(s.tunnels, id, TunnelId);
        FilterKeeps(s.services, E.OffTunnel(id), ServiceId);
      case DeleteService(id) => DeletedKeeps(s.services, id, ServiceId);
    }
  }

  // ---------------------------------------------------------------- merges

  lemma BackupKeeps(s: State, file: B.File, withSettings: bool, pathOk: B.PathTest)
    requires UniqueIds(s) && B.Import(s, file, withSettings, pathOk).Ok?
    ensures var r := B.Import(s, file, withSettings, pathOk).value.0; UniqueIds(r) && (NamedIds(s) ==> NamedIds(r))
  {
    hide Valid, IndexOf, B.Extended, GoodId;
    MergeKeeps(s.hosts, file.hosts, HostId);
    MergeKeeps(s.keys, file.keys, KeyId);
    MergeKeeps(s.tunnels, file.tunnels, TunnelId);
    MergeKeeps(s.services, file.services, ServiceId);
  }

  lemma MergeKeeps<T>(stored: seq<T>, incoming: seq<T>, id: T -> string)
    requires Unique(stored, id) && B.Mergeable(stored, incoming, id)
    ensures var r := B.Extended(stored, incoming, id); Unique(r, id) && (NonEmptyIds(stored, id) ==> NonEmptyIds(r, id))
  {
    B.ExtendedUnique(stored, incoming, id);
    if NonEmptyIds(stored, id) {
      var r := B.Extended(stored, incoming, id);
      hide B.Extended, FindLast;
      forall i | 0 <= i < |r| ensures id(r[i]) != "" {
        assert r[i] in r;
        if r[i] in stored {
          var j :| 0 <= j < |stored| && stored[j] == r[i];
        } else {
          var j :| 0 <= j < |incoming| && incoming[j] == r[i];
          assert GoodId(id(incoming[j]));
        }
      }
    }
  }

  lemma JoinKeeps(s: State, feed: State)
    requires UniqueIds(s) && JoinAll(s, feed).Ok?
    ensures var r := JoinAll(s, feed).value; UniqueIds(r) && (NamedIds(s) ==> (NamedIds(r) <==> NamedIds(feed)))
  {
    hide Joined, Unique, NonEmptyIds, FindLast;
    JoinUnique(s.hosts, feed.hosts, HostId);
    JoinUnique(s.keys, feed.keys, KeyId);
    JoinUnique(s.tunnels, feed.tunnels, TunnelId);
    JoinUnique(s.services, feed.services, ServiceId);
  }

  lemma JoinUnique<T>(stored: seq<T>, incoming: seq<T>, id: T -> string)
    requires Unique(stored, id) && Joined(stored, incoming, id).Ok?
    ensures var r := Joined(stored, incoming, id).value;
      Unique(r, id) && (NonEmptyIds(stored, id) ==> (NonEmptyIds(r, id) <==> NonEmptyIds(incoming, id)))
  {
    JoinedMeaning(stored, incoming, id);
    if NonEmptyIds(stored, id) {
      JoinedIds(stored, incoming, id);
    }
  }

  lemma AdoptKeyKeeps(s: State, index: nat, k: Key)
    requires index < |s.team| && UniqueIds(s) && AdoptKey(s, index, k).Ok?
    ensures var r := AdoptKey(s, index, k).value; UniqueIds(r) && (NamedIds(s) ==> NamedIds(r))
  {
    hide IndexOf, Synced, GoodId;
    OneUnique([k], KeyId);
    SyncedUnique(s.keys, [k], KeyId);
    SyncedNonEmpty(s.keys, [k], KeyId);
    assert GoodId(KeyId([k][0]));
    GoodNonEmpty(k.id);
  }

  lemma {:induction false} AdoptKeysKeep(s: State, index: nat, keys: seq<Key>)
    requires index < |s.team| && UniqueIds(s) && AdoptKeys(s, index, keys).Ok?
    ensures var r := AdoptKeys(s, index, keys).value; UniqueIds(r) && (NamedIds(s) ==> NamedIds(r))
  {
    hide AdoptKey, UniqueIds, NamedIds;
    if keys != [] {
      var n := |keys| - 1;
      AdoptKeysKeep(s, index, keys[..n]);
      AdoptKeyKeeps(AdoptKeys(s, index, keys[..n]).value, index, keys[n]);
    }
  }

  lemma RefollowKeeps(s: State, index: nat, source: Source, feed: State, now: string)
    requires index < |s.team| && UniqueIds(s) && Refollow(s, index, source, feed, now).Ok?
    ensures var r := Refollow(s, index, source, feed, now).value; UniqueIds(r) && (NamedIds(s) ==> NamedIds(r))
  {
    hide AdoptKeys, Accepts, Applied;
    AdoptKeysKeep(s, index, feed.keys);
    var adopted := AdoptKeys(s, index, feed.keys).value;
    var ready := adopted.(team := adopted.team[index := adopted.team[index].(source := source)]);
    assert UniqueIds(ready) && (NamedIds(s) ==> NamedIds(ready));
    hide UniqueIds, NamedIds;
    FeedKeepsIds(ready, index, feed, now);
  }

  /** This bundle is joined with the stored records, not re-followed. */
  predicate Joins(s: State, source: Option<Source>) {
    !(source.Some? && Has(s.team, SubKey, source.value.publicKey))
  }

  /** An installed bundle keeps identifiers unique. Joining one keeps them non-empty exactly when the
      bundle's are; a bundle from a followed master never introduces an empty one. */
  lemma InstallIds(s: State, source: Option<Source>, feed: State, now: string)
    requires UniqueIds(s) && InstallEdit(s, source, feed, now).Ok?
    ensures UniqueIds(InstallEdit(s, source, feed, now).value)
    ensures NamedIds(s) && Joins(s, source) ==> (NamedIds(InstallEdit(s, source, feed, now).value) <==> NamedIds(feed))
    ensures NamedIds(s) && !Joins(s, source) ==> NamedIds(InstallEdit(s, source, feed, now).value)
  {
    hide JoinAll, AdoptKeys, Registered, FeedResult, IndexOf, Track;
    if Joins(s, source) {
      JoinKeeps(s, feed);
    } else {
      RefollowKeeps(s, IndexOf(s.team, SubKey, source.value.publicKey), source.value, feed, now);
    }
  }

  /** What an import has added so far has fresh identifiers. */
  ghost predicate Grown(s: State, t: State, ids: seq<string>) {
    && UniqueIds(t) && (NamedIds(s) ==> NamedIds(t)) && IS.Known(s, t, ids)
  }

  lemma AddOneGrows(s: State, t: State, c: I.Candidate, files: I.Files, newIds: seq<string>, n: nat)
    requires 2 * n + 2 <= |newIds| && IS.Fresh(s, newIds) && Grown(s, t, newIds[..2 * n])
    requires I.AddOne(t, c, files, newIds[2 * n], newIds[2 * n + 1]).Ok?
    ensures Grown(s, I.AddOne(t, c, files, newIds[2 * n], newIds[2 * n + 1]).value, newIds[..2 * n + 2])
  {
    hide Has, IndexOf, I.IdOf, I.KeyFor;
    var keyId, hostId := newIds[2 * n], newIds[2 * n + 1];
    var u := I.AddOne(t, c, files, keyId, hostId).value;
    IS.FreshNext(s, t, newIds, n);
    AppendUnique(t.hosts, HostId, u.hosts[|t.hosts|]);
    if |u.keys| > |t.keys| {
      AppendUnique(t.keys, KeyId, u.keys[|t.keys|]);
    }
    IS.GrownIds(t.hosts, u.hosts, HostId);
    IS.GrownIds(t.keys, u.keys, KeyId);
    IS.KnownStep(s, t, u, newIds[..2 * n], hostId, keyId);
    assert newIds[..2 * n + 2] == newIds[..2 * n] + [keyId, hostId];
  }

  lemma {:induction false} AddAllGrows(s: State, cands: seq<I.Candidate>, chosen: set<string>, files: I.Files, newIds: seq<string>)
    requires UniqueIds(s) && 2 * |cands| <= |newIds| && IS.Fresh(s, newIds)
    requires I.AddAll(s, cands, chosen, files, newIds).Ok?
    ensures Grown(s, I.AddAll(s, cands, chosen, files, newIds).value, newIds[..2 * |cands|])
  {
    hide IS.Fresh, I.AddOne, Grown;
    if cands == [] {
      GrownNone(s);
    } else {
      var n := |cands| - 1;
      AddAllGrows(s, cands[..n], chosen, files, newIds);
      var t := I.AddAll(s, cands[..n], chosen, files, newIds).value;
      if cands[n].alias in chosen {
        AddOneGrows(s, t, cands[n], files, newIds, n);
      } else {
        GrownMore(s, t, newIds[..2 * n], newIds[2 * n..2 * n + 2]);
        assert newIds[..2 * n + 2] == newIds[..2 * n] + newIds[2 * n..2 * n + 2];
      }
    }
  }

  lemma GrownNone(s: State)
    requires UniqueIds(s)
    ensures Grown(s, s, [])
  {
    hide UniqueIds, NamedIds;
  }

  lemma GrownMore(s: State, t: State, ids: seq<string>, more: seq<string>)
    requires Grown(s, t, ids)
    ensures Grown(s, t, ids + more)
  {
    IS.KnownMore(s, t, ids, more);
    hide UniqueIds, NamedIds, IS.Known;
  }

  lemma ImportHostsKeep(s: State, cands: seq<I.Candidate>, chosen: set<string>, files: I.Files, newIds: seq<string>)
    requires UniqueIds(s) && 2 * |cands| <= |newIds| && FreshIn(s, newIds)
    requires I.ApplySelected(s, cands, chosen, files, newIds).Ok?
    ensures var r := I.ApplySelected(s, cands, chosen, files, newIds).value; UniqueIds(r) && (NamedIds(s) ==> NamedIds(r))
  {
    FreshForImport(s, newIds);
    AddAllGrows(s, cands, chosen, files, newIds);
    var t := I.AddAll(s, cands, chosen, files, newIds).value;
    hide I.AddAll, I.LinkAll, I.Demands, FreshIn, IS.Fresh, IS.Known, I.AllFound, I.HopsKnown, Unique, NonEmptyIds;
    I.LinkAllSame(t.hosts, |s.hosts|, I.Demands(cands, chosen));
    LinksKeepIds(t.hosts, I.LinkAll(t.hosts, |s.hosts|, I.Demands(cands, chosen)).value);
  }

  lemma LinksKeepIds(a: seq<Host>, b: seq<Host>)
    requires I.SameButLinks(a, b)
    ensures Unique(a, HostId) ==> Unique(b, HostId)
    ensures NonEmptyIds(a, HostId) ==> NonEmptyIds(b, HostId)
  {
    assert forall i :: 0 <= i < |a| ==> HostId(b[i]) == HostId(a[i]);
  }

  lemma FreshForImport(s: State, newIds: seq<string>)
    requires FreshIn(s, newIds)
    ensures IS.Fresh(s, newIds)
  {
    hide Has;
    forall i | 0 <= i < |newIds| ensures newIds[i] != "" && !Has(s.hosts, HostId, newIds[i]) && !Has(s.keys, KeyId, newIds[i]) {
      assert Unused(s, newIds[i]);
    }
  }

  // ---------------------------------------------------------------- runs

  /** One update of the store. */
  datatype Action =
    | Change(edit: E.Edit, newIds: seq<string>)
    | ImportHosts(cands: seq<I.Candidate>, chosen: set<string>, files: I.Files, newIds: seq<string>)
    | ImportBackup(file: B.File, withSettings: bool, pathOk: B.PathTest)
    | InstallBundle(source: Option<Source>, feed: State, now: string)
    | Follow(step: T.Step)

  /** Enough new identifiers are supplied, and records that arrive from elsewhere were checked. */
  predicate Supplied(a: Action) {
    match a
    case Change(e, ids) => |ids| >= E.Needs(e)
    case ImportHosts(cands, _, _, ids) => 2 * |cands| <= |ids|
    case ImportBackup(_, _, _) => true
    case InstallBundle(_, feed, _) => Valid(feed)
    case Follow(step) => R.Verified(step)
  }

  predicate FreshFor(s: State, a: Action) {
    match a
    case Change(_, ids) => FreshIn(s, ids)
    case ImportHosts(_, _, _, ids) => FreshIn(s, ids)
    case _ => true
  }

  /** The update before the commit check. */
  function Attempt(s: State, a: Action): Result<State>
    requires Supplied(a) && !a.Follow?
  {
    match a
    case Change(e, ids) => E.Edited(s, e, ids)
    case ImportHosts(cands, chosen, files, ids) => I.ApplySelected(s, cands, chosen, files, ids)
    case ImportBackup(file, withSettings, pathOk) =>
      var r := B.Import(s, file, withSettings, pathOk);
      if r.Ok? then Ok(r.value.0) else Err
    case InstallBundle(source, feed, now) => InstallEdit(s, source, feed, now)
  }

  /** The update is committed; a step of the poller always is. */
  predicate Commits(s: State, a: Action)
    requires Supplied(a)
  {
    a.Follow? || (Attempt(s, a).Ok? && Valid(Attempt(s, a).value))
  }

  /** Every update ends in the commit check, so a rejected one changes nothing. */
  function Perform(s: State, a: Action): State
    requires Supplied(a)
  {
    if a.Follow? then T.Next(s, a.step) else Commit(s, Attempt(s, a))
  }

  /** No joined bundle has a record without identifier. */
  predicate NamesIds(s: State, a: Action) {
    a.InstallBundle? && Joins(s, a.source) ==> NamedIds(a.feed)
  }

  lemma CommitValid(s: State, attempt: Result<State>)
    requires Valid(s)
    ensures Valid(Commit(s, attempt)) && (Commit(s, attempt) == s || attempt == Ok(Commit(s, attempt)))
  {
    hide Valid;
  }

  /** One update keeps the store checked, its identifiers unique, and, unless it joins a bundle with
      an empty identifier, every identifier non-empty. */
  lemma PerformKeeps(s: State, a: Action)
    requires Supplied(a) && FreshFor(s, a) && Valid(s) && UniqueIds(s)
    ensures Valid(Perform(s, a)) && UniqueIds(Perform(s, a))
    ensures NamedIds(s) && NamesIds(s, a) ==> NamedIds(Perform(s, a))
  {
    hide Valid, UniqueIds, NamedIds, E.Edited, I.ApplySelected, B.Import, InstallEdit, T.Next, FreshIn, Joins;
    match a {
      case Change(e, ids) =>
        CommitValid(s, E.Edited(s, e, ids));
        if E.Edited(s, e, ids).Ok? { EditKeeps(s, e, ids); }
      case ImportHosts(cands, chosen, files, ids) =>
        CommitValid(s, I.ApplySelected(s, cands, chosen, files, ids));
        if I.ApplySelected(s, cands, chosen, files, ids).Ok? { ImportHostsKeep(s, cands, chosen, files, ids); }
      case ImportBackup(file, withSettings, pathOk) =>
        var r := B.Import(s, file, withSettings, pathOk);
        CommitValid(s, if r.Ok? then Ok(r.value.0) else Err);
        if r.Ok? { BackupKeeps(s, file, withSettings, pathOk); }
      case InstallBundle(source, feed, now) =>
        CommitValid(s, InstallEdit(s, source, feed, now));
        if InstallEdit(s, source, feed, now).Ok? { InstallIds(s, source, feed, now); }
      case Follow(step) => R.StepKeepsIds(s, step);
    }
  }

  // ---------------------------------------------------------------- dangling references

  /** A committed update of this kind leaves no reference dangling: a deleted host is not the jump of
      a host without identifier, and a joined bundle brings no such host that jumps nowhere. */
  predicate Leaves(s: State, a: Action) {
    match a
    case Change(DeleteHost(id), _) => forall h <- s.hosts :: h.id == "" && h.id != id ==> h.jumpId != id
    case InstallBundle(source, feed, _) => Joins(s, source) ==> !BundleHangs(s.hosts, feed.hosts)
    case _ => true
  }

  lemma ChangeResolves(s: State, e: E.Edit, newIds: seq<string>)
    requires |newIds| >= E.Needs(e) && UniqueIds(s) && FreshIn(s, newIds) && E.Edited(s, e, newIds).Ok? && NoneHangs(s.hosts)
    ensures NoneHangs(E.Edited(s, e, newIds).value.hosts) <==> Leaves(s, Change(e, newIds))
  {
    hide NoneHangs, Hangs, HostsGrow, Unique, IndexOf, Has, Replaced, Deleted;
    match e {
      case SaveHost(h) =>
        ReplacedGrows(s.hosts, h.id, h.(id := E.Named(h.id, newIds[0])));
        GrowthResolves(s.hosts, E.Edited(s, e, newIds).value.hosts);
      case DeleteHost(id) => DeletedHangs(s.hosts, id);
      case _ => EditHosts(s, e, newIds);
    }
  }

  lemma RefollowGrows(s: State, index: nat, source: Source, feed: State, now: string)
    requires index < |s.team| && UniqueIds(s) && Refollow(s, index, source, feed, now).Ok?
    ensures HostsGrow(s.hosts, Refollow(s, index, source, feed, now).value.hosts)
  {
    hide AdoptKeys, Accepts, Applied, HostsGrow;
    AdoptKeysKeep(s, index, feed.keys);
    AdoptedHosts(s, index, feed.keys);
    var adopted := AdoptKeys(s, index, feed.keys).value;
    var ready := adopted.(team := adopted.team[index := adopted.team[index].(source := source)]);
    assert UniqueIds(ready);
    hide UniqueIds;
    FeedGrows(ready, index, feed, now);
  }

  lemma InstallResolves(s: State, source: Option<Source>, feed: State, now: string)
    requires UniqueIds(s) && InstallEdit(s, source, feed, now).Ok? && NoneHangs(s.hosts)
    ensures NoneHangs(InstallEdit(s, source, feed, now).value.hosts) <==> Leaves(s, InstallBundle(source, feed, now))
  {
    hide JoinAll, Refollow, Registered, IndexOf, NoneHangs, BundleHangs, HostsGrow, UniqueIds;
    if Joins(s, source) {
      JoinHangs(s, feed);
    } else {
      var index := IndexOf(s.team, SubKey, source.value.publicKey);
      RefollowGrows(s, index, source.value, feed, now);
      GrowthResolves(s.hosts, InstallEdit(s, source, feed, now).value.hosts);
    }
  }

  lemma FollowGrows(s: State, step: T.Step)
    requires Valid(s) && UniqueIds(s) && R.Verified(step) && NoneHangs(s.hosts)
    ensures NoneHangs(T.Next(s, step).hosts)
  {
    hide Valid, T.Next, T.PollCommits, T.Target, UniqueIds, Applied, NoneHangs, HostsGrow, Accepts;
    if R.CommitsFeed(s, step) {
      R.ApplyStep(s, step);
      FeedGrows(s, T.Target(s.team, step.source), step.fetch.feed, step.now);
      GrowthResolves(s.hosts, T.Next(s, step).hosts);
    } else {
      R.OnlyStatusChanges(s, step);
    }
  }

  lemma FreshNamed(s: State, ids: seq<string>)
    requires FreshIn(s, ids)
    ensures forall i :: 0 <= i < |ids| ==> ids[i] != ""
  {
    hide Unused;
  }

  lemma CommittedResolves(s: State, a: Action)
    requires Supplied(a) && FreshFor(s, a) && Valid(s) && UniqueIds(s) && NoneHangs(s.hosts) && Commits(s, a)
    ensures NoneHangs(Perform(s, a).hosts) <==> Leaves(s, a)
  {
    hide Valid, UniqueIds, NoneHangs, HostsGrow, E.Edited, I.ApplySelected, B.Import, InstallEdit, T.Next, FreshIn;
    match a {
      case Change(e, ids) => ChangeResolves(s, e, ids);
      case ImportHosts(cands, chosen, files, ids) =>
        FreshNamed(s, ids);
        ImportGrows(s, cands, chosen, files, ids);
        GrowthResolves(s.hosts, Perform(s, a).hosts);
      case ImportBackup(file, withSettings, pathOk) =>
        BackupGrows(s, file, withSettings, pathOk);
        GrowthResolves(s.hosts, Perform(s, a).hosts);
      case InstallBundle(source, feed, now) => InstallResolves(s, source, feed, now);
      case Follow(step) => FollowGrows(s, step);
    }
  }

  /** One update of a store in which every reference resolves leaves it so exactly when it is rejected
      or is none of the two kinds that leave a reference dangling. */
  lemma StepResolves(s: State, a: Action)
    requires Supplied(a) && FreshFor(s, a) && Valid(s) && UniqueIds(s) && Resolved(s)
    ensures Resolved(Perform(s, a)) <==> (Commits(s, a) ==> Leaves(s, a))
  {
    hide Valid, UniqueIds, Resolved, NoneHangs, Attempt, Leaves, Supplied, FreshFor, T.Next;
    ResolvedExact(s);
    PerformKeeps(s, a);
    ResolvedExact(Perform(s, a));
    if Commits(s, a) {
      CommittedResolves(s, a);
    }
  }

  /** A bundle of one key and one host without identifier is installed, and its jump reaches nothing. */
  lemma DanglingRun(k: Key, h: Host, now: string)
    requires ValidKey(k) && ValidHost(h) && h.id == "" && h.keyId == k.id && h.jumpId != ""
    ensures var actions := [InstallBundle(None, EMPTY.(keys := [k], hosts := [h]), now)];
      AllSupplied(actions) && AllFresh(actions) && !Resolved(Run(actions))
  {
    var feed := EMPTY.(keys := [k], hosts := [h]);
    hide *;
    EmptyIdEscapesValidate(k, h);
    JoinedPair(k, h);
    InstallOnce(feed, now);
  }

  lemma JoinedPair(k: Key, h: Host)
    ensures var feed := EMPTY.(keys := [k], hosts := [h]); InstallEdit(EMPTY, None, feed, "") == Ok(feed)
  {
    hide Joined;
    JoinedOne(h, HostId);
    JoinedOne(k, KeyId);
    JoinedNone(EMPTY.tunnels, TunnelId);
    JoinedNone(EMPTY.services, ServiceId);
  }

  lemma JoinedNone<T>(xs: seq<T>, id: T -> string)
    ensures Joined(xs, [], id) == Ok(xs)
  {
  }

  lemma InstallOnce(feed: State, now: string)
    requires Valid(feed) && InstallEdit(EMPTY, None, feed, "") == Ok(feed)
    ensures var actions := [InstallBundle(None, feed, now)];
      AllSupplied(actions) && AllFresh(actions) && Run(actions) == feed
  {
    var actions := [InstallBundle(None, feed, now)];
    assert actions[..0] == [];
    hide Valid, JoinAll, FreshIn;
    assert InstallEdit(EMPTY, None, feed, now) == InstallEdit(EMPTY, None, feed, "");
  }

  lemma JoinedOne<T>(x: T, id: T -> string)
    ensures Joined([], [x], id) == Ok([x])
  {
    assert [x][..0] == [] && [] + [x] == [x];
  }

  lemma IsWellFormed(s: State)
    ensures WellFormed(s) <==> UniqueIds(s) && NamedIds(s)
  {
  }

  predicate AllSupplied(actions: seq<Action>) { forall i :: 0 <= i < |actions| ==> Supplied(actions[i]) }

  /** A run from the empty store. */
  function Run(actions: seq<Action>): State
    requires AllSupplied(actions)
  {
    if actions == [] then EMPTY else Perform(Run(actions[..|actions| - 1]), actions[|actions| - 1])
  }

  /** Every update drew identifiers that were unused at its time. */
  predicate AllFresh(actions: seq<Action>)
    requires AllSupplied(actions)
  {
    actions == [] || (AllFresh(actions[..|actions| - 1]) && FreshFor(Run(actions[..|actions| - 1]), actions[|actions| - 1]))
  }

  /** No update joined a bundle with a record without identifier. */
  predicate AllNamed(actions: seq<Action>)
    requires AllSupplied(actions)
  {
    actions == [] || (AllNamed(actions[..|actions| - 1]) && NamesIds(Run(actions[..|actions| - 1]), actions[|actions| - 1]))
  }

  lemma EmptyStart()
    ensures Valid(EMPTY) && UniqueIds(EMPTY) && NamedIds(EMPTY)
  {
  }

  /** No committed update of the run left a reference dangling. */
  predicate AllLeave(actions: seq<Action>)
    requires AllSupplied(actions)
  {
    actions == [] || (
      var n := |actions| - 1;
      AllLeave(actions[..n]) && (Commits(Run(actions[..n]), actions[n]) ==> Leaves(Run(actions[..n]), actions[n])))
  }

  /** Every reference resolves at every point of the run. */
  ghost predicate AlwaysResolved(actions: seq<Action>)
    requires AllSupplied(actions)
  {
    forall n :: 0 <= n <= |actions| ==> Resolved(Run(actions[..n]))
  }

  lemma AlwaysStep(actions: seq<Action>)
    requires AllSupplied(actions) && actions != []
    ensures AlwaysResolved(actions) <==> AlwaysResolved(actions[..|actions| - 1]) && Resolved(Run(actions))
  {
    hide Supplied, Resolved, Run;
    var before := actions[..|actions| - 1];
    forall n | 0 <= n <= |before| ensures before[..n] == actions[..n] {}
    assert actions[..|actions|] == actions;
    if AlwaysResolved(actions) {
      forall n | 0 <= n <= |before| ensures Resolved(Run(before[..n])) {
        assert Resolved(Run(actions[..n]));
      }
    }
    if AlwaysResolved(before) && Resolved(Run(actions)) {
      forall n | 0 <= n <= |actions| ensures Resolved(Run(actions[..n])) {
        if n < |actions| { assert Resolved(Run(before[..n])); }
      }
    }
  }

  /** The whole-run store invariant: from the empty store, every sequence of updates leaves a checked
      store with unique identifiers. Identifiers are non-empty unless a bundle with an empty one was
      joined, and references resolve throughout exactly when no committed update joined a bundle with
      a dangling jump or deleted the jump of a host without identifier. */
  lemma {:induction false} RunKeepsStore(actions: seq<Action>)
    requires AllSupplied(actions) && AllFresh(actions)
    ensures Valid(Run(actions)) && UniqueIds(Run(actions))
    ensures AlwaysResolved(actions) <==> AllLeave(actions)
    ensures AllNamed(actions) ==> NamedIds(Run(actions)) && Resolved(Run(actions))
  {
    hide Valid, UniqueIds, NamedIds, Perform, Supplied, FreshFor, NamesIds, Resolved, AlwaysResolved, Commits, Leaves;
    if actions == [] {
      EmptyStart();
      AlwaysAtStart();
    } else {
      var before, a := actions[..|actions| - 1], actions[|actions| - 1];
      RunKeepsStore(before);
      PerformKeeps(Run(before), a);
      AlwaysStep(actions);
      if AlwaysResolved(before) {
        AlwaysNow(before);
        StepResolves(Run(before), a);
      }
    }
    if AllNamed(actions) {
      IsWellFormed(Run(actions));
      ValidResolves(Run(actions));
    }
  }

  lemma AlwaysAtStart()
    ensures AlwaysResolved([])
  {
  }

  lemma AlwaysNow(actions: seq<Action>)
    requires AllSupplied(actions) && AlwaysResolved(actions)
    ensures Resolved(Run(actions))
  {
    hide Supplied, Resolved, Run;
    assert actions[..|actions|] == actions;
  }

  // ---------------------------------------------------------------- what every stored record does

  /** A host that can be connected to and labelled: one of the known environments and kinds, a port, a user
      name that fits in front of an at sign, a stored key, and a full fingerprint or none. */
  ghost predicate Usable(s: State, h: Host) {
    && h.environment in {"LOCAL", "DEV", "STG", "PROD"} && h.kind in {"Bastion", "Server", "Database", "Other"}
    && 1 <= h.port <= 65535 && h.username != ""
    && (forall c <- h.username :: c != '@' && c != ' ' && c != '\t' && c != '/' && c != '\\' && c != '\n' && c != '\r' && c != '\0')
    && (h.fingerprint == "" || exists sum: string :: h.fingerprint == "SHA256:" + sum && ByteLen(sum) == 43)
    && (h.jumpId != h.id || h.id == "") && exists k <- s.keys :: k.id == h.keyId && k.path != ""
  }

  lemma HostUsable(s: State, h: Host)
    requires Valid(s) && h in s.hosts
    ensures Usable(s, h)
  {
    hide Route, TunnelOk, ServiceOk, ValidHost, IndexOf, Name, ByteLen;
    assert HostOk(s.keys, s.hosts, h);
    HasWitness(s.keys, KeyId, h.keyId);
    HostFields(h);
  }

  lemma HostFields(h: Host)
    requires ValidHost(h)
    ensures h.environment in {"LOCAL", "DEV", "STG", "PROD"} && h.kind in {"Bastion", "Server", "Database", "Other"}
    ensures 1 <= h.port <= 65535 && h.username != "" && (h.jumpId != h.id || h.id == "")
    ensures forall c <- h.username :: c != '@' && c != ' ' && c != '\t' && c != '/' && c != '\\' && c != '\n' && c != '\r' && c != '\0'
    ensures h.fingerprint == "" || exists sum: string :: h.fingerprint == "SHA256:" + sum && ByteLen(sum) == 43
  {
    UserChars(h.username);
    hide Address, Name, ByteLen, Avoids;
    if h.fingerprint != "" { SumLength(h.fingerprint); }
  }

  lemma SumLength(fingerprint: string)
    requires "SHA256:" <= fingerprint && ByteLen(fingerprint) == 50
    ensures fingerprint == "SHA256:" + fingerprint[7..] && ByteLen(fingerprint[7..]) == 43
  {
    assert fingerprint == "SHA256:" + fingerprint[7..];
    ByteLenAppend("SHA256:", fingerprint[7..]);
    PrefixBytes();
    hide ByteLen;
  }

  lemma PrefixBytes()
    ensures ByteLen("SHA256:") == 7
  {
    assert ByteLen("A256:") == 5;
  }

  lemma UserChars(user: string)
    requires Name(user) && Avoids(user, " \t@/\\")
    ensures user != "" && forall c <- user :: c != '@' && c != ' ' && c != '\t' && c != '/' && c != '\\' && c != '\n' && c != '\r' && c != '\0'
  {
    hide ByteLen;
    var marks, breaks := " \t@/\\", "\0\r\n";
    assert marks[0] == ' ' && marks[1] == '\t' && marks[2] == '@' && marks[3] == '/' && marks[4] == '\\';
    assert breaks[0] == '\0' && breaks[1] == '\r' && breaks[2] == '\n';
  }

  /** A tunnel listens on this machine only, and leads through a stored host. */
  ghost predicate ListensHere(s: State, t: Tunnel) {
    && t.localHost == "127.0.0.1" && 1 <= t.localPort <= 65535 && 1 <= t.remotePort <= 65535
    && exists h <- s.hosts :: h.id == t.hostId
  }

  /** A link opens the local end of a stored tunnel: on this machine, with the tunnel's port written out or
      the usual one of its scheme. */
  ghost predicate OpensTunnel(s: State, v: Service) {
    && v.url.Url? && !v.url.userInfo && !v.url.opaquePart && v.url.host == "127.0.0.1"
    && exists t <- s.tunnels :: t.id == v.tunnelId && OpensAt(v.url, t.localPort)
  }

  predicate OpensAt(u: Url, localPort: int)
    requires u.Url?
  {
    match u.scheme
    case "http" => if u.port == "" then localPort == 80 else u.port == Itoa(localPort)
    case "https" => if u.port == "" then localPort == 443 else u.port == Itoa(localPort)
    case _ => false
  }

  lemma LocalUrlOpens(u: Url, localPort: int)
    requires 1 <= localPort <= 65535
    ensures LocalUrl(u, localPort) <==>
      u.Url? && !u.userInfo && !u.opaquePart && u.host == "127.0.0.1" && OpensAt(u, localPort)
  {
    hide Atoi, Itoa;
    AtoiItoa(localPort);
    UsualPorts();
  }

  lemma UsualPorts()
    ensures Itoa(80) == "80" && Itoa(443) == "443" && Atoi("80") == Some(80) && Atoi("443") == Some(443)
  {
    AtoiItoa(80);
    AtoiItoa(443);
    hide Atoi;
  }

  lemma CheckedOpens(s: State)
    requires Valid(s)
    ensures forall h <- s.hosts :: Usable(s, h)
    ensures forall t <- s.tunnels :: ListensHere(s, t)
    ensures forall v <- s.services :: OpensTunnel(s, v)
  {
    forall h | h in s.hosts ensures Usable(s, h) { HostUsable(s, h); }
    hide Usable, HostOk, ValidKey, Address, Name, Itoa, IndexOf, LocalUrl, OpensAt;
    forall t | t in s.tunnels ensures ListensHere(s, t) {
      assert TunnelOk(s.hosts, t);
      HasWitness(s.hosts, HostId, t.hostId);
    }
    forall v | v in s.services ensures OpensTunnel(s, v) {
      assert ServiceOk(s.tunnels, v);
      HasWitness(s.tunnels, TunnelId, v.tunnelId);
      var t := Find(s.tunnels, TunnelId, v.tunnelId).value;
      LocalUrlOpens(v.url, t.localPort);
    }
  }

  /** After every run of updates, whatever was edited, imported, joined or followed, all hosts can be used,
      all tunnels listen on this machine only, and every link opens its tunnel's local end. */
  lemma LoopbackOnly(actions: seq<Action>)
    requires AllSupplied(actions) && AllFresh(actions)
    ensures forall h <- Run(actions).hosts :: Usable(Run(actions), h)
    ensures forall t <- Run(actions).tunnels :: ListensHere(Run(actions), t)
    ensures forall v <- Run(actions).services :: OpensTunnel(Run(actions), v)
  {
    hide Valid, UniqueIds, AlwaysResolved, AllLeave, Run, AllFresh, AllSupplied, AllNamed;
    RunKeepsStore(actions);
    CheckedOpens(Run(actions));
  }
}
