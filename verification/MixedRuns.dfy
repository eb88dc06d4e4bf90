/**
 The last-writer theorem for a machine that is also used locally: edits, backups, SSH imports and
 plain bundles that leave shared records alone may come between the steps of the poller.
 */
module MixedRuns {
  import opened Wrappers
  import opened Text
  import opened Records
  import opened Model
  import opened Store
  import E = Editing
  import I = Importer
  import B = Backup
  import opened Sync
  import opened FeedSound
  import opened Bundles
  import opened Ownership
  import T = Team
  import opened TeamRun
  import opened LastWriter
  import opened References
  import A = Runs
  import O = OwnedRuns

  /** The record of an item is the same in both configurations. */
  predicate SameRecord(a: State, b: State, it: Item) {
    match it.kind
    case Hosts => Find(b.hosts, HostId, it.id) == Find(a.hosts, HostId, it.id)
    case Keys => Find(b.keys, KeyId, it.id) == Find(a.keys, KeyId, it.id)
    case Tunnels => Find(b.tunnels, TunnelId, it.id) == Find(a.tunnels, TunnelId, it.id)
    case Services => Find(b.services, ServiceId, it.id) == Find(a.services, ServiceId, it.id)
  }

  predicate LinksUnshared(s: State, tunnelId: string) {
    forall v <- s.services :: v.tunnelId == tunnelId ==> !O.Shared(s, Item(Services, v.id))
  }

  /** The edit neither changes nor deletes a shared record. An empty id stands for a new record. */
  predicate Untouched(s: State, e: E.Edit) {
    match e
    case SaveHost(h) => h.id != "" ==> !O.Shared(s, Item(Hosts, h.id))
    case SaveKey(k, _) => k.id != "" ==> !O.Shared(s, Item(Keys, k.id))
    case SaveTunnel(t, links, _) =>
      t.id != "" ==> !O.Shared(s, Item(Tunnels, t.id)) && (links.Some? ==> LinksUnshared(s, t.id))
    case SaveService(v, _) => v.id != "" ==> !O.Shared(s, Item(Services, v.id))
    case SaveSettings(_) => true
    case DeleteHost(id) => !O.Shared(s, Item(Hosts, id))
    case DeleteKey(id) => !O.Shared(s, Item(Keys, id))
    case DeleteTunnel(id, _) => !O.Shared(s, Item(Tunnels, id)) && LinksUnshared(s, id)
    case DeleteService(id) => !O.Shared(s, Item(Services, id))
  }

  // ---------------------------------------------------------------- local updates

  lemma ReplacedFind<T>(xs: seq<T>, key: string, value: T, id: T -> string, other: string)
    requires Unique(xs, id) && Replaced(xs, key, value, id).Ok? && Has(xs, id, other)
    requires key != "" ==> id(value) == key && other != key
    ensures Find(Replaced(xs, key, value, id).value, id, other) == Find(xs, id, other)
  {
    var r := Replaced(xs, key, value, id).value;
    if key == "" {
      IndexOfAppend(xs, [value], id, other);
    } else {
      SameIndex(xs, r, id, other);
    }
  }

  lemma ReplacedLinksFind(s: State, tunnel: Tunnel, links: seq<Service>, newIds: seq<string>, key: string)
    requires UniqueIds(s) && |links| <= |newIds| && E.ReplaceLinks(s, tunnel, links, newIds).Ok?
    requires Has(s.services, ServiceId, key) && Find(s.services, ServiceId, key).value.tunnelId != tunnel.id
    ensures Find(E.ReplaceLinks(s, tunnel, links, newIds).value.services, ServiceId, key) == Find(s.services, ServiceId, key)
  {
    hide IndexOf, E.Linked, Filter;
    var off := Filter(s.services, E.OffTunnel(tunnel.id));
    FilterFind(s.services, E.OffTunnel(tunnel.id), ServiceId, key);
    PrefixHas(off, E.ReplaceLinks(s, tunnel, links, newIds).value.services, ServiceId, key);
  }

  lemma SavedTunnelSame(s: State, t: Tunnel, links: Option<seq<Service>>, newIds: seq<string>, it: Item)
    requires |newIds| >= 2 && (links.Some? ==> |newIds| >= 2 + |links.value|)
    requires Valid(s) && UniqueIds(s) && A.FreshIn(s, newIds) && E.SavedTunnel(s, t, links, newIds).Ok? && Holds(s, it)
    requires it.kind == Tunnels && t.id != "" ==> it.id != t.id
    requires it.kind == Services && links.Some? && t.id != "" ==> Find(s.services, ServiceId, it.id).value.tunnelId != t.id
    ensures SameRecord(s, E.SavedTunnel(s, t, links, newIds).value, it)
  {
    hide IndexOf, Replaced, E.ReplaceLinks, Valid, Unique;
    var v := t.(id := E.Named(t.id, newIds[0]));
    if it.kind == Tunnels { ReplacedFind(s.tunnels, t.id, v, TunnelId, it.id); }
    var saved := s.(tunnels := Replaced(s.tunnels, t.id, v, TunnelId).value);
    O.SavedUnique(s, t, newIds);
    if links.Some? {
      O.ReplaceLinksOnly(saved, v, links.value, newIds[2..]);
      if it.kind == Services {
        assert A.Unused(s, newIds[0]);
        O.NewTunnelUnlinked(s, newIds[0], it.id);
        ReplacedLinksFind(saved, v, links.value, newIds[2..], it.id);
      }
    }
  }

  lemma SavedServiceSame(s: State, v: Service, newTunnel: Option<Tunnel>, newIds: seq<string>, it: Item)
    requires |newIds| >= 2 && UniqueIds(s) && E.SavedService(s, v, newTunnel, newIds).Ok? && Holds(s, it)
    requires it.kind == Services && v.id != "" ==> it.id != v.id
    ensures SameRecord(s, E.SavedService(s, v, newTunnel, newIds).value, it)
  {
    hide IndexOf, Replaced, Unique;
    var w := v.(id := E.Named(v.id, newIds[1]), tunnelId := if newTunnel.Some? then newIds[0] else v.tunnelId);
    if it.kind == Services { ReplacedFind(s.services, v.id, w, ServiceId, it.id); }
    if newTunnel.Some? {
      PrefixHas(s.tunnels, s.tunnels + [newTunnel.value.(id := newIds[0], name := v.name + " tunnel", localHost := "127.0.0.1")], TunnelId, it.id);
    }
  }

  lemma LinkOffTunnel(s: State, tunnelId: string, it: Item)
    requires LinksUnshared(s, tunnelId) && O.Shared(s, it) && it.kind == Services && Holds(s, it)
    ensures Find(s.services, ServiceId, it.id).value.tunnelId != tunnelId
  {
    hide O.Shared;
    HasWitness(s.services, ServiceId, it.id);
  }

  /** An edit that leaves shared records alone does. */
  lemma EditSame(s: State, e: E.Edit, newIds: seq<string>, it: Item)
    requires |newIds| >= E.Needs(e) && Valid(s) && UniqueIds(s) && A.FreshIn(s, newIds) && E.Edited(s, e, newIds).Ok?
    requires Untouched(s, e) && O.Shared(s, it) && Holds(s, it)
    ensures SameRecord(s, E.Edited(s, e, newIds).value, it)
  {
    hide IndexOf, Replaced, Deleted, E.SavedTunnel, E.SavedService, Unique, Filter, A.FreshIn, Valid, O.Shared, LinksUnshared;
    match e {
      case SaveHost(h) => if it.kind == Hosts { ReplacedFind(s.hosts, h.id, h.(id := E.Named(h.id, newIds[0])), HostId, it.id); }
      case SaveKey(k, path) =>
        if it.kind == Keys { ReplacedFind(s.keys, k.id, k.(id := E.Named(k.id, newIds[0]), path := path.value), KeyId, it.id); }
      case SaveTunnel(t, links, active) =>
        if it.kind == Services && links.Some? && t.id != "" { LinkOffTunnel(s, t.id, it); }
        SavedTunnelSame(s, t, links, newIds, it);
      case SaveService(v, newTunnel) => SavedServiceSame(s, v, newTunnel, newIds, it);
      case SaveSettings(settings) =>
      case DeleteHost(id) => DeletedFind(s.hosts, id, HostId, it.id);
      case DeleteKey(id) => DeletedFind(s.keys, id, KeyId, it.id);
      case DeleteTunnel(id, active) =>
        DeletedFind(s.tunnels, id, TunnelId, it.id);
        if it.kind == Services {
          LinkOffTunnel(s, id, it);
          FilterFind(s.services, E.OffTunnel(id), ServiceId, it.id);
        }
      case DeleteService(id) => DeletedFind(s.services, id, ServiceId, it.id);
    }
  }

  lemma BackupSame(s: State, file: B.File, withSettings: bool, pathOk: B.PathTest, it: Item)
    requires B.Import(s, file, withSettings, pathOk).Ok? && Holds(s, it)
    ensures SameRecord(s, B.Import(s, file, withSettings, pathOk).value.0, it)
  {
    hide Valid, IndexOf, B.AllMergeable, Additions;
    var r := B.Import(s, file, withSettings, pathOk).value.0;
    PrefixHas(s.hosts, r.hosts, HostId, it.id);
    PrefixHas(s.keys, r.keys, KeyId, it.id);
    PrefixHas(s.tunnels, r.tunnels, TunnelId, it.id);
    PrefixHas(s.services, r.services, ServiceId, it.id);
  }

  lemma ImportSame(s: State, cands: seq<I.Candidate>, chosen: set<string>, files: I.Files, newIds: seq<string>, it: Item)
    requires 2 * |cands| <= |newIds| && I.ApplySelected(s, cands, chosen, files, newIds).Ok? && Holds(s, it)
    ensures SameRecord(s, I.ApplySelected(s, cands, chosen, files, newIds).value, it)
  {
    ImportPrefix(s, cands, chosen, files, newIds);
    hide I.ApplySelected, IndexOf;
    var r := I.ApplySelected(s, cands, chosen, files, newIds).value;
    PrefixHas(s.hosts, r.hosts, HostId, it.id);
    PrefixHas(s.keys, r.keys, KeyId, it.id);
  }

  lemma JoinSame(s: State, feed: State, it: Item)
    requires UniqueIds(s) && JoinAll(s, feed).Ok? && Holds(s, it)
    ensures SameRecord(s, JoinAll(s, feed).value, it) && JoinAll(s, feed).value.team == s.team
  {
    hide IndexOf, Joined;
    JoinedFind(s.hosts, feed.hosts, HostId, it.id);
    JoinedFind(s.keys, feed.keys, KeyId, it.id);
    JoinedFind(s.tunnels, feed.tunnels, TunnelId, it.id);
    JoinedFind(s.services, feed.services, ServiceId, it.id);
  }

  /** A local update that leaves shared records alone. A bundle joined without its source starts no
      subscription. */
  predicate Local(s: State, a: A.Action) {
    match a
    case Change(e, _) => Untouched(s, e)
    case ImportHosts(_, _, _, _) => true
    case ImportBackup(_, _, _) => true
    case InstallBundle(source, _, _) => source.None?
    case Follow(_) => false
  }

  lemma AttemptSame(s: State, a: A.Action, it: Item)
    requires A.Supplied(a) && A.FreshFor(s, a) && Valid(s) && UniqueIds(s) && Local(s, a) && A.Attempt(s, a).Ok?
    requires O.Shared(s, it) && Holds(s, it)
    ensures SameRecord(s, A.Attempt(s, a).value, it)
  {
    hide Valid, UniqueIds, E.Edited, I.ApplySelected, B.Import, JoinAll, A.FreshIn, Untouched, O.Shared, SameRecord, Holds;
    match a {
      case Change(e, ids) => EditSame(s, e, ids, it);
      case ImportHosts(cands, chosen, files, ids) => ImportSame(s, cands, chosen, files, ids, it);
      case ImportBackup(file, withSettings, pathOk) => BackupSame(s, file, withSettings, pathOk, it);
      case InstallBundle(source, feed, now) => JoinSame(s, feed, it);
    }
  }

  lemma AttemptTeam(s: State, a: A.Action)
    requires A.Supplied(a) && UniqueIds(s) && Local(s, a) && A.Attempt(s, a).Ok?
    ensures A.Attempt(s, a).value.team == s.team
  {
    hide E.Edited, I.ApplySelected, B.Import, Untouched, Joined, UniqueIds;
    match a {
      case Change(e, ids) => O.EditTeam(s, e, ids);
      case ImportHosts(cands, chosen, files, ids) => ImportPrefix(s, cands, chosen, files, ids);
      case ImportBackup(file, withSettings, pathOk) => O.BackupTeam(s, file, withSettings, pathOk);
      case InstallBundle(source, feed, now) =>
    }
  }

  lemma SoundGives(s: State, it: Item)
    requires Sound(s) && O.Shared(s, it)
    ensures Holds(s, it)
  {
  }

  lemma SameHolds(a: State, b: State, it: Item)
    requires SameRecord(a, b, it) && Holds(a, it)
    ensures Holds(b, it)
  {
  }

  /** A local update keeps the configuration sound and every shared record as it is. */
  lemma LocalKeeps(s: State, a: A.Action)
    requires Sound(s) && A.Supplied(a) && A.FreshFor(s, a) && Local(s, a)
    ensures var r := A.Perform(s, a);
      && Sound(r) && r.team == s.team
      && forall it :: O.Shared(s, it) ==> SameRecord(s, r, it)
  {
    var r := A.Perform(s, a);
    A.PerformKeeps(s, a);
    hide Valid, UniqueIds, NamedIds, A.Attempt, A.Supplied, A.FreshFor, Local, O.Shared, SameRecord, Holds, Owned;
    if r != s {
      AttemptTeam(s, a);
    }
    forall it | O.Shared(s, it) ensures SameRecord(s, r, it) && Holds(s, it) && Holds(r, it) {
      SoundGives(s, it);
      if r != s {
        AttemptSame(s, a, it);
        SameHolds(s, r, it);
      } else {
        SelfSame(s, it);
      }
    }
    O.SameTeamOwned(s, r);
  }

  lemma SelfSame(s: State, it: Item)
    ensures SameRecord(s, s, it)
  {
  }

  // ---------------------------------------------------------------- versions of shared records

  /** The record of a shared item is its last version. */
  ghost predicate Version(start: State, log: seq<Entry>, s: State, it: Item) {
    match it.kind
    case Hosts => Find(s.hosts, HostId, it.id) == LastHost(log, start, it.id)
    case Tunnels => Find(s.tunnels, TunnelId, it.id) == LastTunnel(log, start, it.id)
    case Keys => KeyVersion(start, log, s, it.id)
    case Services => Shows(s, LastService(log, start, it.id), Find(s.services, ServiceId, it.id))
  }

  /** Every shared item has its last version, and subscriptions list what they ever shared. */
  ghost predicate SharedExplained(start: State, log: seq<Entry>, s: State) {
    && |s.team| == |start.team|
    && (forall it :: O.Shared(s, it) ==> Version(start, log, s, it))
    && (forall i :: 0 <= i < |start.team| ==> Statuses(start, log, s, i))
  }

  lemma FeedVersion(s: State, index: nat, feed: State, now: string, start: State, log: seq<Entry>, it: Item)
    requires Situation(s, index, feed) && Valid(Applied(s, index, feed, now))
    requires Version(start, log, s, it) || (it.kind != Keys && Holds(feed, it))
    ensures Version(start, log + [Entry(index, feed)], Applied(s, index, feed, now), it)
  {
    hide Situation, Valid, Applied, LastHost, LastTunnel, LastService, LastKey, KeyVersion, Shows, IndexOf;
    match it.kind
    case Hosts => HostVersionStep(s, index, feed, now, start, log, it.id);
    case Tunnels => TunnelVersionStep(s, index, feed, now, start, log, it.id);
    case Keys => KeyVersionStep(s, index, feed, now, start, log, it.id);
    case Services =>
      ServiceVersion(s, index, feed, now, start, log, it.id);
      WidenLog(log, Entry(index, feed), start, it.id);
  }

  /** What a feed shares was shared before, or is in the feed; keys are never new. */
  lemma SharedBefore(s: State, index: nat, feed: State, now: string, it: Item)
    requires Situation(s, index, feed) && O.Shared(Applied(s, index, feed, now), it)
    ensures O.Shared(s, it) || (it.kind != Keys && Holds(feed, it))
  {
    var r := Applied(s, index, feed, now);
    var i: nat :| i < |r.team| && it in r.team[i].items;
    ItemsStep(s, index, feed, now, i);
    hide Applied, Valid, Syncable, Retargetable, UniqueIds;
    if it !in s.team[i].items {
      assert i == index && Holds(feed, it);
      if it.kind == Keys { HasWitness(feed.keys, KeyId, it.id); }
    } else {
      assert O.Shared(s, it);
    }
  }

  lemma FeedExplained(s: State, index: nat, feed: State, now: string, start: State, log: seq<Entry>)
    requires Situation(s, index, feed) && Valid(Applied(s, index, feed, now)) && SharedExplained(start, log, s)
    ensures SharedExplained(start, log + [Entry(index, feed)], Applied(s, index, feed, now))
  {
    var r := Applied(s, index, feed, now);
    hide Situation, Valid, Applied, Version, Statuses, O.Shared, Holds;
    assert |r.team| == |s.team| by { FeedTeam(s, index, feed, now); }
    forall it | O.Shared(r, it) ensures Version(start, log + [Entry(index, feed)], r, it) {
      SharedBefore(s, index, feed, now, it);
      FeedVersion(s, index, feed, now, start, log, it);
    }
    forall i | 0 <= i < |start.team| ensures Statuses(start, log + [Entry(index, feed)], r, i) {
      StatusesStep(s, index, feed, now, start, log, i);
    }
  }

  lemma FeedTeam(s: State, index: nat, feed: State, now: string)
    requires index < |s.team|
    ensures |Applied(s, index, feed, now).team| == |s.team|
  {
  }

  lemma QuietShared(a: State, b: State, it: Item)
    requires Quiet(a, b)
    ensures O.Shared(b, it) <==> O.Shared(a, it)
  {
  }

  lemma QuietExplained(a: State, b: State, start: State, log: seq<Entry>)
    requires Quiet(a, b) && SharedExplained(start, log, a)
    ensures SharedExplained(start, log, b)
  {
    hide Version, Statuses, O.Shared;
    assert |b.team| == |a.team|;
    forall it | O.Shared(b, it) ensures Version(start, log, b, it) {
      QuietShared(a, b, it);
      QuietVersion(a, b, start, log, it);
    }
    forall i | 0 <= i < |start.team| ensures Statuses(start, log, b, i) {
      QuietStatuses(a, b, start, log, i);
    }
  }

  lemma QuietVersion(a: State, b: State, start: State, log: seq<Entry>, it: Item)
    requires Quiet(a, b) && Version(start, log, a, it)
    ensures Version(start, log, b, it)
  {
    hide IndexOf, LastHost, LastTunnel, LastKey, LastService, WithPort;
    if it.kind == Services && LastService(log, start, it.id).Some? {
      var v := LastService(log, start, it.id).value;
      assert KeptBySome(a, v) <==> KeptBySome(b, v);
    }
  }

  lemma LocalVersion(s: State, r: State, start: State, log: seq<Entry>, it: Item)
    requires Valid(s) && Valid(r) && r.team == s.team && SameRecord(s, r, it) && Version(start, log, s, it)
    ensures Version(start, log, r, it)
  {
    hide Valid, IndexOf, LastHost, LastTunnel, LastKey, LastService, Shows;
    if it.kind == Services {
      LastServiceId(log, start, it.id);
      SameLinkShows(s, r, LastService(log, start, it.id), it.id);
    }
  }

  lemma SameLinkShows(s: State, r: State, last: Option<Service>, key: string)
    requires Valid(s) && Valid(r) && r.team == s.team && Find(r.services, ServiceId, key) == Find(s.services, ServiceId, key)
    requires Shows(s, last, Find(s.services, ServiceId, key))
    ensures Shows(r, last, Find(r.services, ServiceId, key))
  {
    hide Valid, IndexOf, ServiceOk, Shown;
    if last.Some? {
      StoredServiceOk(s, key);
      StoredServiceOk(r, key);
      assert KeptBySome(s, last.value) <==> KeptBySome(r, last.value);
      ShowsStays(s, r, last.value, Find(s.services, ServiceId, key).value);
    }
  }

  lemma LocalExplained(s: State, r: State, start: State, log: seq<Entry>)
    requires Valid(s) && Valid(r) && r.team == s.team && SharedExplained(start, log, s)
    requires forall it :: O.Shared(s, it) ==> SameRecord(s, r, it)
    ensures SharedExplained(start, log, r)
  {
    hide Valid, Version, Statuses, SameRecord;
    forall it | O.Shared(r, it) ensures Version(start, log, r, it) {
      assert O.Shared(s, it);
      LocalVersion(s, r, start, log, it);
    }
    forall i | 0 <= i < |start.team| ensures Statuses(start, log, r, i) {
      SameTeamStatuses(s, r, start, log, i);
    }
  }

  lemma SameTeamStatuses(a: State, b: State, start: State, log: seq<Entry>, i: nat)
    requires b.team == a.team && |start.team| == |a.team| && i < |start.team| && Statuses(start, log, a, i)
    ensures Statuses(start, log, b, i)
  {
    hide Holds, EverShared;
  }

  // ---------------------------------------------------------------- whole runs

  /** Updates that can be performed one after the other, each leaving shared records to the poller. */
  predicate Orderly(start: State, actions: seq<A.Action>)
    decreases |actions|, 0
  {
    actions == [] || (
      var n := |actions| - 1;
      && Orderly(start, actions[..n])
      && A.Supplied(actions[n])
      && A.FreshFor(After(start, actions[..n]), actions[n])
      && (actions[n].Follow? || Local(After(start, actions[..n]), actions[n])))
  }

  function After(start: State, actions: seq<A.Action>): State
    requires Orderly(start, actions)
    decreases |actions|, 1
  {
    if actions == [] then start else A.Perform(After(start, actions[..|actions| - 1]), actions[|actions| - 1])
  }

  function Added(s: State, a: A.Action): seq<Entry> {
    if a.Follow? && CommitsFeed(s, a.step) then [Entry(T.Target(s.team, a.step.source), a.step.fetch.feed)] else []
  }

  /** The feeds a run committed, in order. */
  function Feeds(start: State, actions: seq<A.Action>): seq<Entry>
    requires Orderly(start, actions)
  {
    if actions == [] then []
    else
      var n := |actions| - 1;
      Feeds(start, actions[..n]) + Added(After(start, actions[..n]), actions[n])
  }

  lemma ExplainedFirst(start: State)
    ensures SharedExplained(start, [], start)
  {
    hide IndexOf;
  }

  lemma FollowExplained(s: State, step: T.Step, start: State, log: seq<Entry>)
    requires Sound(s) && Verified(step) && SharedExplained(start, log, s)
    ensures SharedExplained(start, log + Added(s, A.Follow(step)), T.Next(s, step))
  {
    hide Verified, SharedExplained, Situation, Quiet, T.Next, Applied, Valid, UniqueIds, Owned;
    if CommitsFeed(s, step) {
      ApplyStep(s, step);
      FeedExplained(s, T.Target(s.team, step.source), step.fetch.feed, step.now, start, log);
    } else {
      OnlyStatusChanges(s, step);
      assert log + [] == log;
      QuietExplained(s, T.Next(s, step), start, log);
    }
  }

  /** The last-writer theorem with local use in between: after any run each shared record is its
      version in the last committed feed that held it, key paths are local, kept links have the
      present port, and an item is current exactly when the last committed feed of its subscription
      holds it. */
  lemma {:induction false} SharedLastWriter(start: State, actions: seq<A.Action>)
    requires Sound(start) && Orderly(start, actions)
    ensures Sound(After(start, actions)) && SharedExplained(start, Feeds(start, actions), After(start, actions))
  {
    hide Sound, SharedExplained, A.Perform, Local, A.FreshFor, Verified, CommitsFeed, T.Next;
    if actions == [] {
      ExplainedFirst(start);
    } else {
      var n := |actions| - 1;
      var s, a, log := After(start, actions[..n]), actions[n], Feeds(start, actions[..n]);
      SharedLastWriter(start, actions[..n]);
      if a.Follow? {
        FollowIs(s, a);
        StepKeepsSound(s, a.step);
        FollowExplained(s, a.step, start, log);
      } else {
        LocalKeeps(s, a);
        SoundIsValid(s);
        SoundIsValid(A.Perform(s, a));
        assert log + [] == log;
        LocalExplained(s, A.Perform(s, a), start, log);
      }
    }
  }

  lemma FollowIs(s: State, a: A.Action)
    requires A.Supplied(a) && a.Follow?
    ensures A.Perform(s, a) == T.Next(s, a.step) && Verified(a.step)
  {
    hide T.Next, Verified;
  }
}
