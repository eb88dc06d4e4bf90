/**
 The last-writer theorem: the configuration after any run of the poller, described only by where
 it started and by the feeds that were committed.
 */
module LastWriter {
  import opened Wrappers
  import opened Text
  import opened Records
  import opened Model
  import opened Store
  import opened Sync
  import opened FeedSound
  import opened Bundles
  import opened Ownership
  import opened Team
  import opened TeamRun

  /** The version of a record in the last committed feed that holds it, or the one at the start. */
  function LastHost(log: seq<Entry>, start: State, key: string): Option<Host> {
    if log == [] then Find(start.hosts, HostId, key)
    else Or(Find(log[|log| - 1].feed.hosts, HostId, key), LastHost(log[..|log| - 1], start, key))
  }

  function LastTunnel(log: seq<Entry>, start: State, key: string): Option<Tunnel> {
    if log == [] then Find(start.tunnels, TunnelId, key)
    else Or(Find(log[|log| - 1].feed.tunnels, TunnelId, key), LastTunnel(log[..|log| - 1], start, key))
  }

  /** Keys come with the path their file has on this machine. */
  function LastKey(log: seq<Entry>, start: State, key: string): Option<Key> {
    if log == [] then Find(start.keys, KeyId, key)
    else
      match Find(log[|log| - 1].feed.keys, KeyId, key)
      case Some(k) => Some(k.(path := LocalPath(start.keys, key)))
      case None => LastKey(log[..|log| - 1], start, key)
  }

  function LastService(log: seq<Entry>, start: State, key: string): Option<Service> {
    if log == [] then Find(start.services, ServiceId, key)
    else Or(Find(log[|log| - 1].feed.services, ServiceId, key), LastService(log[..|log| - 1], start, key))
  }

  /** A service link that some subscription keeps although it left the feed. */
  ghost predicate KeptBySome(s: State, v: Service) {
    exists i :: 0 <= i < |s.team| && Kept(s.team[i].items, v)
  }

  /** A kept link with the port its tunnel has now. */
  ghost function Shown(s: State, v: Service): Service {
    if KeptBySome(s, v) && Has(s.tunnels, TunnelId, v.tunnelId) && v.url.Url?
    then v.(url := WithPort(v.url, Find(s.tunnels, TunnelId, v.tunnelId).value.localPort))
    else v
  }

  /** The stored link is its last version; if it is kept, the port may have been rewritten to the
      present one. */
  ghost predicate Shows(s: State, last: Option<Service>, now: Option<Service>) {
    match last
    case None => now.None?
    case Some(v) => now == Some(v) || now == Some(Shown(s, v))
  }

  /** A key is its last version under the path it always had here; feeds never add keys. */
  ghost predicate KeyVersion(start: State, log: seq<Entry>, s: State, key: string) {
    && Find(s.keys, KeyId, key) == LastKey(log, start, key)
    && (Has(s.keys, KeyId, key) <==> Has(start.keys, KeyId, key))
    && LocalPath(s.keys, key) == LocalPath(start.keys, key)
  }

  /** The record of this id is its last version. */
  ghost predicate Versions(start: State, log: seq<Entry>, s: State, key: string) {
    && Find(s.hosts, HostId, key) == LastHost(log, start, key)
    && Find(s.tunnels, TunnelId, key) == LastTunnel(log, start, key)
    && KeyVersion(start, log, s, key)
    && Shows(s, LastService(log, start, key), Find(s.services, ServiceId, key))
  }

  /** The last committed feed of one subscription. */
  function LastFeed(log: seq<Entry>, i: nat): Option<State> {
    if log == [] then None
    else if log[|log| - 1].index == i then Some(log[|log| - 1].feed)
    else LastFeed(log[..|log| - 1], i)
  }

  /** An item ever shared through this subscription. */
  ghost predicate EverShared(log: seq<Entry>, start: State, i: nat, it: Item)
    requires i < |start.team|
  {
    it in start.team[i].items || exists j :: 0 <= j < |log| && log[j].index == i && Holds(log[j].feed, it)
  }

  /** The subscription lists everything it ever shared; an item is current exactly when the last
      committed feed holds it. */
  ghost predicate Statuses(start: State, log: seq<Entry>, s: State, i: nat)
    requires i < |start.team| && |s.team| == |start.team|
  {
    && (forall it :: it in s.team[i].items <==> EverShared(log, start, i, it))
    && match LastFeed(log, i)
       case None => s.team[i].items == start.team[i].items
       case Some(feed) => forall it <- s.team[i].items :: s.team[i].items[it] == Current <==> Holds(feed, it)
  }

  ghost predicate SameIds<T>(before: seq<T>, after: seq<T>, id: T -> string) {
    |before| <= |after| && forall i :: 0 <= i < |before| ==> id(after[i]) == id(before[i])
  }

  /** Nothing was deleted or moved. */
  ghost predicate Stable(before: State, after: State) {
    && SameIds(before.hosts, after.hosts, HostId) && SameIds(before.keys, after.keys, KeyId)
    && SameIds(before.tunnels, after.tunnels, TunnelId) && SameIds(before.services, after.services, ServiceId)
    && after.settings == before.settings && |after.team| == |before.team|
  }

  // ---------------------------------------------------------------- one step

  lemma WidenLog(log: seq<Entry>, e: Entry, start: State, key: string)
    ensures LastHost(log + [e], start, key) == Or(Find(e.feed.hosts, HostId, key), LastHost(log, start, key))
    ensures LastTunnel(log + [e], start, key) == Or(Find(e.feed.tunnels, TunnelId, key), LastTunnel(log, start, key))
    ensures LastService(log + [e], start, key) == Or(Find(e.feed.services, ServiceId, key), LastService(log, start, key))
    ensures LastKey(log + [e], start, key) ==
      match Find(e.feed.keys, KeyId, key) {
        case Some(k) => Some(k.(path := LocalPath(start.keys, key)))
        case None => LastKey(log, start, key)
      }
  {
    hide IndexOf;
    assert (log + [e])[..|log|] == log;
  }

  /** A link that stays as it is in a checked configuration has the port its tunnel has now. */
  lemma ShowsStays(s: State, r: State, v: Service, now: Service)
    requires Shows(s, Some(v), Some(now)) && ServiceOk(s.tunnels, now) && ServiceOk(r.tunnels, now)
    requires KeptBySome(s, v) ==> KeptBySome(r, v)
    ensures Shows(r, Some(v), Some(now))
  {
    hide IndexOf, KeptBySome, Name, Env;
    if now != v {
      var p, q := Find(s.tunnels, TunnelId, v.tunnelId).value.localPort, Find(r.tunnels, TunnelId, v.tunnelId).value.localPort;
      assert EffectivePort(now.url) == Itoa(q);
      ItoaText(p);
    }
  }

  lemma ItoaText(n: int)
    ensures Itoa(n) != ""
  {
  }

  /** A kept link that is retargeted gets the port its tunnel has now. */
  lemma ShowsRetargeted(s: State, r: State, marks: map<Item, Mark>, v: Service, now: Service)
    requires Shows(s, Some(v), Some(now)) && Kept(marks, now) && KeptBySome(r, v)
    requires Has(r.tunnels, TunnelId, now.tunnelId) && now.url.Url?
    ensures Shows(r, Some(v), Some(Retargeted(r.tunnels, marks, now)))
  {
    hide IndexOf, KeptBySome;
  }

  lemma StoredServiceOk(s: State, key: string)
    requires Valid(s) && Has(s.services, ServiceId, key)
    ensures ServiceOk(s.tunnels, Find(s.services, ServiceId, key).value) && Find(s.services, ServiceId, key).value.id == key
  {
    hide ServiceOk;
    HasWitness(s.services, ServiceId, key);
  }

  /** Links that left the feed are marked, and marks of other subscriptions stay. */
  lemma MarksStay(s: State, index: nat, feed: State, now: string, v: Service)
    requires index < |s.team| && !Has(feed.services, ServiceId, v.id)
    ensures KeptBySome(s, v) ==> KeptBySome(Applied(s, index, feed, now), v)
    ensures Kept(Marks(s.team[index].items, feed), v) ==> KeptBySome(Applied(s, index, feed, now), v)
  {
    NotKept(s.team[index].items, feed, v);
    hide IndexOf, Has, Synced, Localized, RetargetAll, Marks;
    var r := Applied(s, index, feed, now);
    assert r.team[index].items == Marks(s.team[index].items, feed);
    if KeptBySome(s, v) {
      var i: nat :| i < |s.team| && Kept(s.team[i].items, v);
      assert Kept(r.team[i].items, v);
    }
  }

  /** A kept link of this subscription can be retargeted. */
  lemma KeptRetargets(s: State, index: nat, feed: State, now: string, v: Service)
    requires Situation(s, index, feed) && v in s.services && !Has(feed.services, ServiceId, v.id)
    requires Kept(Marks(s.team[index].items, feed), v)
    ensures Has(Applied(s, index, feed, now).tunnels, TunnelId, v.tunnelId) && v.url.Url?
  {
    SyncedHolds(s.services, feed.services, ServiceId);
    hide IndexOf, Valid, Synced, Marks, Syncable, Localized, RetargetAll, Has, Find;
  }

  /** A link outside the feed keeps its last version. */
  lemma OutOfFeedShows(s: State, index: nat, feed: State, now: string, v: Service, key: string)
    requires Situation(s, index, feed) && Valid(Applied(s, index, feed, now)) && !Has(feed.services, ServiceId, key)
    requires Has(s.services, ServiceId, key) && Shows(s, Some(v), Find(s.services, ServiceId, key)) && v.id == key
    ensures var r := Applied(s, index, feed, now);
      Shows(r, Some(v), Find(r.services, ServiceId, key))
  {
    var r := Applied(s, index, feed, now);
    var marks, link := Marks(s.team[index].items, feed), Find(s.services, ServiceId, key).value;
    ServiceLookup(s, index, feed, now, key);
    StoredServiceOk(s, key);
    MarksStay(s, index, feed, now, v);
    HasWitness(s.services, ServiceId, key);
    assert Kept(marks, link) <==> Kept(marks, v);
    if Kept(marks, link) {
      KeptRetargets(s, index, feed, now, link);
      hide *;
      ShowsRetargeted(s, r, marks, v, link);
    } else {
      assert Find(r.services, ServiceId, key) == Some(link);
      StoredServiceOk(r, key);
      hide *;
      ShowsStays(s, r, v, link);
    }
  }

  /** What a feed leaves of a link whose last version so far is `last`. */
  lemma FeedShows(s: State, index: nat, feed: State, now: string, last: Option<Service>, key: string)
    requires Situation(s, index, feed) && Valid(Applied(s, index, feed, now))
    requires last.Some? ==> last.value.id == key
    requires Has(feed.services, ServiceId, key) || Shows(s, last, Find(s.services, ServiceId, key))
    ensures var r := Applied(s, index, feed, now);
      Shows(r, Or(Find(feed.services, ServiceId, key), last), Find(r.services, ServiceId, key))
  {
    var r := Applied(s, index, feed, now);
    ServiceLookup(s, index, feed, now, key);
    if Has(feed.services, ServiceId, key) {
      HasWitness(feed.services, ServiceId, key);
      InFeedStays(s, index, feed, now, Find(feed.services, ServiceId, key).value);
    } else if last.Some? {
      hide Situation, Applied, Valid, Shown;
      OutOfFeedShows(s, index, feed, now, last.value, key);
    }
  }

  lemma ServiceVersion(s: State, index: nat, feed: State, now: string, start: State, log: seq<Entry>, key: string)
    requires Situation(s, index, feed) && Valid(Applied(s, index, feed, now))
    requires Has(feed.services, ServiceId, key) || Shows(s, LastService(log, start, key), Find(s.services, ServiceId, key))
    ensures var r := Applied(s, index, feed, now);
      Shows(r, Or(Find(feed.services, ServiceId, key), LastService(log, start, key)), Find(r.services, ServiceId, key))
  {
    hide Situation, Applied, Valid, Shows, Find, Has;
    LastServiceId(log, start, key);
    FeedShows(s, index, feed, now, LastService(log, start, key), key);
  }

  lemma {:induction false} LastServiceId(log: seq<Entry>, start: State, key: string)
    ensures LastService(log, start, key).Some? ==> LastService(log, start, key).value.id == key
  {
    hide IndexOf;
    if log == [] {
      HasWitness(start.services, ServiceId, key);
    } else {
      HasWitness(log[|log| - 1].feed.services, ServiceId, key);
      LastServiceId(log[..|log| - 1], start, key);
    }
  }

  /** A link in the feed is taken as the feed has it. */
  lemma InFeedStays(s: State, index: nat, feed: State, now: string, v: Service)
    requires index < |s.team| && Has(feed.services, ServiceId, v.id)
    ensures Retargeted(Applied(s, index, feed, now).tunnels, Marks(s.team[index].items, feed), v) == v
  {
    NotKept(s.team[index].items, feed, v);
    hide Marks, Applied, WithPort;
  }

  /** Where kept links followed their tunnels, a link is exactly its last version with the present port. */
  lemma ShowsExact(s: State, v: Service, now: Service)
    requires Shows(s, Some(v), Some(now)) && Follows(s) && now in s.services
    ensures now == Shown(s, v)
  {
    hide IndexOf;
    if now == v && KeptBySome(s, v) {
      assert OnPort(s.tunnels, v);
    }
  }

  lemma KeyVersionStep(s: State, index: nat, feed: State, now: string, start: State, log: seq<Entry>, key: string)
    requires Situation(s, index, feed) && KeyVersion(start, log, s, key)
    ensures KeyVersion(start, log + [Entry(index, feed)], Applied(s, index, feed, now), key)
  {
    KeyLookup(s, index, feed, now, key);
    KeyInFeedStored(s, index, feed, key);
    hide Situation, Applied, LastHost, LastTunnel, LastService, LastKey, IndexOf;
    WidenLog(log, Entry(index, feed), start, key);
  }

  lemma HostVersionStep(s: State, index: nat, feed: State, now: string, start: State, log: seq<Entry>, key: string)
    requires Situation(s, index, feed) && (Has(feed.hosts, HostId, key) || Find(s.hosts, HostId, key) == LastHost(log, start, key))
    ensures Find(Applied(s, index, feed, now).hosts, HostId, key) == LastHost(log + [Entry(index, feed)], start, key)
  {
    HostLookup(s, index, feed, now, key);
    WidenLog(log, Entry(index, feed), start, key);
    hide Situation, Applied, LastHost, IndexOf;
  }

  lemma TunnelVersionStep(s: State, index: nat, feed: State, now: string, start: State, log: seq<Entry>, key: string)
    requires Situation(s, index, feed) && (Has(feed.tunnels, TunnelId, key) || Find(s.tunnels, TunnelId, key) == LastTunnel(log, start, key))
    ensures Find(Applied(s, index, feed, now).tunnels, TunnelId, key) == LastTunnel(log + [Entry(index, feed)], start, key)
  {
    TunnelLookup(s, index, feed, now, key);
    WidenLog(log, Entry(index, feed), start, key);
    hide Situation, Applied, LastTunnel, IndexOf;
  }

  lemma VersionsStep(s: State, index: nat, feed: State, now: string, start: State, log: seq<Entry>, key: string)
    requires Situation(s, index, feed) && Valid(Applied(s, index, feed, now)) && Versions(start, log, s, key)
    ensures Versions(start, log + [Entry(index, feed)], Applied(s, index, feed, now), key)
  {
    assert index < |s.team|;
    hide *;
    VersionsParts(start, log, s, key);
    KeyVersionStep(s, index, feed, now, start, log, key);
    ServiceVersion(s, index, feed, now, start, log, key);
    HostVersionStep(s, index, feed, now, start, log, key);
    TunnelVersionStep(s, index, feed, now, start, log, key);
    WidenLog(log, Entry(index, feed), start, key);
    VersionsParts(start, log + [Entry(index, feed)], Applied(s, index, feed, now), key);
  }

  lemma VersionsParts(start: State, log: seq<Entry>, s: State, key: string)
    ensures Versions(start, log, s, key) <==>
      && Find(s.hosts, HostId, key) == LastHost(log, start, key)
      && Find(s.tunnels, TunnelId, key) == LastTunnel(log, start, key)
      && KeyVersion(start, log, s, key)
      && Shows(s, LastService(log, start, key), Find(s.services, ServiceId, key))
  {
    hide Find, LastHost, LastTunnel, KeyVersion, Shows, LastService;
  }

  lemma KeyInFeedStored(s: State, index: nat, feed: State, key: string)
    requires Situation(s, index, feed)
    ensures Has(feed.keys, KeyId, key) ==> Has(s.keys, KeyId, key)
  {
    hide Valid, GoodIds;
    HasWitness(feed.keys, KeyId, key);
  }

  lemma QuietVersions(a: State, b: State, start: State, log: seq<Entry>, key: string)
    requires Quiet(a, b) && Versions(start, log, a, key)
    ensures Versions(start, log, b, key)
  {
    hide IndexOf, LastHost, LastTunnel, LastKey, LastService, WithPort;
    if LastService(log, start, key).Some? {
      var v := LastService(log, start, key).value;
      assert KeptBySome(a, v) <==> KeptBySome(b, v);
    }
  }

  lemma EverSharedStep(start: State, log: seq<Entry>, e: Entry, i: nat, it: Item)
    requires i < |start.team|
    ensures EverShared(log + [e], start, i, it) <==> EverShared(log, start, i, it) || (i == e.index && Holds(e.feed, it))
    ensures LastFeed(log + [e], i) == if e.index == i then Some(e.feed) else LastFeed(log, i)
  {
    hide Holds;
    var longer := log + [e];
    assert longer[..|log|] == log;
    if i == e.index && Holds(e.feed, it) { assert longer[|log|].index == i; }
    if j: nat :| j < |log| && log[j].index == i && Holds(log[j].feed, it) { assert longer[j] == log[j]; }
  }

  lemma StatusesStep(s: State, index: nat, feed: State, now: string, start: State, log: seq<Entry>, i: nat)
    requires Situation(s, index, feed) && |start.team| == |s.team| && i < |s.team| && Statuses(start, log, s, i)
    ensures Statuses(start, log + [Entry(index, feed)], Applied(s, index, feed, now), i)
  {
    hide Situation, Applied, EverShared, LastFeed, Holds;
    ItemsStep(s, index, feed, now, i);
    forall it
      ensures EverShared(log + [Entry(index, feed)], start, i, it) <==> EverShared(log, start, i, it) || (i == index && Holds(feed, it))
      ensures LastFeed(log + [Entry(index, feed)], i) == if index == i then Some(feed) else LastFeed(log, i)
    {
      EverSharedStep(start, log, Entry(index, feed), i, it);
    }
  }

  lemma SameIdsTransitive<T>(a: seq<T>, b: seq<T>, c: seq<T>, id: T -> string)
    requires SameIds(a, b, id) && SameIds(b, c, id)
    ensures SameIds(a, c, id)
  {
  }

  lemma StableStep(s: State, index: nat, feed: State, now: string, start: State)
    requires Situation(s, index, feed) && Stable(start, s)
    ensures Stable(start, Applied(s, index, feed, now))
  {
    var r := Applied(s, index, feed, now);
    FeedLeavesOthers(s, index, feed, now);
    assert SameIds(s.hosts, r.hosts, HostId) && SameIds(s.keys, r.keys, KeyId);
    assert SameIds(s.tunnels, r.tunnels, TunnelId) && SameIds(s.services, r.services, ServiceId);
    hide *;
    StableThrough(start, s, r);
  }

  lemma StableThrough(a: State, b: State, c: State)
    requires Stable(a, b) && |c.team| == |b.team| && c.settings == b.settings
    requires SameIds(b.hosts, c.hosts, HostId) && SameIds(b.keys, c.keys, KeyId)
    requires SameIds(b.tunnels, c.tunnels, TunnelId) && SameIds(b.services, c.services, ServiceId)
    ensures Stable(a, c)
  {
    hide SameIds;
    SameIdsTransitive(a.hosts, b.hosts, c.hosts, HostId);
    SameIdsTransitive(a.keys, b.keys, c.keys, KeyId);
    SameIdsTransitive(a.tunnels, b.tunnels, c.tunnels, TunnelId);
    SameIdsTransitive(a.services, b.services, c.services, ServiceId);
  }

  // ---------------------------------------------------------------- whole runs

  /** What a run leaves behind, in terms of its start and of the feeds it committed. */
  ghost predicate Explained(start: State, log: seq<Entry>, s: State) {
    && Stable(start, s)
    && (forall key :: Versions(start, log, s, key))
    && (forall i :: 0 <= i < |start.team| ==> Statuses(start, log, s, i))
  }

  lemma ExplainedAtStart(start: State)
    ensures Explained(start, [], start)
  {
    hide IndexOf;
  }

  lemma ExplainedStep(start: State, log: seq<Entry>, s: State, step: Step)
    requires Valid(s) && UniqueIds(s) && Verified(step) && Explained(start, log, s)
    ensures Explained(start, log + if CommitsFeed(s, step) then [Entry(Target(s.team, step.source), step.fetch.feed)] else [], Next(s, step))
  {
    hide UniqueIds, Verified, Versions, Statuses, Situation, Quiet, Next, Applied, Valid;
    if CommitsFeed(s, step) {
      var i := Target(s.team, step.source);
      var feed := step.fetch.feed;
      ApplyStep(s, step);
      StableStep(s, i, feed, step.now, start);
      forall key ensures Versions(start, log + [Entry(i, feed)], Applied(s, i, feed, step.now), key) {
        VersionsStep(s, i, feed, step.now, start, log, key);
      }
      forall j | 0 <= j < |start.team| ensures Statuses(start, log + [Entry(i, feed)], Applied(s, i, feed, step.now), j) {
        StatusesStep(s, i, feed, step.now, start, log, j);
      }
    } else {
      var r := Next(s, step);
      OnlyStatusChanges(s, step);
      assert log + [] == log;
      QuietStable(start, s, r);
      forall key ensures Versions(start, log, r, key) {
        QuietVersions(s, r, start, log, key);
      }
      forall i | 0 <= i < |start.team| ensures Statuses(start, log, r, i) {
        QuietStatuses(s, r, start, log, i);
      }
    }
  }

  lemma SoundIsValid(s: State)
    requires Sound(s)
    ensures Valid(s) && UniqueIds(s)
  {
  }

  lemma QuietStable(start: State, a: State, b: State)
    requires Quiet(a, b) && Stable(start, a)
    ensures Stable(start, b)
  {
  }

  lemma QuietStatuses(a: State, b: State, start: State, log: seq<Entry>, i: nat)
    requires Quiet(a, b) && |start.team| == |a.team| && i < |start.team| && Statuses(start, log, a, i)
    ensures Statuses(start, log, b, i)
  {
    hide Holds, EverShared;
  }

  /** The last-writer theorem, for every checked start with unique identifiers. */
  lemma {:induction false} LastWriterWins(start: State, steps: seq<Step>)
    requires Valid(start) && UniqueIds(start) && forall step <- steps :: Verified(step)
    ensures Valid(Run(start, steps)) && UniqueIds(Run(start, steps)) && Explained(start, Log(start, steps), Run(start, steps))
  {
    hide Valid, UniqueIds, Verified, Explained, Next, CommitsFeed, Target;
    if steps == [] {
      ExplainedAtStart(start);
    } else {
      var n := |steps| - 1;
      assert steps[n] in steps;
      LastWriterWins(start, steps[..n]);
      StepKeepsIds(Run(start, steps[..n]), steps[n]);
      ExplainedStep(start, Log(start, steps[..n]), Run(start, steps[..n]), steps[n]);
    }
  }

  /** From a start whose shared links hang on shared tunnels and whose kept links follow them, every
      link is exactly its last version, and a kept one has the port its tunnel has now. */
  lemma KeptLinksFollow(start: State, steps: seq<Step>, key: string)
    requires Sound(start) && Attached(start) && forall step <- steps :: Verified(step)
    ensures Find(Run(start, steps).services, ServiceId, key) ==
      match LastService(Log(start, steps), start, key) {
        case None => None
        case Some(v) => Some(Shown(Run(start, steps), v))
      }
  {
    var s, log := Run(start, steps), Log(start, steps);
    SoundIsValid(start);
    hide Sound, Valid, UniqueIds, Verified, Run, Log, Shown, LastService, Versions;
    LastWriterWins(start, steps);
    RunKeepsSound(start, steps);
    VersionsParts(start, log, s, key);
    HasWitness(s.services, ServiceId, key);
    if LastService(log, start, key).Some? {
      ShowsExact(s, LastService(log, start, key).value, Find(s.services, ServiceId, key).value);
    }
  }
}
