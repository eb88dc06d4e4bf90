/**
 Whole runs of the poller: after any sequence of polls, failed fetches, conflicts, pauses and
 address changes, every shared record is the version of the last applied feed that held it.
 */
module TeamRun {
  import opened Wrappers
  import opened Text
  import opened Records
  import opened Model
  import opened Store
  import opened Sync
  import opened FeedSound
  import opened Bundles
  import opened Ownership
  import opened Team

  /** A feed that was committed, and the subscription it was for. */
  datatype Entry = Entry(index: nat, feed: State)

  /** Feeds are checked on arrival, before the poll's update. */
  predicate Verified(step: Step) {
    step.Poll? && step.fetch.Fetched? ==> Valid(step.fetch.feed)
  }

  predicate CommitsFeed(s: State, step: Step) {
    && step.Poll? && step.fetch.Fetched?
    && Target(s.team, step.source) < |s.team|
    && PollCommits(s, step.source, step.fetch, step.now)
  }

  function Run(s: State, steps: seq<Step>): State {
    if steps == [] then s else Next(Run(s, steps[..|steps| - 1]), steps[|steps| - 1])
  }

  /** The feeds a run committed, in order. */
  function Log(s: State, steps: seq<Step>): seq<Entry> {
    if steps == [] then []
    else
      var before := Run(s, steps[..|steps| - 1]);
      var step := steps[|steps| - 1];
      Log(s, steps[..|steps| - 1]) +
      if CommitsFeed(before, step) then [Entry(Target(before.team, step.source), step.fetch.feed)] else []
  }

  // ---------------------------------------------------------------- what every step keeps

  /** A shared service is shared together with its tunnel. */
  ghost predicate Together(s: State) {
    forall i, v :: 0 <= i < |s.team| && v in s.services && Item(Services, v.id) in s.team[i].items ==>
      Item(Tunnels, v.tunnelId) in s.team[i].items
  }

  /** The link points at the local end of its tunnel as stored now. */
  predicate OnPort(tunnels: seq<Tunnel>, v: Service) {
    Has(tunnels, TunnelId, v.tunnelId) && v.url.Url?
    && v.url == WithPort(v.url, Find(tunnels, TunnelId, v.tunnelId).value.localPort)
  }

  /** Every kept link follows its tunnel. */
  ghost predicate Follows(s: State) {
    forall i, v :: 0 <= i < |s.team| && v in s.services && Kept(s.team[i].items, v) ==> OnPort(s.tunnels, v)
  }

  /** Shared services hang on shared tunnels, and kept links follow them. */
  ghost predicate Attached(s: State) { Together(s) && Follows(s) }

  ghost predicate Sound(s: State) {
    Valid(s) && UniqueIds(s) && Owned(s)
  }

  /** The configuration and the ownership of two states agree; status texts may differ. */
  ghost predicate Quiet(a: State, b: State) {
    && a.hosts == b.hosts && a.keys == b.keys && a.tunnels == b.tunnels && a.services == b.services
    && a.settings == b.settings && |a.team| == |b.team|
    && forall i :: 0 <= i < |a.team| ==> a.team[i].items == b.team[i].items && SubKey(a.team[i]) == SubKey(b.team[i])
  }

  lemma QuietKeeps(a: State, b: State)
    requires Quiet(a, b) && Sound(a)
    ensures Sound(b) && (Attached(a) ==> Attached(b))
  {
    hide IndexOf, ValidHost, ValidTunnel, ValidService, ValidKey, Walk;
    forall it ensures Holds(b, it) <==> Holds(a, it) {}
    forall i, j | 0 <= i < j < |b.team| ensures SubKey(b.team[i]) != SubKey(b.team[j]) {
      assert SubKey(a.team[i]) != SubKey(a.team[j]);
    }
  }

  lemma PollStatus(s: State, source: Source, fetch: Fetch, now: string, conflict: string)
    requires !CommitsFeed(s, Poll(source, fetch, now, conflict))
    ensures var r := Polled(s, source, fetch, now, conflict);
      && Quiet(s, r)
      && (forall i :: 0 <= i < |s.team| ==> r.team[i] == s.team[i].(error := r.team[i].error))
  {
    hide FeedResult, Valid, Target, IndexOf;
    var i := Target(s.team, source);
    var r := Polled(s, source, fetch, now, conflict);
    if PollCommits(s, source, fetch, now) {
      assert i == |s.team| || fetch.Failed?;
      assert r.hosts == s.hosts;
    } else {
      var marked := s.(team := MarkConflict(s.team, source, conflict));
      assert r == marked || r == s;
    }
  }

  lemma ControlStatus(s: State, feedId: string, change: Subscription -> Subscription)
    requires forall sub :: change(sub).items == sub.items && SubKey(change(sub)) == SubKey(sub)
    ensures var r := Controlled(s, feedId, change);
      Quiet(s, r) && forall i :: 0 <= i < |s.team| ==> r.team[i] == s.team[i] || r.team[i] == change(s.team[i])
  {
    hide Valid, IndexOf;
  }

  /** A poll that applies nothing changes only error texts; the controls change only the pause
      mark or the address. */
  lemma OnlyStatusChanges(s: State, step: Step)
    requires !CommitsFeed(s, step)
    ensures var r := Next(s, step);
      && Quiet(s, r)
      && (step.Poll? ==> forall i :: 0 <= i < |s.team| ==> r.team[i] == s.team[i].(error := r.team[i].error))
      && (!step.Poll? ==> forall i :: 0 <= i < |s.team| ==>
            r.team[i] == s.team[i].(paused := r.team[i].paused, source := s.team[i].source.(url := r.team[i].source.url)))
  {
    hide Quiet, Polled, Controlled;
    match step
    case Poll(source, fetch, now, conflict) => PollStatus(s, source, fetch, now, conflict);
    case Pause(feedId) => ControlStatus(s, feedId, SetPaused(true));
    case Resume(feedId) => ControlStatus(s, feedId, SetPaused(false));
    case Address(feedId, url) => ControlStatus(s, feedId, SetUrl(url));
  }

  lemma ApplyStep(s: State, step: Step)
    requires CommitsFeed(s, step) && Verified(step) && Valid(s) && UniqueIds(s)
    ensures var i := Target(s.team, step.source);
      && Situation(s, i, step.fetch.feed)
      && Next(s, step) == Applied(s, i, step.fetch.feed, step.now) && Valid(Next(s, step))
  {
    hide Valid, Accepts, Applied, UniqueIds, Target;
  }

  /** What a feed does to the items of one subscription. */
  lemma ItemsStep(s: State, index: nat, feed: State, now: string, i: nat)
    requires Situation(s, index, feed) && i < |s.team|
    ensures var r := Applied(s, index, feed, now);
      && |r.team| == |s.team|
      && (i != index ==> r.team[i] == s.team[i])
      && (i == index ==> forall it ::
            && (it in r.team[i].items <==> it in s.team[i].items || Holds(feed, it))
            && (it in r.team[i].items ==> (r.team[i].items[it] == Current <==> Holds(feed, it))))
  {
    hide IndexOf, Valid, Synced, UniqueIds, Accepts, Localized, RetargetAll, Holds;
  }

  lemma TunnelHeld(feed: State, w: Service)
    requires Valid(feed) && w in feed.services
    ensures Holds(feed, Item(Tunnels, w.tunnelId)) && Holds(feed, Item(Services, w.id))
  {
    assert ServiceOk(feed.tunnels, w) by { hide ServiceOk, HostOk, TunnelOk, ValidKey, Unique; }
    HasMember(feed.services, ServiceId, w);
    hide IndexOf, ValidService;
  }

  lemma SharedWithTunnel(s: State, index: nat, feed: State, now: string, w: Service, i: nat)
    requires Situation(s, index, feed) && Owned(s) && Together(s) && i < |s.team|
    requires w in feed.services || (w in s.services && !Has(feed.services, ServiceId, w.id))
    requires Item(Services, w.id) in Applied(s, index, feed, now).team[i].items
    ensures Item(Tunnels, w.tunnelId) in Applied(s, index, feed, now).team[i].items
  {
    ItemsStep(s, index, feed, now, i);
    hide Applied, Applies, Owned, IndexOf, Has;
    if w in feed.services {
      TunnelHeld(feed, w);
      if i != index { NotInFeed(s, index, feed, i, Item(Services, w.id)); }
    }
    hide Valid;
  }

  lemma FeedTogether(s: State, index: nat, feed: State, now: string)
    requires Situation(s, index, feed) && Owned(s) && Together(s)
    ensures Together(Applied(s, index, feed, now))
  {
    hide IndexOf, Synced, Valid, Localized, Has, Find, WithPort, Marks, Accepts, Owned, Together, Retargeted;
    var r := Applied(s, index, feed, now);
    var merged := Synced(s.services, feed.services, ServiceId);
    forall i, v | 0 <= i < |r.team| && v in r.services && Item(Services, v.id) in r.team[i].items
      ensures Item(Tunnels, v.tunnelId) in r.team[i].items
    {
      var j :| 0 <= j < |r.services| && r.services[j] == v;
      assert merged[j] in merged && v == Retargeted(r.tunnels, Marks(s.team[index].items, feed), merged[j]);
      RetargetedOnPort(r.tunnels, Marks(s.team[index].items, feed), merged[j]);
      SyncedMembers(s.services, feed.services, ServiceId, merged[j]);
      SharedWithTunnel(s, index, feed, now, merged[j], i);
    }
    assert Together(r) by { IsTogether(r); }
  }

  lemma IsTogether(s: State)
    requires forall i, v :: 0 <= i < |s.team| && v in s.services && Item(Services, v.id) in s.team[i].items ==>
      Item(Tunnels, v.tunnelId) in s.team[i].items
    ensures Together(s)
  {
  }

  /** A record another subscription owns is not in this feed. */
  lemma NotInFeed(s: State, index: nat, feed: State, i: nat, it: Item)
    requires Situation(s, index, feed) && Owned(s) && i < |s.team| && i != index && it in s.team[i].items
    ensures !Holds(feed, it) && it !in s.team[index].items
  {
    hide Valid, UniqueIds, Accepts, Holds;
    assert Holds(s, it);
    assert it !in s.team[index].items;
    FeedHolds(s, index, feed, "", it);
  }

  lemma FeedFollows(s: State, index: nat, feed: State, now: string)
    requires Situation(s, index, feed) && Owned(s) && Together(s) && Follows(s)
    ensures Follows(Applied(s, index, feed, now))
  {
    var r := Applied(s, index, feed, now);
    forall i, v | 0 <= i < |r.team| && v in r.services && Kept(r.team[i].items, v)
      ensures OnPort(r.tunnels, v)
    {
      if i == index {
        OwnKeptFollow(s, index, feed, now, v);
      } else {
        OtherKeptFollow(s, index, feed, now, i, v);
      }
    }
  }

  lemma OwnKeptFollow(s: State, index: nat, feed: State, now: string, v: Service)
    requires Situation(s, index, feed)
    requires v in Applied(s, index, feed, now).services && Kept(Marks(s.team[index].items, feed), v)
    ensures OnPort(Applied(s, index, feed, now).tunnels, v)
  {
    hide IndexOf, Synced, Valid, UniqueIds, Localized, Marks, Syncable, OnPort, Retargeted;
    var r := Applied(s, index, feed, now);
    var merged := Synced(s.services, feed.services, ServiceId);
    var j :| 0 <= j < |r.services| && r.services[j] == v;
    assert merged[j] in merged && v == Retargeted(r.tunnels, Marks(s.team[index].items, feed), merged[j]);
    RetargetedOnPort(r.tunnels, Marks(s.team[index].items, feed), merged[j]);
  }

  lemma RetargetedOnPort(tunnels: seq<Tunnel>, marks: map<Item, Mark>, w: Service)
    ensures Retargeted(tunnels, marks, w).id == w.id && Retargeted(tunnels, marks, w).tunnelId == w.tunnelId
    ensures Kept(marks, w) && Has(tunnels, TunnelId, w.tunnelId) && w.url.Url? ==> OnPort(tunnels, Retargeted(tunnels, marks, w))
  {
  }

  lemma OtherKeptFollow(s: State, index: nat, feed: State, now: string, i: nat, v: Service)
    requires Situation(s, index, feed) && Owned(s) && Together(s) && Follows(s)
    requires i < |s.team| && i != index
    requires v in Applied(s, index, feed, now).services && Kept(s.team[i].items, v)
    ensures v in s.services && OnPort(Applied(s, index, feed, now).tunnels, v)
  {
    var it := Item(Services, v.id);
    NotInFeed(s, index, feed, i, it);
    ServiceUnchanged(s, index, feed, now, v);
    assert OnPort(s.tunnels, v);
    NotInFeed(s, index, feed, i, Item(Tunnels, v.tunnelId));
    TunnelLookup(s, index, feed, now, v.tunnelId);
    hide IndexOf, Synced, Valid, UniqueIds, WithPort, Marks, Syncable;
  }

  lemma ServiceUnchanged(s: State, index: nat, feed: State, now: string, v: Service)
    requires Situation(s, index, feed)
    requires v in Applied(s, index, feed, now).services
    requires Item(Services, v.id) !in s.team[index].items && !Has(feed.services, ServiceId, v.id)
    ensures v in s.services
  {
    hide IndexOf, Synced, Valid, Localized, WithPort;
    var r := Applied(s, index, feed, now);
    var merged := Synced(s.services, feed.services, ServiceId);
    var j :| 0 <= j < |r.services| && r.services[j] == v;
    assert merged[j] in merged;
    SyncedMembers(s.services, feed.services, ServiceId, merged[j]);
    NotKept(s.team[index].items, feed, merged[j]);
    if merged[j] in feed.services { HasMember(feed.services, ServiceId, merged[j]); }
  }

  /** Every step keeps the configuration sound, and shared links attached to their tunnels. */
  lemma StepKeepsSound(s: State, step: Step)
    requires Sound(s) && Verified(step)
    ensures Sound(Next(s, step))
    ensures Attached(s) ==> Attached(Next(s, step))
  {
    hide Valid, UniqueIds, Applied, Owned, Together, Follows, Verified;
    if CommitsFeed(s, step) {
      var i := Target(s.team, step.source);
      ApplyStep(s, step);
      FeedKeepsOwnership(s, i, step.fetch.feed, step.now);
      FeedKeepsIds(s, i, step.fetch.feed, step.now);
      if Attached(s) {
        FeedTogether(s, i, step.fetch.feed, step.now);
        FeedFollows(s, i, step.fetch.feed, step.now);
      }
    } else {
      OnlyStatusChanges(s, step);
      QuietKeeps(s, Next(s, step));
    }
  }

  /** Every step keeps the configuration checked and identifiers unique, whatever subscriptions own. */
  lemma StepKeepsIds(s: State, step: Step)
    requires Valid(s) && UniqueIds(s) && Verified(step)
    ensures var r := Next(s, step); Valid(r) && UniqueIds(r) && (NamedIds(s) ==> NamedIds(r))
  {
    if CommitsFeed(s, step) {
      ApplyStep(s, step);
      hide Valid, Next, CommitsFeed, UniqueIds, NamedIds, Applied;
      FeedKeepsIds(s, Target(s.team, step.source), step.fetch.feed, step.now);
    } else {
      OnlyStatusChanges(s, step);
      hide Next, CommitsFeed, ValidHost, ValidTunnel, ValidService, ValidKey, Walk, IndexOf;
    }
  }

  lemma {:induction false} RunKeepsSound(s: State, steps: seq<Step>)
    requires Sound(s) && forall step <- steps :: Verified(step)
    ensures Sound(Run(s, steps))
    ensures Attached(s) ==> Attached(Run(s, steps))
  {
    if steps != [] {
      var n := |steps| - 1;
      assert steps[n] in steps;
      RunKeepsSound(s, steps[..n]);
      hide Sound, Attached, Next;
      StepKeepsSound(Run(s, steps[..n]), steps[n]);
    }
  }
}
