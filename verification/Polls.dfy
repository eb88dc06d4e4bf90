/**
 What one poll and one control of a subscription do, said of the stored subscription itself: a paused
 or re-addressed subscription is left alone, and every outcome of a poll is shown on it.
 */
module Polls {
  import opened Wrappers
  import opened Text
  import opened Records
  import opened Model
  import opened Store
  import opened Sync
  import opened Bundles
  import opened Team
  import opened TeamRun

  /** The first subscription that is not paused and still has the source the poll fetched from. */
  predicate PolledFor(team: seq<Subscription>, source: Source, i: nat) {
    && i < |team| && !team[i].paused && team[i].source == source
    && forall j :: 0 <= j < i ==> team[j].paused || team[j].source != source
  }

  lemma TargetIs(team: seq<Subscription>, source: Source)
    ensures forall i: nat :: PolledFor(team, source, i) <==> i < |team| && Target(team, source) == i
    ensures Target(team, source) == |team| <==> forall i :: 0 <= i < |team| ==> team[i].paused || team[i].source != source
  {
    forall i | 0 <= i < |team| ensures Matches(team[i], source) <==> !team[i].paused && team[i].source == source {}
    hide Matches;
  }

  lemma TeamFree(s: State, team: seq<Subscription>)
    requires Valid(s)
    ensures Valid(s.(team := team))
  {
    hide ValidKey, HostOk, TunnelOk, ServiceOk, Unique;
  }

  /** The outcome of a poll: nothing without such a subscription; the error of a failed fetch; a
      committed feed with its time and without error; or the conflict, on every subscription of that
      master, and nothing else. */
  lemma PollOutcome(s: State, source: Source, fetch: Fetch, now: string, conflict: string, i: nat)
    requires Valid(s)
    ensures var r := Polled(s, source, fetch, now, conflict);
      && ((forall j :: 0 <= j < |s.team| ==> s.team[j].paused || s.team[j].source != source) ==> r == s)
      && (PolledFor(s.team, source, i) && fetch.Failed? ==>
            r == s.(team := s.team[i := s.team[i].(error := fetch.message)]))
      && (PolledFor(s.team, source, i) && fetch.Fetched? && PollCommits(s, source, fetch, now) ==>
            && r == Applied(s, i, fetch.feed, now) && |r.team| == |s.team|
            && r.team[i] == s.team[i].(items := r.team[i].items, lastSync := now, error := "")
            && forall j :: 0 <= j < |s.team| && j != i ==> r.team[j] == s.team[j])
      && (PolledFor(s.team, source, i) && fetch.Fetched? && !PollCommits(s, source, fetch, now) ==>
            && r == s.(team := r.team) && |r.team| == |s.team|
            && forall j :: 0 <= j < |s.team| ==>
                 r.team[j] == if s.team[j].source.feed == source.feed && s.team[j].source.publicKey == source.publicKey
                              then s.team[j].(error := conflict) else s.team[j])
  {
    TargetIs(s.team, source);
    TeamFree(s, MarkConflict(s.team, source, conflict));
    if PolledFor(s.team, source, i) && fetch.Failed? { TeamFree(s, SetError(s.team, i, fetch.message)); }
    hide Valid, Target, Accepts, Synced, Localized, RetargetAll, Marks, PolledFor;
  }

  lemma CommittedFor(s: State, step: Step)
    requires CommitsFeed(s, step)
    ensures var i := Target(s.team, step.source);
      i < |s.team| && !s.team[i].paused && s.team[i].source == step.source
      && Next(s, step) == Applied(s, i, step.fetch.feed, step.now)
  {
    TargetIs(s.team, step.source);
    hide Valid, Accepts, Applied, PolledFor, Target;
  }

  /** A subscription that is paused, or whose address or master is not the one fetched from, keeps
      everything but its error text in a poll. */
  lemma PollLeavesOthers(s: State, step: Step, i: nat)
    requires step.Poll? && i < |s.team| && (s.team[i].paused || s.team[i].source != step.source)
    ensures |Next(s, step).team| == |s.team|
    ensures Next(s, step).team[i] == s.team[i].(error := Next(s, step).team[i].error)
  {
    if CommitsFeed(s, step) {
      CommittedFor(s, step);
      hide Next, CommitsFeed, Target, Synced, Localized, RetargetAll, Marks;
    } else {
      OnlyStatusChanges(s, step);
      hide Next, CommitsFeed;
    }
  }

  // ---------------------------------------------------------------- controls

  /** The first subscription with this feed id. */
  predicate First(team: seq<Subscription>, feedId: string, i: nat) {
    i < |team| && team[i].source.feed == feedId && forall j :: 0 <= j < i ==> team[j].source.feed != feedId
  }

  lemma FirstIs(team: seq<Subscription>, feedId: string, i: nat)
    ensures First(team, feedId, i) <==> i < |team| && IndexOf(team, FeedId, feedId) == i
  {
    if i < |team| && team[i].source.feed == feedId {
      IndexOfAt(team, FeedId, i);
    }
  }

  /** Pausing, resuming and re-addressing change just that of the first subscription with the id. */
  lemma ControlsDo(s: State, feedId: string, url: string, i: nat)
    requires Valid(s) && First(s.team, feedId, i)
    ensures Next(s, Pause(feedId)) == s.(team := s.team[i := s.team[i].(paused := true)])
    ensures Next(s, Resume(feedId)) == s.(team := s.team[i := s.team[i].(paused := false)])
    ensures Next(s, Address(feedId, url)) == s.(team := s.team[i := s.team[i].(source := s.team[i].source.(url := url))])
  {
    FirstIs(s.team, feedId, i);
    TeamFree(s, s.team[i := s.team[i].(paused := true)]);
    TeamFree(s, s.team[i := s.team[i].(paused := false)]);
    TeamFree(s, s.team[i := s.team[i].(source := s.team[i].source.(url := url))]);
    hide Valid, IndexOf;
  }

  // ---------------------------------------------------------------- runs

  /** Everything of a paused subscription that a feed would change. */
  predicate Frozen(a: Subscription, b: Subscription) {
    b.paused && b.items == a.items && b.lastSync == a.lastSync && b.source.feed == a.source.feed && b.source.publicKey == a.source.publicKey
  }

  lemma FrozenStep(s: State, step: Step, i: nat)
    requires i < |s.team| && s.team[i].paused && !(step.Resume? && step.feedId == s.team[i].source.feed)
    ensures |Next(s, step).team| == |s.team| && Frozen(s.team[i], Next(s, step).team[i])
    ensures CommitsFeed(s, step) ==> Target(s.team, step.source) != i
  {
    if step.Poll? {
      PollLeavesOthers(s, step, i);
      if CommitsFeed(s, step) { CommittedFor(s, step); }
      hide Next, CommitsFeed, Target;
    } else {
      hide Valid, IndexOf;
      FeedIdAt(s.team, step.feedId);
    }
  }

  lemma FeedIdAt(team: seq<Subscription>, feedId: string)
    ensures var i := IndexOf(team, FeedId, feedId); i < |team| ==> team[i].source.feed == feedId
  {
  }

  /** Pausing holds: until it is resumed, no feed is committed for a paused subscription, whatever polls
      are under way, and its items and the time of its last feed stay. */
  lemma {:induction false} PausedUntilResumed(s: State, steps: seq<Step>, i: nat)
    requires i < |s.team| && s.team[i].paused
    requires forall step <- steps :: !(step.Resume? && step.feedId == s.team[i].source.feed)
    ensures |Run(s, steps).team| == |s.team| && Frozen(s.team[i], Run(s, steps).team[i])
    ensures forall e <- Log(s, steps) :: e.index != i
  {
    hide Next, CommitsFeed, Target;
    if steps != [] {
      var n := |steps| - 1;
      assert forall step <- steps[..n] :: step in steps;
      assert steps[n] in steps;
      PausedUntilResumed(s, steps[..n], i);
      FrozenStep(Run(s, steps[..n]), steps[n], i);
    }
  }

  /** Address steps for this subscription. */
  predicate Readdresses(step: Step, feedId: string) { step.Address? && step.feedId == feedId }

  lemma MovedStep(s: State, step: Step, i: nat)
    requires i < |s.team| && !Readdresses(step, s.team[i].source.feed)
    ensures |Next(s, step).team| == |s.team| && Next(s, step).team[i].source == s.team[i].source
    ensures CommitsFeed(s, step) && step.source != s.team[i].source ==> Target(s.team, step.source) != i
  {
    if step.Poll? {
      if CommitsFeed(s, step) {
        CommittedFor(s, step);
        hide Next, CommitsFeed, Target, Synced, Localized, RetargetAll, Marks;
      } else {
        OnlyStatusChanges(s, step);
        hide Next, CommitsFeed;
      }
    } else {
      hide Valid, IndexOf;
      FeedIdAt(s.team, step.feedId);
    }
  }

  /** A poll that fetched from an old address commits nothing for the subscription, as long as the
      address is not changed again. */
  lemma {:induction false} OldAddressIgnored(s: State, steps: seq<Step>, i: nat)
    requires i < |s.team| && forall step <- steps :: !Readdresses(step, s.team[i].source.feed)
    requires forall step <- steps :: step.Poll? ==> step.source != s.team[i].source
    ensures |Run(s, steps).team| == |s.team| && Run(s, steps).team[i].source == s.team[i].source
    ensures forall e <- Log(s, steps) :: e.index != i
  {
    hide Next, CommitsFeed, Target, Readdresses;
    if steps != [] {
      var n := |steps| - 1;
      assert forall step <- steps[..n] :: step in steps;
      assert steps[n] in steps;
      OldAddressIgnored(s, steps[..n], i);
      MovedStep(Run(s, steps[..n]), steps[n], i);
      CommitsIsPoll(Run(s, steps[..n]), steps[n]);
    }
  }

  lemma CommitsIsPoll(s: State, step: Step)
    ensures CommitsFeed(s, step) ==> step.Poll?
  {
    hide PollCommits, Target;
  }
}
