/**
 The subscriber's poller: snapshot, fetch, then one update per subscription that re-checks the
 subscription and either applies the feed or records the error. Polls race with the user pausing,
 resuming and re-addressing subscriptions; every step is one atomic update.
 */
module Team {
  import opened Wrappers
  import opened Text
  import opened Records
  import opened Model
  import opened Store
  import opened Sync
  import opened FeedSound
  import opened Bundles
  import opened Ownership

  /** What a fetch brings back: a verified feed, or an error message. */
  datatype Fetch = Fetched(feed: State) | Failed(message: string)

  /** One atomic update of a run. A poll carries the source it snapshotted. */
  datatype Step =
    | Poll(source: Source, fetch: Fetch, now: string, conflict: string)
    | Pause(feedId: string)
    | Resume(feedId: string)
    | Address(feedId: string, url: string)

  /** Still the subscription the poll fetched for, and not paused meanwhile. */
  predicate Matches(sub: Subscription, source: Source) {
    !sub.paused && SameSource(sub.source, source) && sub.source.url == source.url
  }

  /** The subscription a poll updates, or |team|. */
  function Target(team: seq<Subscription>, source: Source): (i: nat)
    ensures i <= |team|
    ensures i < |team| ==> Matches(team[i], source)
    ensures forall j :: 0 <= j < i ==> !Matches(team[j], source)
  {
    if team == [] || Matches(team[0], source) then 0 else 1 + Target(team[1..], source)
  }

  function SetError(team: seq<Subscription>, i: nat, message: string): seq<Subscription>
    requires i < |team|
  {
    team[i := team[i].(error := message)]
  }

  /** The poll's update before the closing check. */
  function PollEdit(s: State, source: Source, fetch: Fetch, now: string): Result<State> {
    var i := Target(s.team, source);
    if i == |s.team| then Ok(s)
    else
      match fetch
      case Failed(message) => Ok(s.(team := SetError(s.team, i, message)))
      case Fetched(feed) => FeedResult(s, i, feed, now)
  }

  /** The second update, after a rejected one: the conflict is shown on the subscription. */
  function MarkConflict(team: seq<Subscription>, source: Source, conflict: string): (r: seq<Subscription>)
    ensures |r| == |team|
    ensures forall i :: 0 <= i < |r| ==>
      r[i] == if SameSource(team[i].source, source) then team[i].(error := conflict) else team[i]
  {
    seq(|team|, i requires 0 <= i < |team| =>
      if SameSource(team[i].source, source) then team[i].(error := conflict) else team[i])
  }

  predicate PollCommits(s: State, source: Source, fetch: Fetch, now: string) {
    var edit := PollEdit(s, source, fetch, now);
    edit.Ok? && Valid(edit.value)
  }

  function Polled(s: State, source: Source, fetch: Fetch, now: string, conflict: string): State {
    if PollCommits(s, source, fetch, now) then PollEdit(s, source, fetch, now).value
    else Commit(s, Ok(s.(team := MarkConflict(s.team, source, conflict))))
  }

  function FeedId(sub: Subscription): string { sub.source.feed }

  /** The first subscription with this feed id is changed; an unknown id changes nothing. */
  function Controlled(s: State, feedId: string, change: Subscription -> Subscription): State {
    var i := IndexOf(s.team, FeedId, feedId);
    if i < |s.team| then Commit(s, Ok(s.(team := s.team[i := change(s.team[i])]))) else s
  }

  /** The action finds a subscription, the change is allowed and its update is committed. */
  predicate Controls(s: State, feedId: string, change: Subscription -> Subscription, allowed: Subscription -> bool) {
    var i := IndexOf(s.team, FeedId, feedId);
    i < |s.team| && allowed(change(s.team[i])) && Valid(s.(team := s.team[i := change(s.team[i])]))
  }

  function SetPaused(paused: bool): Subscription -> Subscription {
    (sub: Subscription) => sub.(paused := paused)
  }

  function SetUrl(url: string): Subscription -> Subscription {
    (sub: Subscription) => sub.(source := sub.source.(url := url))
  }

  function Next(s: State, step: Step): State {
    match step
    case Poll(source, fetch, now, conflict) => Polled(s, source, fetch, now, conflict)
    case Pause(feedId) => Controlled(s, feedId, SetPaused(true))
    case Resume(feedId) => Controlled(s, feedId, SetPaused(false))
    case Address(feedId, url) => Controlled(s, feedId, SetUrl(url))
  }

  method EditForPoll(draft: Draft, source: Source, fetch: Fetch, now: string) returns (edited: bool)
    modifies draft
    ensures edited <==> PollEdit(old(draft.View()), source, fetch, now).Ok?
    ensures edited ==> PollEdit(old(draft.View()), source, fetch, now) == Ok(draft.View())
  {
    hide FeedResult;
    edited := true;
    var i := 0;
    while i < |draft.team| && !Matches(draft.team[i], source)
      invariant i <= Target(draft.team, source)
    {
      i := i + 1;
    }
    if i < |draft.team| {
      match fetch {
        case Failed(message) => draft.team := draft.team[i := draft.team[i].(error := message)];
        case Fetched(feed) => edited := ApplyFeed(draft, i, feed, now);
      }
    }
  }

  method ShowConflict(draft: Draft, source: Source, conflict: string)
    modifies draft
    ensures draft.View() == old(draft.View()).(team := MarkConflict(old(draft.team), source, conflict))
  {
    var team := draft.team;
    ghost var marked := MarkConflict(team, source, conflict);
    for j := 0 to |team|
      invariant |team| == |marked|
      invariant forall k :: 0 <= k < j ==> team[k] == marked[k]
      invariant forall k :: j <= k < |team| ==> team[k] == draft.team[k]
    {
      if SameSource(team[j].source, source) {
        team := team[j := team[j].(error := conflict)];
      }
    }
    assert team == marked;
    draft.team := team;
  }

  /** One poll of one subscription, as the server runs it on its database. */
  method PollOnce(db: Database, source: Source, fetch: Fetch, now: string, conflict: string)
    modifies db
    ensures db.saved == Polled(old(db.saved), source, fetch, now, conflict)
  {
    hide PollEdit, Valid, MarkConflict;
    var draft := db.Snapshot();
    var edited := EditForPoll(draft, source, fetch, now);
    var ok := db.Finish(draft, edited);
    if !ok {
      var second := db.Snapshot();
      ShowConflict(second, source, conflict);
      ok := db.Finish(second, true);
    }
  }

  /** A pause, resume or address change. `allowed` is the check of a submitted address. */
  method TeamAction(db: Database, feedId: string, change: Subscription -> Subscription, allowed: Subscription -> bool)
    returns (found: bool)
    modifies db
    ensures found <==> Controls(old(db.saved), feedId, change, allowed)
    ensures db.saved == if found then Controlled(old(db.saved), feedId, change) else old(db.saved)
  {
    hide Valid;
    var draft := db.Snapshot();
    found := false;
    for i := 0 to |draft.team|
      invariant draft.View() == db.saved == old(db.saved)
      invariant i <= IndexOf(draft.team, FeedId, feedId)
    {
      if draft.team[i].source.feed == feedId {
        IndexOfAt(draft.team, FeedId, i);
        var sub := change(draft.team[i]);
        if allowed(sub) {
          draft.team := draft.team[i := sub];
          found := db.Finish(draft, true);
        }
        return;
      }
    }
  }
}
