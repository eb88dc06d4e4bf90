/**
 All tunnels of the agent as one step system: starting, the entries' threads, local traffic, and
 the calls that stop one tunnel or shut everything down, in any interleaving.
 */
module TunnelRun {
  import opened Wrappers
  import opened Tunnel
  import M = Model

  datatype Place = Idle | Ending(entry: nat) | Awaiting(entry: nat)

  /** A call that stops the listed tunnels one after the other; `closing` marks a shutdown. */
  datatype Caller = Caller(closing: bool, todo: seq<string>, place: Place)

  /** Every entry ever created, which one each tunnel id stands for, whether shutdown has begun, how
      many connections were ever opened and which were closed, and the stopping calls. */
  datatype System = System(entries: seq<Entry>, current: map<string, nat>, closed: bool,
                           conns: nat, shut: set<nat>, callers: seq<Caller>)

  const INITIAL := System([], map[], false, 0, {}, [])

  datatype Step =
    | Start(tunnel: M.Tunnel, bound: bool, text: string)
    | Advance(entry: nat, act: Act, text: string)
    | Traffic(entry: nat, socketAct: SocketAct, text: string)
    | AskStop(id: string)
    | AskClose(ids: seq<string>)
    | Look(caller: nat)
    | End(caller: nat)
    | Await(caller: nat)

  /** The operating system gives a port to one listener at a time. */
  predicate PortFree(s: System, port: int) {
    forall e <- s.entries :: e.listening ==> e.config.localPort != port
  }

  function AddEntry(s: System, id: string, e: Entry): System {
    s.(entries := s.entries + [e], current := s.current[id := |s.entries|])
  }

  /** Starting: refused during shutdown and while the tunnel is up or coming up. */
  function Started(s: System, t: M.Tunnel, bound: bool, text: string): Option<System>
    requires forall id <- s.current :: s.current[id] < |s.entries|
  {
    if !M.ValidTunnel(t) || s.closed then Some(s)
    else if t.id in s.current && !Terminal(s.entries[s.current[t.id]].mode) then Some(s)
    else if !bound then Some(AddEntry(s, t.id, Unbound(text)))
    else if PortFree(s, t.localPort) then Some(AddEntry(s, t.id, Bound(t)))
    else None
  }

  function Closed(shut: set<nat>, conn: Option<nat>): set<nat> {
    if conn.Some? then shut + {conn.value} else shut
  }

  function Advanced(s: System, i: nat, act: Act, text: string): Option<System>
    requires i < |s.entries|
  {
    match Work(s.entries[i], act, text, s.conns)
    case None => None
    case Some(o) =>
      Some(s.(entries := s.entries[i := o.entry], conns := s.conns + (if o.gained then 1 else 0), shut := Closed(s.shut, o.closed)))
  }

  function Looked(s: System, k: nat): Option<System>
    requires k < |s.callers|
  {
    var c := s.callers[k];
    if c.place != Idle || c.todo == [] then None
    else
      var place := if c.todo[0] in s.current then Ending(s.current[c.todo[0]]) else Idle;
      Some(s.(callers := s.callers[k := c.(todo := c.todo[1..], place := place)]))
  }

  function EndedBy(s: System, k: nat): Option<System>
    requires k < |s.callers|
  {
    var c := s.callers[k];
    if !c.place.Ending? || c.place.entry >= |s.entries| then None
    else
      var e := s.entries[c.place.entry];
      var place := if e.phase == Never then Idle else Awaiting(c.place.entry);
      Some(s.(entries := s.entries[c.place.entry := Finished(e, false, "")], shut := Closed(s.shut, e.conn),
              callers := s.callers[k := c.(place := place)]))
  }

  function Awaited(s: System, k: nat): Option<System>
    requires k < |s.callers|
  {
    var c := s.callers[k];
    if !c.place.Awaiting? || c.place.entry >= |s.entries| || s.entries[c.place.entry].doneClosed == 0 then None
    else Some(s.(callers := s.callers[k := c.(place := Idle)]))
  }

  /** One step; None when it cannot happen. */
  function Next(s: System, step: Step): Option<System>
    requires forall id <- s.current :: s.current[id] < |s.entries|
  {
    match step
    case Start(t, bound, text) => Started(s, t, bound, text)
    case Advance(i, act, text) => if i < |s.entries| then Advanced(s, i, act, text) else None
    case Traffic(i, act, text) =>
      if i >= |s.entries| || Socket(s.entries[i], act, text).None? then None
      else Some(s.(entries := s.entries[i := Socket(s.entries[i], act, text).value]))
    case AskStop(id) => Some(s.(callers := s.callers + [Caller(false, [id], Idle)]))
    case AskClose(ids) =>
      if forall id <- s.current :: id in ids then Some(s.(closed := true, callers := s.callers + [Caller(true, ids, Idle)])) else None
    case Look(k) => if k < |s.callers| then Looked(s, k) else None
    case End(k) => if k < |s.callers| then EndedBy(s, k) else None
    case Await(k) => if k < |s.callers| then Awaited(s, k) else None
  }

  // ---------------------------------------------------------------- connections

  function OwnedBy(entries: seq<Entry>): (r: seq<Option<nat>>)
    ensures |r| == |entries|
  {
    seq(|entries|, i requires 0 <= i < |entries| => Owned(entries[i]))
  }

  /** Every connection ever opened is closed, or exactly one entry or its thread is responsible. */
  ghost predicate Conserved(owned: seq<Option<nat>>, conns: nat, shut: set<nat>) {
    && (forall i :: 0 <= i < |owned| && owned[i].Some? ==> owned[i].value < conns && owned[i].value !in shut)
    && (forall i, j :: 0 <= i < j < |owned| && owned[i].Some? ==> owned[i] != owned[j])
    && (forall c: nat :: c < conns && c !in shut ==> Some(c) in owned)
    && (forall c <- shut :: c < conns)
  }

  lemma ConservedGain(owned: seq<Option<nat>>, conns: nat, shut: set<nat>, i: nat)
    requires Conserved(owned, conns, shut) && i < |owned| && owned[i].None?
    ensures Conserved(owned[i := Some(conns)], conns + 1, shut)
  {
    var r := owned[i := Some(conns)];
    assert r[i] == Some(conns);
    forall c: nat | c < conns + 1 && c !in shut ensures Some(c) in r {
      if c < conns {
        var j :| 0 <= j < |owned| && owned[j] == Some(c);
        assert r[j] == Some(c);
      }
    }
  }

  lemma ConservedClose(owned: seq<Option<nat>>, conns: nat, shut: set<nat>, i: nat)
    requires Conserved(owned, conns, shut) && i < |owned| && owned[i].Some?
    ensures Conserved(owned[i := None], conns, shut + {owned[i].value})
  {
    var r := owned[i := None];
    forall c: nat | c < conns && c !in shut + {owned[i].value} ensures Some(c) in r {
      var j :| 0 <= j < |owned| && owned[j] == Some(c);
      assert r[j] == Some(c);
    }
  }

  lemma ConservedAppend(owned: seq<Option<nat>>, conns: nat, shut: set<nat>)
    requires Conserved(owned, conns, shut)
    ensures Conserved(owned + [None], conns, shut)
  {
    var r := owned + [None];
    forall c: nat | c < conns && c !in shut ensures Some(c) in r {
      var j :| 0 <= j < |owned| && owned[j] == Some(c);
      assert r[j] == Some(c);
    }
  }

  /** One entry changes and its connections are accounted for. */
  lemma ConservedStep(entries: seq<Entry>, conns: nat, shut: set<nat>, i: nat, o: Outcome)
    requires Conserved(OwnedBy(entries), conns, shut) && i < |entries| && Accounted(entries[i], o, conns)
    ensures Conserved(OwnedBy(entries[i := o.entry]), conns + (if o.gained then 1 else 0), Closed(shut, o.closed))
  {
    var owned := OwnedBy(entries);
    hide Conserved, Owned;
    assert OwnedBy(entries[i := o.entry]) == owned[i := Owned(o.entry)];
    if o.gained {
      ConservedGain(owned, conns, shut, i);
    } else if o.closed.Some? {
      ConservedClose(owned, conns, shut, i);
    } else {
      assert owned[i := owned[i]] == owned;
    }
  }

  // ---------------------------------------------------------------- the invariant

  /** The one entry a live tunnel can have is the current one. */
  ghost predicate Mapped(entries: seq<Entry>, current: map<string, nat>) {
    && (forall id <- current :: current[id] < |entries|)
    && (forall i: nat :: i < |entries| && entries[i].live ==> entries[i].config.id in current && current[entries[i].config.id] == i)
  }

  ghost predicate PortsDistinct(entries: seq<Entry>) {
    forall i, j :: 0 <= i < j < |entries| && entries[i].listening && entries[j].listening ==>
      entries[i].config.localPort != entries[j].config.localPort
  }

  /** Stopped for good: the thread, if there was one, is gone and `done` is closed. */
  predicate Quiet(e: Entry) { !e.live && e.stopped && (e.phase == Gone || e.phase == Never) }

  /** What a stopping call has achieved so far. */
  ghost predicate CallerOk(entries: seq<Entry>, current: map<string, nat>, closed: bool, c: Caller) {
    && (c.place.Ending? ==> c.place.entry < |entries|)
    && (c.place.Awaiting? ==> c.place.entry < |entries| && !entries[c.place.entry].live && entries[c.place.entry].stopped)
    && (c.closing ==> closed && forall id <- current :: current[id] < |entries| && HandledBy(c, id, current[id], entries[current[id]]))
  }

  /** A shutdown still has this tunnel to do, is at it, or has stopped it. */
  predicate HandledBy(c: Caller, id: string, i: nat, e: Entry) {
    id in c.todo || (c.place != Idle && c.place.entry == i) || Quiet(e)
  }

  ghost predicate Inv(s: System) {
    && (forall i :: 0 <= i < |s.entries| ==> Local(s.entries[i]))
    && Mapped(s.entries, s.current) && PortsDistinct(s.entries)
    && Conserved(OwnedBy(s.entries), s.conns, s.shut)
    && (forall k :: 0 <= k < |s.callers| ==> CallerOk(s.entries, s.current, s.closed, s.callers[k]))
  }

  /** Nothing is undone: every entry goes onward, once shutdown has begun no entry is added, and
      connections stay closed. */
  ghost predicate Ahead(s: System, t: System) {
    && |s.entries| <= |t.entries|
    && (forall i :: 0 <= i < |s.entries| ==> Onward(s.entries[i], t.entries[i]))
    && (s.closed ==> t.closed && |t.entries| == |s.entries| && t.current == s.current)
    && s.conns <= t.conns && s.shut <= t.shut
  }

  lemma QuietOnward(a: Entry, b: Entry)
    requires Local(a) && Local(b) && Onward(a, b) && Quiet(a)
    ensures Quiet(b)
  {
    hide PhaseOk, SocketsOk, OutageOk;
  }

  lemma CallerOnward(a: seq<Entry>, b: seq<Entry>, current: map<string, nat>, closed: bool, c: Caller)
    requires |a| == |b| && CallerOk(a, current, closed, c)
    requires forall i :: 0 <= i < |a| ==> Local(a[i]) && Local(b[i]) && Onward(a[i], b[i])
    ensures CallerOk(b, current, closed, c)
  {
    hide Local, Quiet;
    assert c.place.Awaiting? ==> c.place.entry < |a| && Onward(a[c.place.entry], b[c.place.entry]);
    if c.closing {
      forall id | id in current && Quiet(a[current[id]]) ensures Quiet(b[current[id]]) {
        assert current[id] < |a|;
        QuietOnward(a[current[id]], b[current[id]]);
      }
    }
  }

  lemma MappedOnward(a: seq<Entry>, b: seq<Entry>, current: map<string, nat>)
    requires |a| == |b| && Mapped(a, current) && PortsDistinct(a)
    requires forall i :: 0 <= i < |a| ==> Onward(a[i], b[i])
    ensures Mapped(b, current) && PortsDistinct(b)
  {
    assert forall i :: 0 <= i < |a| ==> b[i].config == a[i].config && (b[i].live ==> a[i].live) && (b[i].listening ==> a[i].listening);
  }

  lemma OnwardSelf(e: Entry)
    ensures Onward(e, e)
  {
  }

  /** An entry of the system changes; everything but the callers' own places is kept. */
  lemma EntryStep(s: System, i: nat, o: Outcome)
    requires Inv(s) && i < |s.entries|
    requires Local(o.entry) && Accounted(s.entries[i], o, s.conns) && Onward(s.entries[i], o.entry)
    ensures var t := s.(entries := s.entries[i := o.entry], conns := s.conns + (if o.gained then 1 else 0), shut := Closed(s.shut, o.closed));
      Inv(t) && Ahead(s, t)
  {
    hide Local, Accounted, Onward, Conserved, CallerOk, Mapped, PortsDistinct;
    var after := s.entries[i := o.entry];
    forall j | 0 <= j < |after| ensures Local(after[j]) && Onward(s.entries[j], after[j]) {
      OnwardSelf(s.entries[j]);
    }
    MappedOnward(s.entries, after, s.current);
    ConservedStep(s.entries, s.conns, s.shut, i, o);
    forall k | 0 <= k < |s.callers| ensures CallerOk(after, s.current, s.closed, s.callers[k]) {
      CallerOnward(s.entries, after, s.current, s.closed, s.callers[k]);
    }
  }

  lemma AdvanceKeeps(s: System, i: nat, act: Act, text: string)
    requires Inv(s) && i < |s.entries| && Advanced(s, i, act, text).Some?
    ensures Inv(Advanced(s, i, act, text).value) && Ahead(s, Advanced(s, i, act, text).value)
  {
    hide Work, Local, Accounted, Onward, Conserved, CallerOk, Mapped, PortsDistinct;
    WorkKeeps(s.entries[i], act, text, s.conns);
    EntryStep(s, i, Work(s.entries[i], act, text, s.conns).value);
  }

  lemma TrafficKeeps(s: System, i: nat, act: SocketAct, text: string)
    requires Inv(s) && i < |s.entries| && Socket(s.entries[i], act, text).Some?
    ensures var t := s.(entries := s.entries[i := Socket(s.entries[i], act, text).value]); Inv(t) && Ahead(s, t)
  {
    hide Socket, Local, Owned, Onward, Conserved, CallerOk, Mapped, PortsDistinct;
    SocketKeeps(s.entries[i], act, text);
    EntryStep(s, i, Outcome(Socket(s.entries[i], act, text).value, false, None));
  }

  /** A new entry takes the place of a terminal one. */
  lemma AddKeeps(s: System, id: string, e: Entry)
    requires Inv(s) && !s.closed && Local(e) && Owned(e).None?
    requires e.live ==> e.config.id == id
    requires e.listening ==> PortFree(s, e.config.localPort)
    requires id in s.current ==> !s.entries[s.current[id]].live
    ensures Inv(AddEntry(s, id, e)) && Ahead(s, AddEntry(s, id, e))
  {
    hide Local, Owned, Onward, Conserved;
    var t := AddEntry(s, id, e);
    ConservedAppend(OwnedBy(s.entries), s.conns, s.shut);
    assert OwnedBy(t.entries) == OwnedBy(s.entries) + [None];
    forall i | 0 <= i < |s.entries| ensures Onward(s.entries[i], t.entries[i]) {
      OnwardSelf(s.entries[i]);
    }
    forall k | 0 <= k < |t.callers| ensures CallerOk(t.entries, t.current, t.closed, t.callers[k]) {
      assert CallerOk(s.entries, s.current, s.closed, s.callers[k]);
    }
    forall i, j | 0 <= i < j < |t.entries| && t.entries[i].listening && t.entries[j].listening
      ensures t.entries[i].config.localPort != t.entries[j].config.localPort
    {
      assert j == |s.entries| ==> s.entries[i] in s.entries;
    }
  }

  lemma AheadSelf(s: System)
    ensures Ahead(s, s)
  {
    forall i | 0 <= i < |s.entries| ensures Onward(s.entries[i], s.entries[i]) {
      OnwardSelf(s.entries[i]);
    }
    hide Onward;
  }

  lemma StartKeeps(s: System, t: M.Tunnel, bound: bool, text: string)
    requires Inv(s) && Started(s, t, bound, text).Some?
    ensures Inv(Started(s, t, bound, text).value) && Ahead(s, Started(s, t, bound, text).value)
  {
    AheadSelf(s);
    assert Local(Bound(t)) && Local(Unbound(text)) && Owned(Bound(t)).None? && Owned(Unbound(text)).None?;
    hide Local, Owned, Conserved, CallerOk, PortsDistinct, M.ValidTunnel, PortFree, Ahead;
    if t.id in s.current {
      LiveUnlessTerminal(s.entries[s.current[t.id]]);
    }
    if M.ValidTunnel(t) && !s.closed && !(t.id in s.current && !Terminal(s.entries[s.current[t.id]].mode)) {
      if !bound {
        AddKeeps(s, t.id, Unbound(text));
      } else if PortFree(s, t.localPort) {
        AddKeeps(s, t.id, Bound(t));
      }
    }
  }

  lemma LiveUnlessTerminal(e: Entry)
    requires Local(e)
    ensures e.live <==> !Terminal(e.mode)
  {
  }

  /** A stopping call moves on. */
  lemma CallerStep(s: System, k: nat, c: Caller)
    requires Inv(s) && k < |s.callers| && CallerOk(s.entries, s.current, s.closed, c)
    ensures Inv(s.(callers := s.callers[k := c])) && Ahead(s, s.(callers := s.callers[k := c]))
  {
    hide Local, Conserved, CallerOk, PortsDistinct, Mapped, Ahead;
    AheadSelf(s);
    SameAhead(s, s.(callers := s.callers[k := c]));
  }

  lemma SameAhead(s: System, t: System)
    requires t == s.(callers := t.callers)
    ensures Ahead(s, t)
  {
    AheadSelf(s);
    hide Onward;
  }

  lemma LookKeeps(s: System, k: nat)
    requires Inv(s) && k < |s.callers| && Looked(s, k).Some?
    ensures Inv(Looked(s, k).value) && Ahead(s, Looked(s, k).value)
  {
    var c := s.callers[k];
    var next := c.(todo := c.todo[1..], place := if c.todo[0] in s.current then Ending(s.current[c.todo[0]]) else Idle);
    hide Local, Conserved, PortsDistinct, Ahead, Quiet;
    assert CallerOk(s.entries, s.current, s.closed, c);
    assert c.todo == [c.todo[0]] + c.todo[1..];
    CallerStep(s, k, next);
  }

  lemma EndKeeps(s: System, k: nat)
    requires Inv(s) && k < |s.callers| && EndedBy(s, k).Some?
    ensures Inv(EndedBy(s, k).value) && Ahead(s, EndedBy(s, k).value)
  {
    var c := s.callers[k];
    var v := c.place.entry;
    var e := s.entries[v];
    var o := Outcome(Finished(e, false, ""), false, e.conn);
    StopKeeps(e);
    StopPhase(e);
    hide Local, Conserved, PortsDistinct, Mapped, Ahead, Onward, Accounted, Finished;
    AccountedNoGain(e, o, s.conns);
    EntryStep(s, v, o);
    var t := s.(entries := s.entries[v := o.entry], shut := Closed(s.shut, o.closed));
    assert CallerOk(t.entries, t.current, t.closed, t.callers[k]);
    var next := c.(place := if e.phase == Never then Idle else Awaiting(v));
    CallerStep(t, k, next);
    AheadThrough(s, t, EndedBy(s, k).value);
  }

  lemma StopPhase(e: Entry)
    ensures Finished(e, false, "").phase == e.phase
  {
  }

  lemma AccountedNoGain(e: Entry, o: Outcome, conns: nat)
    requires Accounted(e, o, 0) && !o.gained
    ensures Accounted(e, o, conns)
  {
  }

  lemma OnwardThrough(a: Entry, b: Entry, c: Entry)
    requires Onward(a, b) && Onward(b, c)
    ensures Onward(a, c)
  {
  }

  lemma AheadThrough(s: System, t: System, u: System)
    requires Ahead(s, t) && Ahead(t, u)
    ensures Ahead(s, u)
  {
    forall i | 0 <= i < |s.entries| ensures Onward(s.entries[i], u.entries[i]) {
      OnwardThrough(s.entries[i], t.entries[i], u.entries[i]);
    }
    hide Onward;
  }

  lemma AwaitKeeps(s: System, k: nat)
    requires Inv(s) && k < |s.callers| && Awaited(s, k).Some?
    ensures Inv(Awaited(s, k).value) && Ahead(s, Awaited(s, k).value)
    ensures Quiet(s.entries[s.callers[k].place.entry])
  {
    var c := s.callers[k];
    DoneIsGone(s.entries[c.place.entry]);
    hide Local, Conserved, PortsDistinct, Ahead, Mapped;
    assert CallerOk(s.entries, s.current, s.closed, c);
    CallerStep(s, k, c.(place := Idle));
  }

  lemma DoneIsGone(e: Entry)
    requires Local(e)
    ensures e.doneClosed == (if e.phase == Gone then 1 else 0)
  {
  }

  lemma AskKeeps(s: System, c: Caller, closing: bool)
    requires Inv(s) && c.place == Idle && c.closing == closing
    requires closing ==> forall id <- s.current :: id in c.todo
    ensures var t := s.(closed := s.closed || closing, callers := s.callers + [c]); Inv(t) && Ahead(s, t)
  {
    hide Local, Conserved, PortsDistinct, Quiet;
    AheadSelf(s);
    var t := s.(closed := s.closed || closing, callers := s.callers + [c]);
    forall k | 0 <= k < |t.callers| ensures CallerOk(t.entries, t.current, t.closed, t.callers[k]) {
      assert k < |s.callers| ==> CallerOk(s.entries, s.current, s.closed, s.callers[k]);
    }
    hide Onward;
  }

  /** Every step keeps the invariant and undoes nothing. */
  lemma StepKeeps(s: System, step: Step)
    requires Inv(s) && Next(s, step).Some?
    ensures Inv(Next(s, step).value) && Ahead(s, Next(s, step).value)
  {
    hide Local, Conserved, PortsDistinct, CallerOk, Ahead, Started, Advanced, Looked, EndedBy, Awaited, Socket;
    match step {
      case Start(t, bound, text) => StartKeeps(s, t, bound, text);
      case Advance(i, act, text) => AdvanceKeeps(s, i, act, text);
      case Traffic(i, act, text) => TrafficKeeps(s, i, act, text);
      case AskStop(id) => AskKeeps(s, Caller(false, [id], Idle), false);
      case AskClose(ids) => AskKeeps(s, Caller(true, ids, Idle), true);
      case Look(k) => LookKeeps(s, k);
      case End(k) => EndKeeps(s, k);
      case Await(k) => AwaitKeeps(s, k);
    }
  }

  // ---------------------------------------------------------------- whole runs

  /** The steps lead from `s` to `t`. */
  ghost predicate Runs(s: System, steps: seq<Step>, t: System)
    decreases |steps|
  {
    if steps == [] then s == t
    else
      && (forall id <- s.current :: s.current[id] < |s.entries|)
      && Next(s, steps[0]).Some? && Runs(Next(s, steps[0]).value, steps[1..], t)
  }

  lemma InitialInv()
    ensures Inv(INITIAL)
  {
  }

  lemma {:induction false} RunKeeps(s: System, steps: seq<Step>, t: System)
    requires Inv(s) && Runs(s, steps, t)
    ensures Inv(t) && Ahead(s, t)
    decreases |steps|
  {
    hide Inv, Ahead, Next;
    AheadSelf(s);
    if steps != [] {
      InvCurrent(s);
      var n := Next(s, steps[0]).value;
      StepKeeps(s, steps[0]);
      RunKeeps(n, steps[1..], t);
      AheadThrough(s, n, t);
    }
  }

  lemma InvCurrent(s: System)
    requires Inv(s)
    ensures forall id <- s.current :: s.current[id] < |s.entries|
    ensures forall i :: 0 <= i < |s.entries| ==> Local(s.entries[i])
  {
    hide Local, Conserved, CallerOk, PortsDistinct;
  }

  /** At any time a tunnel has at most one live entry, and live entries listen on distinct ports. */
  lemma OneLive(steps: seq<Step>, s: System, i: nat, j: nat)
    requires Runs(INITIAL, steps, s) && i < j < |s.entries| && s.entries[i].live && s.entries[j].live
    ensures s.entries[i].config.id != s.entries[j].config.id
    ensures s.entries[i].config.localPort != s.entries[j].config.localPort
  {
    InitialInv();
    RunKeeps(INITIAL, steps, s);
    InvCurrent(s);
    hide Local, Conserved, CallerOk, Runs;
    ListeningLive(s.entries[i]);
    ListeningLive(s.entries[j]);
  }

  lemma ListeningLive(e: Entry)
    requires Local(e)
    ensures e.listening <==> e.live
    ensures e.conn.Some? ==> Held(e.phase).None? && e.mode == Running && e.live
    ensures e.stopped ==> e.mode == Stopped && !e.live
    ensures !e.live ==> Terminal(e.mode) && e.conn.None? && e.open == {}
    ensures e.connections == |e.sockets| <= MAX_SOCKETS && e.open <= e.sockets
    ensures e.mode == Running <==> e.conn.Some?
    ensures e.mode != Running ==> e.open == {}
  {
  }

  /** Where a connection is: in a running entry, or in the hands of an entry's thread. */
  predicate At(e: Entry, conn: nat) { e.conn == Some(conn) || Held(e.phase) == Some(conn) }

  /** Connection conservation: in every interleaving a connection is closed or in exactly one place. */
  lemma ConnectionPlace(steps: seq<Step>, s: System, conn: nat)
    requires Runs(INITIAL, steps, s) && conn < s.conns
    ensures conn !in s.shut <==> exists i :: 0 <= i < |s.entries| && At(s.entries[i], conn)
    ensures forall i, j :: 0 <= i < |s.entries| && 0 <= j < |s.entries| && At(s.entries[i], conn) && At(s.entries[j], conn) ==> i == j
    ensures forall e <- s.entries :: !(e.conn == Some(conn) && Held(e.phase) == Some(conn)) && (e.conn == Some(conn) ==> e.mode == Running)
  {
    InitialInv();
    RunKeeps(INITIAL, steps, s);
    InvCurrent(s);
    hide Local, CallerOk, Runs, Mapped, PortsDistinct, Held;
    var owned := OwnedBy(s.entries);
    forall i | 0 <= i < |s.entries|
      ensures At(s.entries[i], conn) <==> owned[i] == Some(conn)
      ensures s.entries[i].conn.Some? ==> Held(s.entries[i].phase).None? && s.entries[i].mode == Running
    {
      ListeningLive(s.entries[i]);
    }
    if conn !in s.shut {
      assert Some(conn) in owned;
      var i :| 0 <= i < |owned| && owned[i] == Some(conn);
      assert At(s.entries[i], conn);
    }
  }

  /** Stop wins: an entry the user stopped reads stopped ever after, without connection or open socket. */
  lemma StopWins(s: System, steps: seq<Step>, t: System, i: nat)
    requires Inv(s) && Runs(s, steps, t) && i < |s.entries| && s.entries[i].stopped
    ensures i < |t.entries| && t.entries[i].stopped && t.entries[i].mode == Stopped && !t.entries[i].live
    ensures t.entries[i].conn.None? && t.entries[i].open == {}
  {
    RunKeeps(s, steps, t);
    InvCurrent(t);
    hide Inv, Runs, Local;
    ListeningLive(t.entries[i]);
  }

  /** A cancelled entry never comes back. */
  lemma CancelledStaysDown(s: System, steps: seq<Step>, t: System, i: nat)
    requires Inv(s) && Runs(s, steps, t) && i < |s.entries| && !s.entries[i].live
    ensures i < |t.entries| && !t.entries[i].live && Terminal(t.entries[i].mode) && t.entries[i].conn.None?
  {
    RunKeeps(s, steps, t);
    InvCurrent(t);
    hide Inv, Runs, Local;
    ListeningLive(t.entries[i]);
  }

  /** `done` is closed at most once, exactly when the entry's thread is over, and stays closed. */
  lemma DoneOnce(s: System, steps: seq<Step>, t: System, i: nat)
    requires Inv(s) && Runs(s, steps, t) && i < |s.entries|
    ensures i < |t.entries| && s.entries[i].doneClosed <= t.entries[i].doneClosed <= 1
    ensures t.entries[i].doneClosed == 1 <==> t.entries[i].phase == Gone
  {
    RunKeeps(s, steps, t);
    InvCurrent(t);
    hide Inv, Runs, Local;
    DoneIsGone(t.entries[i]);
  }

  /** A stopping call goes on only after the entry's thread is over, and that is for good. */
  lemma StopReturns(s: System, k: nat, steps: seq<Step>, t: System)
    requires Inv(s) && k < |s.callers| && Awaited(s, k).Some? && Runs(Awaited(s, k).value, steps, t)
    ensures var i := s.callers[k].place.entry; i < |t.entries| && Quiet(t.entries[i])
  {
    AwaitKeeps(s, k);
    InvCurrent(s);
    var i, u := s.callers[k].place.entry, Awaited(s, k).value;
    InvCurrent(u);
    RunKeeps(u, steps, t);
    InvCurrent(t);
    hide Inv, Runs, Local, Quiet;
    QuietOnward(u.entries[i], t.entries[i]);
  }

  /** Shutdown is final: once a shutdown has returned, whatever happens next, there is no new entry,
      every entry is terminal, the current ones are over, and a connection that is not closed is in
      the hands of the thread of an entry that had been replaced before. */
  lemma ShutdownFinal(s: System, k: nat, steps: seq<Step>, t: System)
    requires Inv(s) && k < |s.callers| && s.callers[k].closing && s.callers[k].todo == [] && s.callers[k].place == Idle
    requires Runs(s, steps, t)
    ensures |t.entries| == |s.entries| && t.current == s.current
    ensures forall e <- t.entries :: !e.live && Terminal(e.mode)
    ensures forall id <- t.current :: t.current[id] < |t.entries| && Quiet(t.entries[t.current[id]])
    ensures forall conn: nat :: conn < t.conns && conn !in t.shut ==>
      exists i :: 0 <= i < |t.entries| && Held(t.entries[i].phase) == Some(conn) && forall id <- t.current :: t.current[id] != i
  {
    RunKeeps(s, steps, t);
    InvCurrent(s);
    InvCurrent(t);
    assert CallerOk(s.entries, s.current, s.closed, s.callers[k]);
    hide Local, Runs, PortsDistinct, Quiet, Held;
    forall id | id in t.current ensures t.current[id] < |t.entries| && Quiet(t.entries[t.current[id]]) {
      QuietOnward(s.entries[s.current[id]], t.entries[t.current[id]]);
    }
    forall id | id in t.current ensures !t.entries[t.current[id]].live {
      QuietDead(t.entries[t.current[id]]);
    }
    NoneLive(t.entries, t.current);
    forall e | e in t.entries ensures !e.live && Terminal(e.mode) {
      ListeningLive(e);
    }
    forall conn: nat | conn < t.conns && conn !in t.shut
      ensures exists i :: 0 <= i < |t.entries| && Held(t.entries[i].phase) == Some(conn) && forall id <- t.current :: t.current[id] != i
    {
      assert Some(conn) in OwnedBy(t.entries);
      var i :| 0 <= i < |t.entries| && OwnedBy(t.entries)[i] == Some(conn);
      assert t.entries[i] in t.entries;
      ListeningLive(t.entries[i]);
      QuietDead(t.entries[i]);
      assert Held(t.entries[i].phase) == Some(conn);
    }
  }

  lemma NoneLive(entries: seq<Entry>, current: map<string, nat>)
    requires Mapped(entries, current) && forall id <- current :: !entries[current[id]].live
    ensures forall e <- entries :: !e.live
  {
    forall i: nat | i < |entries| ensures !entries[i].live {
    }
  }

  lemma QuietDead(e: Entry)
    ensures Quiet(e) ==> !e.live && Held(e.phase).None?
  {
  }

  // ---------------------------------------------------------------- the reconnect ladder

  /** An entry turns to reconnecting only when the last three keepalives all went over the
      connection it had and all failed. */
  lemma ReconnectAfterThree(e: Entry, act: Act, text: string, next: nat)
    requires Local(e) && Work(e, act, text, next).Some?
    requires e.mode != Reconnecting && Work(e, act, text, next).value.entry.mode == Reconnecting
    ensures e.conn.Some? && Missed(e.probes, e.conn.value, 3)
  {
    hide Missed, BaseDelay;
  }

  /** An attempt to reconnect happens only with the option set, and before the n-th one of an outage
      the pause is the smaller of 2^(n-1) and 30 seconds. */
  lemma LadderPause(steps: seq<Step>, s: System, i: nat)
    requires Runs(INITIAL, steps, s) && i < |s.entries|
    ensures var p := s.entries[i].phase;
      p.Pausing? || p.Redialing? || p.Rejected? ==>
        && s.entries[i].config.autoReconnect && p.attempt >= 1
        && p.delay == if Power2(p.attempt - 1) < 30 then Power2(p.attempt - 1) else 30
    ensures s.entries[i].mode == Reconnecting ==> exists c :: Missed(s.entries[i].probes, c, 3)
  {
    InitialInv();
    RunKeeps(INITIAL, steps, s);
    InvCurrent(s);
    hide Inv, Runs, Missed;
    assert OutageOk(s.entries[i]);
  }
}
