/**
 What a tunnel does for its user: it starts, it forwards, and with automatic reconnection it survives
 every outage. Together with a run that goes through one.
 */
module Outages {
  import opened Wrappers
  import opened Tunnel
  import opened TunnelRun
  import M = Model

  // ---------------------------------------------------------------- starting and forwarding

  /** A start of a tunnel that is not up puts a live entry in its place, or a failed one when the port
      cannot be bound; during shutdown and while the tunnel is up nothing changes. */
  lemma StartAnswers(s: System, t: M.Tunnel, bound: bool, text: string)
    requires Inv(s) && M.ValidTunnel(t)
    ensures forall id <- s.current :: s.current[id] < |s.entries|
    ensures var up := t.id in s.current && s.entries[s.current[t.id]].live;
      && (s.closed || up ==> Started(s, t, bound, text) == Some(s))
      && (!s.closed && !up && (bound ==> PortFree(s, t.localPort)) ==>
            && Started(s, t, bound, text).Some?
            && var r := Started(s, t, bound, text).value;
            && |r.entries| == |s.entries| + 1 && r.entries[..|s.entries|] == s.entries
            && r.current == s.current[t.id := |s.entries|] && r.conns == s.conns && r.shut == s.shut
            && var e := r.entries[|s.entries|];
            && e.live == e.listening == bound && e.mode == (if bound then Connecting else Failed)
            && (bound ==> e.config == t && e.lastError == "") && (!bound ==> e.lastError == text)
            && e.conn == None && e.sockets == {} && e.connections == 0 && e.probes == [])
  {
    InvCurrent(s);
    hide Inv, M.ValidTunnel, PortFree, Local;
    if t.id in s.current {
      LiveUnlessTerminal(s.entries[s.current[t.id]]);
    }
  }

  /** A running tunnel forwards a local socket while it tracks fewer than 128, and refuses it otherwise. */
  lemma Forwards(e: Entry, text: string)
    requires Local(e) && e.accepting.Got?
    ensures Socket(e, Decide, text).Some?
    ensures var r, c := Socket(e, Decide, text).value, e.accepting.socket;
      if e.mode == Running && |e.sockets| < 128 then
        r.sockets == e.sockets + {c} && c in r.open && r.connections == e.connections + 1 && r.accepting == Listening
      else
        r == e.(accepting := Refusing(c))
  {
    hide PhaseOk, OutageOk;
  }

  /** A thread is never stuck: while it is not over it can take its next step, whatever connecting, a
      keepalive or the timer brings, and notice a cancelled life context where it waits. */
  lemma NeverStuck(e: Entry, text: string, next: nat)
    ensures var p := e.phase;
      && (p.Dialing? || p.Redialing? ==> Work(e, Connected, text, next).Some? && Work(e, Denied, text, next).Some?)
      && (p.Waiting? || p.Pausing? ==> Work(e, Tick, text, next).Some?)
      && (p.Probing? ==> Work(e, Answer(true), text, next).Some? && Work(e, Answer(false), text, next).Some?)
      && ((p.Waiting? || p.Pausing? || p.Probing?) && !e.live ==> Work(e, Cancelled, text, next).Some?)
      && (!p.Never? && !p.Gone? && !p.Dialing? && !p.Redialing? && !p.Waiting? && !p.Pausing? && !p.Probing? ==>
            Work(e, Proceed, text, next).Some?)
  {
  }

  // ---------------------------------------------------------------- surviving outages

  /** The entry's monitor has taken over, and only the user ends it. */
  predicate Up(e: Entry) {
    var p := e.phase;
    && (p.Waiting? || p.Ticked? || p.Probing? || p.Losing? || p.Dropping? || p.Pausing? || p.Redialing? || p.Rejected?
        || p.Regained? || p.Surplus? || p.Signalling? || p.Gone?)
    && e.mode != Failed && (e.mode == Stopped ==> e.stopped)
  }

  lemma RunningUp(e: Entry)
    requires Local(e) && e.mode == Running
    ensures Up(e)
  {
    hide SocketsOk, OutageOk, Missed, BaseDelay;
  }

  lemma WorkUp(e: Entry, act: Act, text: string, next: nat)
    requires Local(e) && Up(e) && e.config.autoReconnect && Work(e, act, text, next).Some?
    ensures Up(Work(e, act, text, next).value.entry)
  {
    hide SocketsOk, OutageOk, Missed, BaseDelay;
  }

  lemma SocketUp(e: Entry, act: SocketAct, text: string)
    requires Up(e) && Socket(e, act, text).Some?
    ensures Up(Socket(e, act, text).value)
  {
  }

  lemma StopUp(e: Entry)
    requires Up(e)
    ensures Up(Finished(e, false, ""))
  {
  }

  /** Every step of the manager keeps a reconnecting tunnel up, or the user has stopped it. */
  lemma StepUp(s: System, step: Step, i: nat)
    requires Inv(s) && Next(s, step).Some? && i < |s.entries| && Up(s.entries[i]) && s.entries[i].config.autoReconnect
    ensures i < |Next(s, step).value.entries| && Up(Next(s, step).value.entries[i])
    ensures Next(s, step).value.entries[i].config == s.entries[i].config
  {
    InvCurrent(s);
    StepKeeps(s, step);
    assert Onward(s.entries[i], Next(s, step).value.entries[i]) by { hide Next, Inv, Onward; }
    hide Inv, Local, Up, Work, Socket, Onward, Finished, Ahead;
    match step {
      case Advance(j, act, text) => if j == i { WorkUp(s.entries[i], act, text, s.conns); }
      case Traffic(j, act, text) => if j == i { SocketUp(s.entries[i], act, text); }
      case End(k) => StopUp(s.entries[i]);
      case _ =>
    }
    assert Next(s, step).value.entries[i].config == s.entries[i].config by { OnwardConfig(s.entries[i], Next(s, step).value.entries[i]); }
  }

  lemma OnwardConfig(a: Entry, b: Entry)
    requires Onward(a, b)
    ensures b.config == a.config
  {
  }

  lemma {:induction false} RunUp(s: System, steps: seq<Step>, t: System, i: nat)
    requires Inv(s) && Runs(s, steps, t) && i < |s.entries| && Up(s.entries[i]) && s.entries[i].config.autoReconnect
    ensures i < |t.entries| && Up(t.entries[i])
    decreases |steps|
  {
    hide Inv, Up, Next;
    if steps != [] {
      InvCurrent(s);
      StepUp(s, steps[0], i);
      StepKeeps(s, steps[0]);
      RunUp(Next(s, steps[0]).value, steps[1..], t, i);
    }
  }

  /** A tunnel with automatic reconnection that has been running never fails: whatever connections are
      lost and however often reconnecting is refused, it ends only when the user stops it. */
  lemma OutagesSurvived(s: System, steps: seq<Step>, t: System, i: nat)
    requires Inv(s) && Runs(s, steps, t) && i < |s.entries|
    requires s.entries[i].mode == Running && s.entries[i].config.autoReconnect
    ensures i < |t.entries| && t.entries[i].mode != Failed
    ensures Terminal(t.entries[i].mode) ==> t.entries[i].stopped
  {
    InvCurrent(s);
    hide Inv, Local;
    RunningUp(s.entries[i]);
    RunUp(s, steps, t, i);
  }

  /** The monitor has given the connection of a tunnel without automatic reconnection up. */
  predicate Down(e: Entry) {
    (e.phase.Dropping? || e.phase.Finishing? || e.phase.Signalling? || e.phase.Gone?) && e.conn.None?
  }

  lemma WorkDown(e: Entry, act: Act, text: string, next: nat)
    requires Local(e) && Down(e) && !e.config.autoReconnect && Work(e, act, text, next).Some?
    ensures Down(Work(e, act, text, next).value.entry)
  {
    hide SocketsOk, OutageOk, Missed, BaseDelay;
  }

  lemma StepDown(s: System, step: Step, i: nat)
    requires Inv(s) && Next(s, step).Some? && i < |s.entries| && Down(s.entries[i]) && !s.entries[i].config.autoReconnect
    ensures i < |Next(s, step).value.entries| && Down(Next(s, step).value.entries[i])
    ensures Next(s, step).value.entries[i].config == s.entries[i].config
  {
    InvCurrent(s);
    StepKeeps(s, step);
    assert Onward(s.entries[i], Next(s, step).value.entries[i]) by { hide Next, Inv, Onward; }
    OnwardConfig(s.entries[i], Next(s, step).value.entries[i]);
    hide Inv, Local, Work, Onward, Ahead;
    match step {
      case Advance(j, act, text) => if j == i { WorkDown(s.entries[i], act, text, s.conns); }
      case _ =>
    }
  }

  lemma {:induction false} RunDown(s: System, steps: seq<Step>, t: System, i: nat)
    requires Inv(s) && Runs(s, steps, t) && i < |s.entries| && Down(s.entries[i]) && !s.entries[i].config.autoReconnect
    ensures i < |t.entries| && Down(t.entries[i])
    decreases |steps|
  {
    hide Inv, Down, Next;
    if steps != [] {
      InvCurrent(s);
      StepDown(s, steps[0], i);
      StepKeeps(s, steps[0]);
      RunDown(Next(s, steps[0]).value, steps[1..], t, i);
    }
  }

  /** Without it, an outage is final: a tunnel that reads reconnecting never runs again. */
  lemma OutageFinal(s: System, steps: seq<Step>, t: System, i: nat)
    requires Inv(s) && Runs(s, steps, t) && i < |s.entries|
    requires s.entries[i].mode == Reconnecting && !s.entries[i].config.autoReconnect
    ensures i < |t.entries| && t.entries[i].mode != Running
  {
    InvCurrent(s);
    assert Local(s.entries[i]);
    RunKeeps(s, steps, t);
    InvCurrent(t);
    hide Inv;
    assert Down(s.entries[i]) by { hide SocketsOk, OutageOk, Missed, BaseDelay; }
    RunDown(s, steps, t, i);
    hide Local, Runs;
    ListeningLive(t.entries[i]);
  }

  // ---------------------------------------------------------------- the accept loop

  /** A tunnel that is up, or waits to be up again, has an accept loop. */
  predicate Serves(e: Entry) { e.mode == Running || e.mode == Reconnecting ==> e.accepting != Off }

  lemma WorkServes(e: Entry, act: Act, text: string, next: nat)
    requires Local(e) && Serves(e) && Work(e, act, text, next).Some?
    ensures Serves(Work(e, act, text, next).value.entry)
    ensures Work(e, act, text, next).value.entry.accepting == if e.phase.Holding? && e.live then Listening else e.accepting
  {
    hide SocketsOk, OutageOk, Missed, BaseDelay;
  }

  /** While the listener is open the loop takes every client that connects, as a socket not seen before; it
      decides about it, closes one it refuses, and is back at listening. */
  lemma LoopGoesOn(e: Entry, text: string)
    requires Local(e)
    ensures e.accepting == Listening && e.listening ==>
      Socket(e, Arrive, text) == Some(e.(accepting := Got(e.seen), seen := e.seen + 1)) && e.seen !in e.sockets
    ensures e.accepting.Got? ==> Socket(e, Decide, text).Some?
    ensures e.accepting.Got? ==> Socket(e, Decide, text).value.accepting in {Listening, Refusing(e.accepting.socket)}
    ensures e.accepting.Refusing? ==> Socket(e, CloseRefused, text) == Some(e.(accepting := Listening))
    ensures forall c <- e.open :: Socket(e, ShutSocket(c), text) == Some(e.(open := e.open - {c}))
    ensures forall c <- e.sockets - e.open ::
      Socket(e, Forget(c), text) == Some(e.(sockets := e.sockets - {c}, connections := e.connections - 1))
  {
    hide PhaseOk, OutageOk;
  }

  lemma SocketServes(e: Entry, act: SocketAct, text: string)
    requires Serves(e) && Socket(e, act, text).Some?
    ensures Serves(Socket(e, act, text).value)
    ensures act.EndAccepting? || e.accepting == Ended || Socket(e, act, text).value.accepting != Ended
  {
  }

  lemma StepServes(s: System, step: Step)
    requires Inv(s) && (forall e <- s.entries :: Serves(e)) && Next(s, step).Some?
    ensures forall e <- Next(s, step).value.entries :: Serves(e)
  {
    InvCurrent(s);
    var r := Next(s, step).value.entries;
    forall i | 0 <= i < |r| ensures Serves(r[i]) {
      if i < |s.entries| {
        assert Local(s.entries[i]) && s.entries[i] in s.entries;
        StopServes(s.entries[i]);
        hide Inv, Local, Work, Socket, Finished, Serves;
        match step {
          case Advance(j, act, text) => if j == i { WorkServes(s.entries[i], act, text, s.conns); }
          case Traffic(j, act, text) => if j == i { SocketServes(s.entries[i], act, text); }
          case _ =>
        }
      }
    }
  }

  lemma StopServes(e: Entry)
    ensures Serves(Finished(e, false, ""))
  {
  }

  lemma {:induction false} RunServes(s: System, steps: seq<Step>, t: System)
    requires Inv(s) && Runs(s, steps, t) && forall e <- s.entries :: Serves(e)
    ensures forall e <- t.entries :: Serves(e)
    decreases |steps|
  {
    hide Inv, Serves, Next;
    if steps != [] {
      InvCurrent(s);
      StepServes(s, steps[0]);
      StepKeeps(s, steps[0]);
      RunServes(Next(s, steps[0]).value, steps[1..], t);
    }
  }

  /** In every run, whatever is running or reconnecting has an accept loop. */
  lemma RunningServes(steps: seq<Step>, t: System)
    requires Runs(INITIAL, steps, t)
    ensures forall e <- t.entries :: e.mode == Running || e.mode == Reconnecting ==> e.accepting != Off
  {
    InitialInv();
    hide Inv, Runs;
    RunServes(INITIAL, steps, t);
  }

  // ---------------------------------------------------------------- the error that is shown

  /** What the shown error tells about a change of an entry: coming up clears it; failing, losing the
      connection and every refused attempt show the reason; anything else leaves it. */
  predicate Told(e: Entry, r: Entry, text: string) {
    && (r.lastError == e.lastError || r.lastError == text || (e.mode == Connecting && r.mode == Running))
    && (e.mode == Connecting && r.mode == Running ==> r.lastError == "")
    && (e.mode != Failed && r.mode == Failed ==> r.lastError == text)
    && (e.mode != Reconnecting && r.mode == Reconnecting ==> r.lastError == text)
    && (e.phase.Rejected? && r.phase != e.phase ==> r.lastError == text)
    && (e.mode == Reconnecting && r.mode == Running ==> r.lastError == e.lastError)
    && (e.mode != Stopped && r.mode == Stopped ==> r.lastError == e.lastError)
  }

  lemma WorkTold(e: Entry, act: Act, text: string, next: nat)
    requires Local(e) && Work(e, act, text, next).Some?
    ensures Told(e, Work(e, act, text, next).value.entry, text)
    ensures Work(e, act, text, next).value.entry.connections == e.connections || e.phase.Holding?
  {
    hide SocketsOk, OutageOk, Missed, BaseDelay;
  }

  lemma SocketTold(e: Entry, act: SocketAct, text: string)
    requires Socket(e, act, text).Some?
    ensures Told(e, Socket(e, act, text).value, text)
    ensures act.DialFailed? ==> Socket(e, act, text).value.lastError == text
  {
  }

  lemma StopTold(e: Entry, text: string)
    ensures Told(e, e, text) && Told(e, Finished(e, false, ""), text)
  {
  }

  function TextOf(step: Step): string {
    match step
    case Advance(_, _, text) => text
    case Traffic(_, _, text) => text
    case Start(_, _, text) => text
    case _ => ""
  }

  /** Every step of the manager tells the truth about each entry in this sense. */
  lemma StepTold(s: System, step: Step, i: nat)
    requires Inv(s) && Next(s, step).Some? && i < |s.entries|
    ensures i < |Next(s, step).value.entries| && Told(s.entries[i], Next(s, step).value.entries[i], TextOf(step))
    ensures step.Traffic? && step.entry == i && step.socketAct.DialFailed? ==>
      Next(s, step).value.entries[i].lastError == step.text
  {
    InvCurrent(s);
    assert Local(s.entries[i]);
    StopTold(s.entries[i], TextOf(step));
    hide Inv, Local, Told, Work, Socket, Finished;
    match step {
      case Advance(j, act, text) => if j == i { WorkTold(s.entries[i], act, text, s.conns); }
      case Traffic(j, act, text) => if j == i { SocketTold(s.entries[i], act, text); }
      case End(k) =>
      case _ =>
    }
  }

  // ---------------------------------------------------------------- a run through an outage

  lemma {:induction false} RunsConcat(s: System, a: seq<Step>, t: System, b: seq<Step>, u: System)
    requires Runs(s, a, t) && Runs(t, b, u)
    ensures Runs(s, a + b, u)
    decreases |a|
  {
    hide Next;
    if a == [] {
      assert a + b == b;
    } else {
      assert (a + b)[0] == a[0] && (a + b)[1..] == a[1..] + b;
      RunsConcat(Next(s, a[0]).value, a[1..], t, b, u);
    }
  }

  lemma RunsOne(s: System, step: Step, t: System)
    requires (forall id <- s.current :: s.current[id] < |s.entries|) && Next(s, step) == Some(t)
    ensures Runs(s, [step], t)
  {
    hide Next;
    assert [step][1..] == [];
  }

  /** The manager with a single tunnel. */
  function Alone(e: Entry, conns: nat, shut: set<nat>): System { System([e], map[e.config.id := 0], false, conns, shut, []) }

  lemma WorkAlone(e: Entry, conns: nat, shut: set<nat>, act: Act, text: string, o: Outcome)
    requires Work(e, act, text, conns) == Some(o) && o.entry.config == e.config
    ensures Runs(Alone(e, conns, shut), [Advance(0, act, text)], Alone(o.entry, conns + (if o.gained then 1 else 0), Closed(shut, o.closed)))
  {
    var s := Alone(e, conns, shut);
    hide Work;
    assert s.entries[0 := o.entry] == [o.entry];
    RunsOne(s, Advance(0, act, text), Alone(o.entry, conns + (if o.gained then 1 else 0), Closed(shut, o.closed)));
  }

  function At(e: Entry, phase: Phase): Entry { e.(phase := phase) }

  /** One keepalive that fails, short of the third. */
  lemma MissedOnce(e: Entry, conn: nat, m: nat, conns: nat, shut: set<nat>)
    requires e.phase == Waiting(m) && e.conn == Some(conn) && m < 2
    ensures Runs(Alone(e, conns, shut), [Advance(0, Tick, ""), Advance(0, Proceed, ""), Advance(0, Answer(false), "")],
                 Alone(e.(probes := e.probes + [Probe(conn, false)], phase := Waiting(m + 1)), conns, shut))
  {
    var a, b, c := At(e, Ticked(m)), At(e, Probing(conn, m)), e.(probes := e.probes + [Probe(conn, false)], phase := Waiting(m + 1));
    WorkAlone(e, conns, shut, Tick, "", Outcome(a, false, None));
    WorkAlone(a, conns, shut, Proceed, "", Outcome(b, false, None));
    WorkAlone(b, conns, shut, Answer(false), "", Outcome(c, false, None));
    hide Runs, Work;
    Three(Alone(e, conns, shut), Advance(0, Tick, ""), Alone(a, conns, shut), Advance(0, Proceed, ""),
          Alone(b, conns, shut), Advance(0, Answer(false), ""), Alone(c, conns, shut));
  }

  lemma Three(s: System, a: Step, t: System, b: Step, u: System, c: Step, v: System)
    requires Runs(s, [a], t) && Runs(t, [b], u) && Runs(u, [c], v)
    ensures Runs(s, [a, b, c], v)
  {
    hide Runs;
    RunsConcat(s, [a], t, [b], u);
    assert [a] + [b] == [a, b] && [a, b] + [c] == [a, b, c];
    RunsConcat(s, [a, b], u, [c], v);
  }

  lemma StartAlone(t: M.Tunnel)
    requires M.ValidTunnel(t)
    ensures Runs(INITIAL, [Start(t, true, "")], Alone(Bound(t), 0, {}))
  {
    hide M.ValidTunnel;
    assert INITIAL.current[t.id := 0] == map[t.id := 0] && INITIAL.entries + [Bound(t)] == [Bound(t)];
    assert PortFree(INITIAL, t.localPort);
    assert Started(INITIAL, t, true, "") == Some(Alone(Bound(t), 0, {}));
    RunsOne(INITIAL, Start(t, true, ""), Alone(Bound(t), 0, {}));
  }

  /** Starting and connecting. */
  lemma ComesUp(t: M.Tunnel)
    requires M.ValidTunnel(t)
    ensures Runs(INITIAL, [Start(t, true, ""), Advance(0, Connected, ""), Advance(0, Proceed, "")],
                 Alone(Installed(At(Bound(t), Holding(0)), 0), 1, {}))
  {
    var a := At(Bound(t), Holding(0));
    StartAlone(t);
    WorkAlone(Bound(t), 0, {}, Connected, "", Outcome(a, true, None));
    WorkAlone(a, 1, {}, Proceed, "", Outcome(Installed(a, 0), false, None));
    hide Runs, Work, M.ValidTunnel, Bound;
    Three(INITIAL, Start(t, true, ""), Alone(Bound(t), 0, {}), Advance(0, Connected, ""), Alone(a, 1, {}),
          Advance(0, Proceed, ""), Alone(Installed(a, 0), 1, {}));
  }

  /** The third missed keepalive. */
  lemma MissedThird(e: Entry, conns: nat)
    requires e.phase == Waiting(2) && e.conn == Some(0)
    ensures Runs(Alone(e, conns, {}), [Advance(0, Tick, ""), Advance(0, Proceed, ""), Advance(0, Answer(false), "")],
                 Alone(e.(probes := e.probes + [Probe(0, false)], phase := Losing(0)), conns, {}))
  {
    var a, b := At(e, Ticked(2)), At(e, Probing(0, 2));
    var c := e.(probes := e.probes + [Probe(0, false)], phase := Losing(0));
    WorkAlone(e, conns, {}, Tick, "", Outcome(a, false, None));
    WorkAlone(a, conns, {}, Proceed, "", Outcome(b, false, None));
    WorkAlone(b, conns, {}, Answer(false), "", Outcome(c, false, None));
    hide Runs, Work;
    Three(Alone(e, conns, {}), Advance(0, Tick, ""), Alone(a, conns, {}), Advance(0, Proceed, ""), Alone(b, conns, {}),
          Advance(0, Answer(false), ""), Alone(c, conns, {}));
  }

  /** The connection is taken out and closed, and after a second the first attempt begins. */
  lemma GoesDown(e: Entry, conns: nat)
    requires e.phase == Losing(0) && e.live && e.config.autoReconnect
    ensures Runs(Alone(e, conns, {}), [Advance(0, Proceed, ""), Advance(0, Proceed, ""), Advance(0, Tick, "")],
                 Alone(At(Lost(e, ""), Redialing(1, 1)), conns, {0}))
  {
    var down := Lost(e, "");
    WorkAlone(e, conns, {}, Proceed, "", Outcome(At(down, Dropping(0)), false, None));
    WorkAlone(At(down, Dropping(0)), conns, {}, Proceed, "", Outcome(At(down, Pausing(1, 1)), false, Some(0)));
    WorkAlone(At(down, Pausing(1, 1)), conns, {0}, Tick, "", Outcome(At(down, Redialing(1, 1)), false, None));
    assert {} + {0} == {0};
    hide Runs, Work;
    Three(Alone(e, conns, {}), Advance(0, Proceed, ""), Alone(At(down, Dropping(0)), conns, {}), Advance(0, Proceed, ""),
          Alone(At(down, Pausing(1, 1)), conns, {0}), Advance(0, Tick, ""), Alone(At(down, Redialing(1, 1)), conns, {0}));
  }

  /** An attempt is refused. */
  lemma RefusedOnce(e: Entry, conns: nat)
    requires e.phase == Redialing(1, 1) && e.live
    ensures Runs(Alone(e, conns, {0}), [Advance(0, Denied, ""), Advance(0, Proceed, ""), Advance(0, Tick, "")],
                 Alone(e.(lastError := "", phase := Redialing(2, 2)), conns, {0}))
  {
    var a, b := At(e, Rejected(1, 1)), e.(lastError := "", phase := Pausing(2, 2));
    var c := e.(lastError := "", phase := Redialing(2, 2));
    WorkAlone(e, conns, {0}, Denied, "", Outcome(a, false, None));
    WorkAlone(a, conns, {0}, Proceed, "", Outcome(b, false, None));
    WorkAlone(b, conns, {0}, Tick, "", Outcome(c, false, None));
    hide Runs, Work;
    Three(Alone(e, conns, {0}), Advance(0, Denied, ""), Alone(a, conns, {0}), Advance(0, Proceed, ""), Alone(b, conns, {0}),
          Advance(0, Tick, ""), Alone(c, conns, {0}));
  }

  /** The next one, after two seconds, succeeds. */
  lemma ComesBack(e: Entry, conns: nat)
    requires e.phase == Redialing(2, 2) && e.live
    ensures Runs(Alone(e, conns, {0}), [Advance(0, Connected, ""), Advance(0, Proceed, "")],
                 Alone(Restored(e, conns), conns + 1, {0}))
  {
    var d := At(e, Regained(conns));
    WorkAlone(e, conns, {0}, Connected, "", Outcome(d, true, None));
    WorkAlone(d, conns + 1, {0}, Proceed, "", Outcome(Restored(e, conns), false, None));
    hide Runs, Work;
    RunsConcat(Alone(e, conns, {0}), [Advance(0, Connected, "")], Alone(d, conns + 1, {0}), [Advance(0, Proceed, "")],
               Alone(Restored(e, conns), conns + 1, {0}));
    assert [Advance(0, Connected, "")] + [Advance(0, Proceed, "")] == [Advance(0, Connected, ""), Advance(0, Proceed, "")];
  }

  /** The entry at the points of the run below. */
  function Fresh(t: M.Tunnel): Entry { Installed(At(Bound(t), Holding(0)), 0) }
  function Missing(t: M.Tunnel, n: nat): Entry { Fresh(t).(probes := seq(n, _ => Probe(0, false)), phase := Waiting(n)) }
  function Third(t: M.Tunnel): Entry { Fresh(t).(probes := seq(3, _ => Probe(0, false)), phase := Losing(0)) }
  function Redial(t: M.Tunnel, n: nat): Entry { At(Lost(Third(t), ""), Redialing(n, n)) }

  const MISS := [Advance(0, Tick, ""), Advance(0, Proceed, ""), Advance(0, Answer(false), "")]
  const DROP := [Advance(0, Proceed, ""), Advance(0, Proceed, ""), Advance(0, Tick, "")]
  const RETRY := [Advance(0, Denied, ""), Advance(0, Proceed, ""), Advance(0, Tick, "")]
  const BACK := [Advance(0, Connected, ""), Advance(0, Proceed, "")]

  lemma FreshIs(t: M.Tunnel)
    ensures Missing(t, 0) == Fresh(t)
    ensures Missing(t, 0).probes + [Probe(0, false)] == Missing(t, 1).probes
    ensures Missing(t, 1).probes + [Probe(0, false)] == Missing(t, 2).probes
    ensures Missing(t, 2).probes + [Probe(0, false)] == Third(t).probes
  {
  }

  lemma Outage(t: M.Tunnel)
    requires t.autoReconnect
    ensures Runs(Alone(Fresh(t), 1, {}), MISS, Alone(Missing(t, 1), 1, {}))
    ensures Runs(Alone(Missing(t, 1), 1, {}), MISS, Alone(Missing(t, 2), 1, {}))
    ensures Runs(Alone(Missing(t, 2), 1, {}), MISS, Alone(Third(t), 1, {}))
    ensures Runs(Alone(Third(t), 1, {}), DROP, Alone(Redial(t, 1), 1, {0}))
  {
    FreshIs(t);
    hide Runs, Alone;
    MissedOnce(Fresh(t), 0, 0, 1, {});
    MissedOnce(Missing(t, 1), 0, 1, 1, {});
    MissedThird(Missing(t, 2), 1);
    GoesDown(Third(t), 1);
  }

  lemma Return(t: M.Tunnel)
    ensures Runs(Alone(Redial(t, 1), 1, {0}), RETRY, Alone(Redial(t, 2), 1, {0}))
    ensures Runs(Alone(Redial(t, 2), 1, {0}), BACK, Alone(Restored(Redial(t, 2), 1), 2, {0}))
  {
    hide Runs, Alone;
    RefusedOnce(Redial(t, 1), 1);
    ComesBack(Redial(t, 2), 1);
  }

  /** A tunnel starts, runs, loses its connection, is refused once and runs again on another one; the
      first connection is closed. */
  lemma OutageRun(t: M.Tunnel) returns (steps: seq<Step>, s: System)
    requires M.ValidTunnel(t) && t.autoReconnect
    ensures Runs(INITIAL, steps, s) && |s.entries| == 1 && s.conns == 2 && s.shut == {0}
    ensures var e := s.entries[0];
      e.config == t && e.mode == Running && e.live && e.conn == Some(1) && e.probes == [Probe(0, false), Probe(0, false), Probe(0, false)]
  {
    s := Alone(Restored(Redial(t, 2), 1), 2, {0});
    assert s.entries[0].probes == [Probe(0, false), Probe(0, false), Probe(0, false)];
    hide Runs, M.ValidTunnel, Fresh, Missing, Third, Redial, Restored, MISS, DROP, RETRY, BACK, Alone, INITIAL;
    ComesUp(t);
    assert Runs(INITIAL, [Start(t, true, ""), Advance(0, Connected, ""), Advance(0, Proceed, "")], Alone(Fresh(t), 1, {})) by { UpIs(t); }
    Outage(t);
    Return(t);
    steps := [Start(t, true, ""), Advance(0, Connected, ""), Advance(0, Proceed, "")];
    RunsConcat(INITIAL, steps, Alone(Fresh(t), 1, {}), MISS, Alone(Missing(t, 1), 1, {}));
    RunsConcat(INITIAL, steps + MISS, Alone(Missing(t, 1), 1, {}), MISS, Alone(Missing(t, 2), 1, {}));
    RunsConcat(INITIAL, steps + MISS + MISS, Alone(Missing(t, 2), 1, {}), MISS, Alone(Third(t), 1, {}));
    RunsConcat(INITIAL, steps + MISS + MISS + MISS, Alone(Third(t), 1, {}), DROP, Alone(Redial(t, 1), 1, {0}));
    RunsConcat(INITIAL, steps + MISS + MISS + MISS + DROP, Alone(Redial(t, 1), 1, {0}), RETRY, Alone(Redial(t, 2), 1, {0}));
    RunsConcat(INITIAL, steps + MISS + MISS + MISS + DROP + RETRY, Alone(Redial(t, 2), 1, {0}), BACK, s);
    steps := steps + MISS + MISS + MISS + DROP + RETRY + BACK;
  }

  lemma UpIs(t: M.Tunnel)
    ensures Installed(At(Bound(t), Holding(0)), 0) == Fresh(t)
  {
  }
}
