/**
 One managed tunnel: its record, the thread that connects it and then watches the connection, and
 the loop that accepts local sockets. Every function below is one critical section or one effect
 outside the lock; connecting, dialling and keepalives succeed or fail as they like.
 */
module Tunnel {
  import opened Wrappers
  import opened M = Model

  datatype Mode = Connecting | Running | Reconnecting | Stopped | Failed

  /** A keepalive on a connection and its outcome. */
  datatype Probe = Probe(conn: nat, ok: bool)

  /** Where the entry's own thread is: first the call that starts the tunnel, then the monitor. */
  datatype Phase =
    | Never                                  // the port could not be bound; there is no thread
    | Dialing                                // connecting
    | Refused                                // connecting failed
    | Holding(conn: nat)                     // connected, not installed yet
    | Discarding(conn: nat)                  // connected too late; the connection is to be closed
    | Finishing(failed: bool)                // about to finish the entry
    | Signalling                             // about to close `done`
    | Waiting(misses: nat)                   // the monitor waits for a tick
    | Ticked(misses: nat)
    | Probing(conn: nat, misses: nat)
    | Losing(conn: nat)                      // the third keepalive in a row failed
    | Dropping(conn: nat)                    // taken out of the entry, to be closed
    | Pausing(attempt: nat, delay: nat)      // waits before an attempt to reconnect
    | Redialing(attempt: nat, delay: nat)
    | Rejected(attempt: nat, delay: nat)     // the attempt failed
    | Regained(conn: nat)                    // the attempt succeeded, not installed yet
    | Surplus(conn: nat)                     // regained too late; the connection is to be closed
    | Gone                                   // `done` is closed

  datatype Accepting = Off | Listening | Got(socket: nat) | Refusing(socket: nat) | Ended

  /** `live`: the life context is not cancelled. `listening`: the listener is open. `open`: the
      tracked sockets that are not closed. `doneClosed` counts how often `done` was closed, `probes`
      records the keepalives and `seen` counts accepted sockets. */
  datatype Entry = Entry(config: M.Tunnel, mode: Mode, lastError: string, connections: int, live: bool, listening: bool,
                         conn: Option<nat>, sockets: set<nat>, open: set<nat>, stopped: bool,
                         phase: Phase, accepting: Accepting, doneClosed: nat, probes: seq<Probe>, seen: nat)

  const NO_TUNNEL := M.Tunnel("", "", "", 0, "", 0, "", false, "")
  const MAX_SOCKETS := 128
  const MAX_MISSES := 3

  predicate Terminal(m: Mode) { m == Stopped || m == Failed }

  // ---------------------------------------------------------------- critical sections

  function Bound(t: M.Tunnel): Entry {
    Entry(t, Connecting, "", 0, true, true, None, {}, {}, false, Dialing, Off, 0, [], 0)
  }

  function Unbound(text: string): Entry {
    Entry(NO_TUNNEL, Failed, text, 0, false, false, None, {}, {}, false, Never, Off, 0, [], 0)
  }

  /** Ending an entry, because the user asked (`failed` is false) or because it failed. */
  function Finished(e: Entry, failed: bool, text: string): Entry {
    var stopped := e.stopped || !failed;
    e.(live := false, listening := false, conn := None, open := {}, stopped := stopped,
       mode := if failed && !stopped then Failed else Stopped,
       lastError := if failed && !stopped then text else e.lastError)
  }

  function Installed(e: Entry, conn: nat): Entry {
    e.(conn := Some(conn), mode := Running, lastError := "", connections := 0, phase := Waiting(0), accepting := Listening)
  }

  function Lost(e: Entry, text: string): Entry {
    e.(lastError := text, mode := Reconnecting, conn := None, open := {})
  }

  function Restored(e: Entry, conn: nat): Entry {
    e.(conn := Some(conn), mode := Running, phase := Waiting(0))
  }

  predicate Admits(e: Entry) {
    e.live && e.mode == Running && e.conn.Some? && |e.sockets| < MAX_SOCKETS
  }

  function Admitted(e: Entry, socket: nat): Entry {
    e.(sockets := e.sockets + {socket}, open := e.open + {socket}, connections := e.connections + 1, accepting := Listening)
  }

  function Forgotten(e: Entry, socket: nat): Entry {
    e.(sockets := e.sockets - {socket}, connections := e.connections - 1)
  }

  /** The pause before the next attempt, in seconds. */
  function NextDelay(delay: nat): nat {
    if delay < 30 then (if delay * 2 > 30 then 30 else delay * 2) else delay
  }

  // ---------------------------------------------------------------- the entry's own thread

  /** What the thread meets: a connection or a refusal, a tick of its timer, the cancelled life
      context, an answer to a keepalive, or nothing but its own next statement. */
  datatype Act = Connected | Denied | Tick | Cancelled | Answer(ok: bool) | Proceed

  /** The entry afterwards, whether a connection was gained, and the connection closed, if any. */
  datatype Outcome = Outcome(entry: Entry, gained: bool, closed: Option<nat>)

  function To(e: Entry, phase: Phase): Option<Outcome> { Some(Outcome(e.(phase := phase), false, None)) }

  function Closing(e: Entry, conn: nat, phase: Phase): Option<Outcome> { Some(Outcome(e.(phase := phase), false, Some(conn))) }

  function Answered(e: Entry, conn: nat, misses: nat, ok: bool): Option<Outcome> {
    var after := e.(probes := e.probes + [Probe(conn, ok)]);
    To(after, if ok then Waiting(0) else if misses + 1 < MAX_MISSES then Waiting(misses + 1) else Losing(conn))
  }

  /** One step of the thread; None when `act` cannot happen here. `next` names a new connection. */
  function Work(e: Entry, act: Act, text: string, next: nat): Option<Outcome> {
    match (e.phase, act)
    case (Dialing, Connected) => Some(Outcome(e.(phase := Holding(next)), true, None))
    case (Dialing, Denied) => To(e, Refused)
    case (Refused, Proceed) => To(e, Finishing(e.live))
    case (Holding(c), Proceed) => if e.live then Some(Outcome(Installed(e, c), false, None)) else To(e, Discarding(c))
    case (Discarding(c), Proceed) => Closing(e, c, Finishing(false))
    case (Finishing(failed), Proceed) => Some(Outcome(Finished(e, failed, text).(phase := Signalling), false, e.conn))
    case (Signalling, Proceed) => To(e.(doneClosed := e.doneClosed + 1), Gone)
    case (Waiting(m), Cancelled) => if e.live then None else To(e, Signalling)
    case (Waiting(m), Tick) => To(e, Ticked(m))
    case (Ticked(m), Proceed) => To(e, if e.conn.Some? then Probing(e.conn.value, m) else Signalling)
    case (Probing(c, m), Cancelled) => if e.live then None else To(e, Signalling)
    case (Probing(c, m), Answer(ok)) => Answered(e, c, m, ok)
    case (Losing(c), Proceed) => if e.live then To(Lost(e, text), Dropping(c)) else To(e, Signalling)
    case (Dropping(c), Proceed) => Closing(e, c, if e.config.autoReconnect then Pausing(1, 1) else Finishing(true))
    case (Pausing(n, d), Cancelled) => if e.live then None else To(e, Signalling)
    case (Pausing(n, d), Tick) => To(e, Redialing(n, d))
    case (Redialing(n, d), Connected) => Some(Outcome(e.(phase := Regained(next)), true, None))
    case (Redialing(n, d), Denied) => To(e, Rejected(n, d))
    case (Rejected(n, d), Proceed) => To(e.(lastError := text), Pausing(n + 1, NextDelay(d)))
    case (Regained(c), Proceed) => if e.live then Some(Outcome(Restored(e, c), false, None)) else To(e, Surplus(c))
    case (Surplus(c), Proceed) => Closing(e, c, Signalling)
    case _ => None
  }

  // ---------------------------------------------------------------- local sockets

  /** The accept loop and the forwarders of the accepted sockets. */
  datatype SocketAct =
    | Arrive                   // a client connects
    | Decide                   // under the lock: forward it or not
    | CloseRefused
    | EndAccepting             // the listener is closed or broken
    | ShutSocket(socket: nat)  // a forwarder closes its socket
    | Forget(socket: nat)      // and stops tracking it
    | DialFailed               // a forwarder or a readiness check notes an error

  function Socket(e: Entry, act: SocketAct, text: string): Option<Entry> {
    match act
    case Arrive =>
      if e.accepting == Listening && e.listening then Some(e.(accepting := Got(e.seen), seen := e.seen + 1)) else None
    case Decide =>
      if !e.accepting.Got? then None
      else if Admits(e) then Some(Admitted(e, e.accepting.socket)) else Some(e.(accepting := Refusing(e.accepting.socket)))
    case CloseRefused => if e.accepting.Refusing? then Some(e.(accepting := Listening)) else None
    case EndAccepting => if e.accepting == Listening then Some(e.(accepting := Ended)) else None
    case ShutSocket(s) => if s in e.sockets then Some(e.(open := e.open - {s})) else None
    case Forget(s) => if s in e.sockets && s !in e.open then Some(Forgotten(e, s)) else None
    case DialFailed => if e.phase != Never then Some(e.(lastError := text)) else None
  }

  // ---------------------------------------------------------------- what holds of one entry

  /** The base pause before the n-th attempt of an outage: 1, 2, 4, 8, 16 and then 30 seconds. */
  function BaseDelay(n: nat): nat
    requires n >= 1
  {
    var p := Power2(n - 1);
    if p < 30 then p else 30
  }

  function Power2(n: nat): (p: nat)
    ensures p >= 1
  {
    if n == 0 then 1 else 2 * Power2(n - 1)
  }

  /** The last `n` keepalives were on this connection and failed. */
  predicate Missed(probes: seq<Probe>, conn: nat, n: nat) {
    n <= |probes| && forall i :: |probes| - n <= i < |probes| ==> probes[i] == Probe(conn, false)
  }

  /** The connection the thread holds outside the entry. */
  function Held(p: Phase): Option<nat> {
    match p
    case Holding(c) => Some(c)
    case Discarding(c) => Some(c)
    case Dropping(c) => Some(c)
    case Regained(c) => Some(c)
    case Surplus(c) => Some(c)
    case _ => None
  }

  /** The connection an entry or its thread is responsible for. */
  function Owned(e: Entry): Option<nat> { Or(e.conn, Held(e.phase)) }

  /** What each place in the thread says about a live entry. */
  predicate PhaseOk(e: Entry) {
    match e.phase
    case Never => !e.live
    case Dialing => e.conn.None? && (e.live ==> e.mode == Connecting)
    case Refused => e.conn.None? && (e.live ==> e.mode == Connecting)
    case Holding(c) => e.conn.None? && (e.live ==> e.mode == Connecting)
    case Discarding(c) => !e.live
    case Finishing(failed) => e.conn.None? && (!failed ==> !e.live)
    case Signalling => !e.live
    case Gone => !e.live
    case Waiting(m) => m < MAX_MISSES && (e.live ==> e.conn.Some? && Missed(e.probes, e.conn.value, m))
    case Ticked(m) => m < MAX_MISSES && (e.live ==> e.conn.Some? && Missed(e.probes, e.conn.value, m))
    case Probing(c, m) => m < MAX_MISSES && (e.live ==> e.conn == Some(c)) && Missed(e.probes, c, m)
    case Losing(c) => (e.live ==> e.conn == Some(c)) && Missed(e.probes, c, MAX_MISSES)
    case Dropping(c) => e.conn.None? && (e.live ==> e.mode == Reconnecting) && Missed(e.probes, c, MAX_MISSES)
    case Pausing(n, d) => n >= 1 && d == BaseDelay(n) && e.conn.None? && (e.live ==> e.mode == Reconnecting) && e.config.autoReconnect
    case Redialing(n, d) => n >= 1 && d == BaseDelay(n) && e.conn.None? && (e.live ==> e.mode == Reconnecting) && e.config.autoReconnect
    case Rejected(n, d) => n >= 1 && d == BaseDelay(n) && e.conn.None? && (e.live ==> e.mode == Reconnecting) && e.config.autoReconnect
    case Regained(c) => e.conn.None? && (e.live ==> e.mode == Reconnecting) && e.config.autoReconnect
    case Surplus(c) => !e.live
  }

  predicate Starting(p: Phase) {
    p.Never? || p.Dialing? || p.Refused? || p.Holding? || p.Discarding?
  }

  /** The entry is running exactly when it has a connection; its life context is live exactly when
      its listener is open, exactly when it is not terminal; a stopped entry reads stopped. */
  predicate ModeOk(e: Entry) {
    && (e.mode == Running <==> e.conn.Some?)
    && (e.live <==> e.listening) && (e.live <==> !Terminal(e.mode))
    && (e.stopped ==> e.mode == Stopped)
    && e.doneClosed == (if e.phase == Gone then 1 else 0)
  }

  /** The counter counts the tracked sockets, which are at most 128 and closed unless running. */
  predicate SocketsOk(e: Entry) {
    && e.connections == |e.sockets| <= MAX_SOCKETS && e.open <= e.sockets
    && (e.mode != Running ==> e.open == {})
    && (forall s <- e.sockets :: s < e.seen)
    && (e.accepting.Got? ==> e.accepting.socket < e.seen && e.accepting.socket !in e.sockets)
    && (Starting(e.phase) ==> e.sockets == {} && e.accepting == Off)
  }

  /** An entry reads reconnecting only after three failed keepalives in a row on one connection. */
  ghost predicate OutageOk(e: Entry) {
    e.mode == Reconnecting ==> exists c :: Missed(e.probes, c, MAX_MISSES)
  }

  ghost predicate Local(e: Entry) {
    PhaseOk(e) && ModeOk(e) && SocketsOk(e) && OutageOk(e)
  }

  // ---------------------------------------------------------------- every step keeps it

  lemma DelayStep(n: nat)
    requires n >= 1
    ensures NextDelay(BaseDelay(n)) == BaseDelay(n + 1)
  {
  }

  lemma MissedStep(probes: seq<Probe>, conn: nat, n: nat)
    requires Missed(probes, conn, n)
    ensures Missed(probes + [Probe(conn, false)], conn, n + 1)
    ensures forall any: Probe, c: nat :: Missed(probes + [any], c, 0)
  {
  }

  /** What a step of the thread does to the connections the entry is responsible for. */
  predicate Accounted(e: Entry, o: Outcome, next: nat) {
    if o.gained then Owned(e).None? && Owned(o.entry) == Some(next) && o.closed.None?
    else if o.closed.Some? then o.closed == Owned(e) && Owned(o.entry).None?
    else Owned(o.entry) == Owned(e)
  }

  /** What never changes back: the configuration stays, a dead entry stays dead and closed to
      clients, a stopped one stays stopped, and `done` is never opened again. */
  predicate Onward(a: Entry, b: Entry) {
    && b.config == a.config && (b.live ==> a.live) && (b.listening ==> a.listening)
    && (a.stopped ==> b.stopped) && a.doneClosed <= b.doneClosed && a.probes <= b.probes
    && (a.phase.Never? <==> b.phase.Never?)
  }

  /** The thread has not lost a connection yet, or is on its way out. */
  predicate FirstPart(p: Phase) {
    p.Never? || p.Dialing? || p.Refused? || p.Holding? || p.Discarding? || p.Finishing? || p.Signalling? || p.Gone? || p.Waiting?
  }

  lemma WorkPhaseFirst(e: Entry, act: Act, text: string, next: nat)
    requires Local(e) && FirstPart(e.phase) && Work(e, act, text, next).Some?
    ensures PhaseOk(Work(e, act, text, next).value.entry)
  {
    hide Missed, BaseDelay, SocketsOk, OutageOk;
    if e.phase.Holding? {
      MissedNone(e.probes, e.phase.conn);
    }
  }

  lemma WorkPhaseLater(e: Entry, act: Act, text: string, next: nat)
    requires Local(e) && !FirstPart(e.phase) && Work(e, act, text, next).Some?
    ensures PhaseOk(Work(e, act, text, next).value.entry)
  {
    hide Missed, BaseDelay, SocketsOk, OutageOk;
    match e.phase {
      case Regained(c) => MissedNone(e.probes, c);
      case Dropping(c) => FirstDelay();
      case Rejected(n, d) => DelayStep(n);
      case Probing(c, m) => MissedStep(e.probes, c, m);
      case _ =>
    }
  }

  lemma WorkPhase(e: Entry, act: Act, text: string, next: nat)
    requires Local(e) && Work(e, act, text, next).Some?
    ensures PhaseOk(Work(e, act, text, next).value.entry)
  {
    hide Local, Work, PhaseOk;
    if FirstPart(e.phase) { WorkPhaseFirst(e, act, text, next); } else { WorkPhaseLater(e, act, text, next); }
  }

  lemma FirstDelay()
    ensures BaseDelay(1) == 1
  {
  }

  lemma MissedNone(probes: seq<Probe>, conn: nat)
    ensures Missed(probes, conn, 0)
  {
  }

  lemma WorkModeFirst(e: Entry, act: Act, text: string, next: nat)
    requires Local(e) && FirstPart(e.phase) && Work(e, act, text, next).Some?
    ensures var o := Work(e, act, text, next).value;
      ModeOk(o.entry) && Accounted(e, o, next) && Onward(e, o.entry)
  {
    hide Missed, BaseDelay, SocketsOk, OutageOk;
  }

  lemma WorkModeLater(e: Entry, act: Act, text: string, next: nat)
    requires Local(e) && !FirstPart(e.phase) && Work(e, act, text, next).Some?
    ensures var o := Work(e, act, text, next).value;
      ModeOk(o.entry) && Accounted(e, o, next) && Onward(e, o.entry)
  {
    hide Missed, BaseDelay, SocketsOk, OutageOk;
  }

  lemma WorkMode(e: Entry, act: Act, text: string, next: nat)
    requires Local(e) && Work(e, act, text, next).Some?
    ensures var o := Work(e, act, text, next).value;
      ModeOk(o.entry) && Accounted(e, o, next) && Onward(e, o.entry)
  {
    hide Local, Work, ModeOk, Accounted, Onward;
    if FirstPart(e.phase) { WorkModeFirst(e, act, text, next); } else { WorkModeLater(e, act, text, next); }
  }

  lemma WorkSocketsFirst(e: Entry, act: Act, text: string, next: nat)
    requires Local(e) && FirstPart(e.phase) && Work(e, act, text, next).Some?
    ensures SocketsOk(Work(e, act, text, next).value.entry)
  {
    hide Missed, BaseDelay, OutageOk;
  }

  lemma WorkSocketsLater(e: Entry, act: Act, text: string, next: nat)
    requires Local(e) && !FirstPart(e.phase) && Work(e, act, text, next).Some?
    ensures SocketsOk(Work(e, act, text, next).value.entry)
  {
    hide Missed, BaseDelay, OutageOk;
  }

  lemma WorkSockets(e: Entry, act: Act, text: string, next: nat)
    requires Local(e) && Work(e, act, text, next).Some?
    ensures SocketsOk(Work(e, act, text, next).value.entry)
  {
    hide Local, Work, SocketsOk;
    if FirstPart(e.phase) { WorkSocketsFirst(e, act, text, next); } else { WorkSocketsLater(e, act, text, next); }
  }

  lemma WorkOutage(e: Entry, act: Act, text: string, next: nat)
    requires Local(e) && Work(e, act, text, next).Some?
    ensures OutageOk(Work(e, act, text, next).value.entry)
  {
    hide Missed, BaseDelay, SocketsOk;
    if e.phase.Losing? {
      assert Missed(e.probes, e.phase.conn, MAX_MISSES);
    }
  }

  /** Every step of the thread keeps what holds of an entry, and accounts for its connections. */
  lemma WorkKeeps(e: Entry, act: Act, text: string, next: nat)
    requires Local(e) && Work(e, act, text, next).Some?
    ensures var o := Work(e, act, text, next).value;
      Local(o.entry) && Accounted(e, o, next) && Onward(e, o.entry)
  {
    WorkPhase(e, act, text, next);
    WorkMode(e, act, text, next);
    WorkSockets(e, act, text, next);
    WorkOutage(e, act, text, next);
    hide PhaseOk, ModeOk, SocketsOk, OutageOk, Work, Accounted, Onward;
  }

  lemma CountStep(sockets: set<nat>, socket: nat)
    ensures socket !in sockets ==> |sockets + {socket}| == |sockets| + 1
    ensures socket in sockets ==> |sockets - {socket}| == |sockets| - 1
  {
  }

  lemma AdmittedCounts(e: Entry)
    requires SocketsOk(e) && e.accepting.Got? && Admits(e)
    ensures SocketsOk(Admitted(e, e.accepting.socket))
  {
    CountStep(e.sockets, e.accepting.socket);
  }

  lemma ForgottenCounts(e: Entry, socket: nat)
    requires SocketsOk(e) && socket in e.sockets && socket !in e.open
    ensures SocketsOk(Forgotten(e, socket))
  {
    CountStep(e.sockets, socket);
  }

  lemma ShutCounts(e: Entry, socket: nat)
    requires SocketsOk(e)
    ensures SocketsOk(e.(open := e.open - {socket}))
  {
  }

  lemma ArriveCounts(e: Entry)
    requires SocketsOk(e) && e.accepting == Listening
    ensures SocketsOk(e.(accepting := Got(e.seen), seen := e.seen + 1))
  {
  }

  lemma SocketCounts(e: Entry, act: SocketAct, text: string)
    requires SocketsOk(e) && Socket(e, act, text).Some?
    ensures SocketsOk(Socket(e, act, text).value)
  {
    match act {
      case Arrive => hide SocketsOk; ArriveCounts(e);
      case Decide =>
        if Admits(e) {
          hide SocketsOk;
          AdmittedCounts(e);
        }
      case ShutSocket(s) => hide SocketsOk; ShutCounts(e, s);
      case Forget(s) => hide SocketsOk; ForgottenCounts(e, s);
      case _ =>
    }
  }

  lemma SocketMode(e: Entry, act: SocketAct, text: string)
    requires PhaseOk(e) && ModeOk(e) && Socket(e, act, text).Some?
    ensures var r := Socket(e, act, text).value;
      PhaseOk(r) && ModeOk(r) && Owned(r) == Owned(e) && Onward(e, r) && r.probes == e.probes && r.mode == e.mode
  {
    hide Missed, BaseDelay;
  }

  /** Local traffic keeps it too. */
  lemma SocketKeeps(e: Entry, act: SocketAct, text: string)
    requires Local(e) && Socket(e, act, text).Some?
    ensures var r := Socket(e, act, text).value; Local(r) && Owned(r) == Owned(e) && Onward(e, r)
  {
    SocketCounts(e, act, text);
    SocketMode(e, act, text);
    hide Missed, BaseDelay, SocketsOk, Socket, PhaseOk, ModeOk, Owned, Onward;
  }

  /** Stopping by the user, wherever the entry's thread is. */
  lemma StopKeeps(e: Entry)
    requires Local(e)
    ensures var r := Finished(e, false, "");
      && Local(r) && Onward(e, r) && !r.live && r.stopped && r.mode == Stopped
      && Accounted(e, Outcome(r, false, e.conn), 0)
  {
  }
}
