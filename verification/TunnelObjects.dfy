/**
 The tunnel manager as the program keeps it: an object per entry whose fields change in place under
 the lock, the table of entries, and the two loops of the monitor. The fields the program does not
 have (where the threads are, what was probed) are ghost.
 */
module TunnelObjects {
  import opened Wrappers
  import opened Tunnel
  import M = Model

  class Record {
    const config: M.Tunnel
    var mode: Mode
    var lastError: string
    var connections: int
    var live: bool
    var listening: bool
    var conn: Option<nat>
    var sockets: set<nat>
    var open: set<nat>
    var stopped: bool
    ghost var phase: Phase
    ghost var accepting: Accepting
    ghost var doneClosed: nat
    ghost var probes: seq<Probe>
    ghost var seen: nat

    ghost function View(): Entry
      reads this
    {
      Entry(config, mode, lastError, connections, live, listening, conn, sockets, open, stopped,
            phase, accepting, doneClosed, probes, seen)
    }

    constructor Bound(t: M.Tunnel)
      ensures View() == Tunnel.Bound(t)
    {
      config, mode, lastError, connections := t, Connecting, "", 0;
      live, listening, conn, sockets, open, stopped := true, true, None, {}, {}, false;
      phase, accepting, doneClosed, probes, seen := Dialing, Off, 0, [], 0;
    }

    constructor Unbound(text: string)
      ensures View() == Tunnel.Unbound(text)
    {
      config, mode, lastError, connections := NO_TUNNEL, Failed, text, 0;
      live, listening, conn, sockets, open, stopped := false, false, None, {}, {}, false;
      phase, accepting, doneClosed, probes, seen := Never, Off, 0, [], 0;
    }

    /** `finish`: cancel, close the listener, the connection and every tracked socket. */
    method Finish(failed: bool, text: string) returns (closed: Option<nat>)
      requires open <= sockets
      modifies this
      ensures View() == Finished(old(View()), failed, text) && closed == old(conn)
    {
      live, listening := false, false;
      closed := conn;
      conn := None;
      CloseSockets();
      mode := Stopped;
      if !failed {
        stopped := true;
      }
      if failed && !stopped {
        mode, lastError := Failed, text;
      }
    }

    method CloseSockets()
      modifies this`open
      ensures open == old(open) - sockets
    {
      var rest := sockets;
      while rest != {}
        invariant rest <= sockets && open == old(open) - (sockets - rest)
        decreases rest
      {
        var c :| c in rest;
        open, rest := open - {c}, rest - {c};
      }
    }

    /** The second critical section of a start: the connection is installed unless it came too late. */
    method Install(c: nat) returns (ok: bool)
      modifies this
      ensures ok == old(live)
      ensures View() == if ok then Installed(old(View()), c) else old(View())
    {
      ok := live;
      if ok {
        conn := Some(c);
        mode, lastError, connections := Running, "", 0;
        phase, accepting := Waiting(0), Listening;
      }
    }

    /** The monitor takes a dead connection out. */
    method TakeOut(text: string) returns (ok: bool)
      requires open <= sockets
      modifies this
      ensures ok == old(live)
      ensures View() == if ok then Lost(old(View()), text) else old(View())
    {
      ok := live;
      if ok {
        lastError, mode, conn := text, Reconnecting, None;
        CloseSockets();
      }
    }

    /** The monitor puts a new connection in, unless it came too late. */
    method PutBack(c: nat) returns (ok: bool)
      modifies this
      ensures ok == old(live)
      ensures View() == if ok then Restored(old(View()), c) else old(View())
    {
      ok := live;
      if ok {
        conn, mode := Some(c), Running;
        phase := Waiting(0);
      }
    }

    /** Whether an accepted socket is forwarded; `accepting` is where the accept loop stands. */
    method Admit(socket: nat) returns (ok: bool)
      modifies this
      ensures ok == Admits(old(View()))
      ensures View() == if ok then Admitted(old(View()), socket) else old(View())
    {
      ok := live && mode == Running && conn.Some? && |sockets| < MAX_SOCKETS;
      if ok {
        sockets, open, connections := sockets + {socket}, open + {socket}, connections + 1;
        accepting := Listening;
      }
    }

    /** A forwarder is over. */
    method Forget(socket: nat)
      modifies this
      ensures View() == Forgotten(old(View()), socket)
    {
      sockets, connections := sockets - {socket}, connections - 1;
    }
  }

  datatype Registration = Refused | Up | Busy | PortTaken | Fresh

  class Manager {
    var entries: map<string, Record>
    var closed: bool

    constructor ()
      ensures entries == map[] && !closed
    {
      entries, closed := map[], false;
    }

    /** The first critical section of a start. `bound` says whether the port could be bound. */
    method Register(t: M.Tunnel, bound: bool, text: string) returns (r: Registration)
      requires M.ValidTunnel(t)
      modifies this`entries
      ensures r == (
        if closed then Registration.Refused
        else if t.id in old(entries) && !Terminal(old(entries[t.id].mode)) then
          (if old(entries[t.id].mode) == Running then Up else Busy)
        else if bound then Fresh else PortTaken)
      ensures !r.Fresh? && !r.PortTaken? ==> entries == old(entries)
      ensures r.Fresh? || r.PortTaken? ==>
        && t.id in entries && fresh(entries[t.id]) && entries == old(entries)[t.id := entries[t.id]]
        && entries[t.id].View() == if bound then Bound(t) else Unbound(text)
    {
      if closed {
        return Registration.Refused;
      }
      if t.id in entries && !Terminal(entries[t.id].mode) {
        return if entries[t.id].mode == Running then Up else Busy;
      }
      if bound {
        var v := new Record.Bound(t);
        entries := entries[t.id := v];
        r := Fresh;
      } else {
        var v := new Record.Unbound(text);
        entries := entries[t.id := v];
        r := PortTaken;
      }
    }

    /** A tunnel is active exactly while its entry is live. */
    method Active(id: string) returns (active: bool)
      requires id in entries ==> ModeOk(entries[id].View())
      ensures active <==> id in entries && entries[id].live
    {
      active := id in entries && (entries[id].mode == Running || entries[id].mode == Connecting || entries[id].mode == Reconnecting);
    }

    /** A shutdown begins: no start is accepted any more, and every known id is to be stopped. */
    method BeginClose() returns (ids: set<string>)
      modifies this`closed
      ensures closed && ids == entries.Keys
    {
      closed := true;
      ids := entries.Keys;
    }
  }

  // ---------------------------------------------------------------- the loops of the monitor

  /** Three failed keepalives in a row, the last of them at position `i`. */
  predicate ThirdMiss(answers: seq<bool>, i: nat) {
    2 <= i < |answers| && !answers[i - 2] && !answers[i - 1] && !answers[i]
  }

  /** The keepalive loop on one connection gives it up at the first third miss in a row. */
  method Watch(answers: seq<bool>) returns (lost: Option<nat>)
    ensures lost.Some? ==> ThirdMiss(answers, lost.value) && forall i: nat :: i < lost.value ==> !ThirdMiss(answers, i)
    ensures lost.None? ==> forall i: nat :: !ThirdMiss(answers, i)
  {
    var misses := 0;
    for i := 0 to |answers|
      invariant misses < MAX_MISSES && misses <= i
      invariant forall j :: i - misses <= j < i ==> !answers[j]
      invariant i > misses ==> answers[i - misses - 1]
      invariant forall j: nat :: j < i ==> !ThirdMiss(answers, j)
    {
      if answers[i] {
        misses := 0;
      } else {
        misses := misses + 1;
        if misses >= MAX_MISSES {
          return Some(i);
        }
      }
    }
    lost := None;
  }

  /** The reconnect loop of one outage: `attempts` says which attempts succeed, `pauses` are the
      seconds waited before each attempt made. It stops at the first success. */
  method Redial(attempts: seq<bool>) returns (pauses: seq<nat>, regained: bool)
    ensures |pauses| <= |attempts| && forall i :: 0 <= i < |pauses| ==> pauses[i] == BaseDelay(i + 1)
    ensures forall i :: 0 <= i < |pauses| - 1 ==> !attempts[i]
    ensures regained ==> pauses != [] && attempts[|pauses| - 1]
    ensures !regained ==> |pauses| == |attempts| && forall i :: 0 <= i < |attempts| ==> !attempts[i]
  {
    pauses, regained := [], false;
    var backoff := 1;
    for i := 0 to |attempts|
      invariant |pauses| == i && backoff == BaseDelay(i + 1)
      invariant forall j :: 0 <= j < i ==> pauses[j] == BaseDelay(j + 1) && !attempts[j]
    {
      pauses := pauses + [backoff];
      if attempts[i] {
        regained := true;
        return;
      }
      DelayStep(i + 1);
      if backoff < 30 {
        backoff := backoff * 2;
        if backoff > 30 {
          backoff := 30;
        }
      }
    }
  }
}
