/**
 The configuration database: the check that runs before every commit, the atomic update, and the
 in-place edits of a collection. SQLite transactions are taken as all-or-nothing.
 */
module Store {
  import opened Wrappers
  import opened Records
  import opened Model
  import opened Text

  predicate HostOk(keys: seq<Key>, hosts: seq<Host>, h: Host) {
    ValidHost(h) && Has(keys, KeyId, h.keyId) && Route(hosts, h.id).Some?
  }

  predicate TunnelOk(hosts: seq<Host>, t: Tunnel) {
    ValidTunnel(t) && Has(hosts, HostId, t.hostId)
  }

  predicate ServiceOk(tunnels: seq<Tunnel>, v: Service) {
    Has(tunnels, TunnelId, v.tunnelId) && ValidService(v, Find(tunnels, TunnelId, v.tunnelId).value)
  }

  /** What a commit checks: each record, host names distinct, references and routes resolve.
      Identifiers are not checked to be distinct or non-empty. */
  predicate Valid(s: State) {
    && (forall k <- s.keys :: ValidKey(k))
    && Unique(s.hosts, HostName)
    && (forall h <- s.hosts :: HostOk(s.keys, s.hosts, h))
    && (forall t <- s.tunnels :: TunnelOk(s.hosts, t))
    && (forall v <- s.services :: ServiceOk(s.tunnels, v))
  }

  predicate UniqueIds(s: State) {
    Unique(s.hosts, HostId) && Unique(s.keys, KeyId) && Unique(s.tunnels, TunnelId) && Unique(s.services, ServiceId)
  }

  predicate NamedIds(s: State) {
    && NonEmptyIds(s.hosts, HostId) && NonEmptyIds(s.keys, KeyId)
    && NonEmptyIds(s.tunnels, TunnelId) && NonEmptyIds(s.services, ServiceId)
  }

  /** The identifiers of every collection can serve as names. */
  predicate WellFormed(s: State) { UniqueIds(s) && NamedIds(s) }

  /** Every reference in the state reaches a record, and every host has a route. */
  ghost predicate Resolved(s: State) {
    && (forall h <- s.hosts :: Has(s.keys, KeyId, h.keyId) && (h.jumpId != "" ==> Has(s.hosts, HostId, h.jumpId)))
    && (forall h <- s.hosts :: exists route :: IsRoute(s.hosts, h.id, route))
    && (forall t <- s.tunnels :: Has(s.hosts, HostId, t.hostId))
    && (forall v <- s.services :: Has(s.tunnels, TunnelId, v.tunnelId))
  }

  /** With well-formed identifiers the commit check does resolve every reference. */
  lemma ValidResolves(s: State)
    requires Valid(s) && WellFormed(s)
    ensures Resolved(s)
  {
    forall h | h in s.hosts
      ensures h.jumpId != "" ==> Has(s.hosts, HostId, h.jumpId)
      ensures exists route :: IsRoute(s.hosts, h.id, route)
    {
      assert HostOk(s.keys, s.hosts, h);
      var i :| 0 <= i < |s.hosts| && s.hosts[i] == h;
      FindAt(s.hosts, HostId, i);
      RouteExact(s.hosts, h.id, Route(s.hosts, h.id).value);
    }
    assert forall t <- s.tunnels :: TunnelOk(s.hosts, t);
    assert forall v <- s.services :: ServiceOk(s.tunnels, v);
  }

  /** Some host without identifier names a jump host that is not stored. */
  predicate Hangs(hosts: seq<Host>, h: Host) {
    h.id == "" && h.jumpId != "" && !Has(hosts, HostId, h.jumpId)
  }

  predicate NoneHangs(hosts: seq<Host>) { forall h <- hosts :: !Hangs(hosts, h) }

  /** The jump of a host without identifier is the one reference the commit check can miss. */
  lemma ResolvedExact(s: State)
    requires Valid(s) && UniqueIds(s)
    ensures Resolved(s) <==> NoneHangs(s.hosts)
  {
    hide ValidHost, ValidTunnel, ValidService, Walk;
    forall h | h in s.hosts
      ensures Has(s.keys, KeyId, h.keyId)
      ensures h.id != "" && h.jumpId != "" ==> Has(s.hosts, HostId, h.jumpId)
      ensures exists route :: IsRoute(s.hosts, h.id, route)
    {
      assert HostOk(s.keys, s.hosts, h);
      FindMember(s.hosts, HostId, h);
      RouteExact(s.hosts, h.id, Route(s.hosts, h.id).value);
      if h.id != "" && h.jumpId != "" { JumpFound(s.hosts, h); }
    }
    assert forall t <- s.tunnels :: TunnelOk(s.hosts, t);
    assert forall v <- s.services :: ServiceOk(s.tunnels, v);
    hide IsRoute, HostOk;
  }

  lemma JumpFound(hosts: seq<Host>, h: Host)
    requires Find(hosts, HostId, h.id) == Some(h) && h.id != "" && h.jumpId != "" && Route(hosts, h.id).Some?
    ensures Has(hosts, HostId, h.jumpId)
  {
    assert Walk(hosts, h.jumpId, MAX_HOPS - 1).Some?;
  }

  /** Without a non-empty identifier it does not: a host whose id is "" may jump nowhere. */
  lemma EmptyIdEscapesValidate(k: Key, h: Host)
    requires ValidKey(k) && ValidHost(h) && h.id == "" && h.keyId == k.id && h.jumpId != ""
    ensures var s := EMPTY.(keys := [k], hosts := [h]);
      Valid(s) && UniqueIds(s) && !Resolved(s)
  {
    var s := EMPTY.(keys := [k], hosts := [h]);
    assert s.hosts[0] in s.hosts;
    assert Walk(s.hosts, "", MAX_HOPS) == Some([]);
  }

  /** The host part of the check, collecting host names as it goes. */
  method ValidateHosts(keys: seq<Key>, hosts: seq<Host>) returns (ok: bool)
    ensures ok <==> Unique(hosts, HostName) && forall i :: 0 <= i < |hosts| ==> HostOk(keys, hosts, hosts[i])
  {
    hide ValidHost, Walk, IndexOf, Route, Has, Unique;
    var names: set<string> := {};
    assert Unique(hosts[..0], HostName) by { OneUnique(hosts[..0], HostName); }
    for i := 0 to |hosts|
      invariant names == AllIds(hosts[..i], HostName)
      invariant Unique(hosts[..i], HostName)
      invariant forall j :: 0 <= j < i ==> HostOk(keys, hosts, hosts[j])
    {
      var h := hosts[i];
      var chain := Chain(hosts, h.id);
      if !ValidHost(h) || !Has(keys, KeyId, h.keyId) || chain.None? {
        return false;
      }
      IdsStep(hosts, HostName, i);
      if h.name in names {
        return false;
      }
      names := names + {h.name};
    }
    assert hosts[..|hosts|] == hosts;
    ok := true;
  }

  /** The check as the program runs it. */
  method Validate(s: State) returns (ok: bool)
    ensures ok == Valid(s)
  {
    hide ValidKey, ValidTunnel, ValidService, HostOk, IndexOf;
    ok := false;
    for i := 0 to |s.keys|
      invariant forall j :: 0 <= j < i ==> ValidKey(s.keys[j])
    {
      if !ValidKey(s.keys[i]) {
        return;
      }
    }
    var hostsOk := ValidateHosts(s.keys, s.hosts);
    if !hostsOk {
      return;
    }
    for i := 0 to |s.tunnels|
      invariant forall j :: 0 <= j < i ==> TunnelOk(s.hosts, s.tunnels[j])
    {
      if !TunnelOk(s.hosts, s.tunnels[i]) {
        return;
      }
    }
    for i := 0 to |s.services|
      invariant forall j :: 0 <= j < i ==> ServiceOk(s.tunnels, s.services[j])
    {
      if !ServiceOk(s.tunnels, s.services[i]) {
        return;
      }
    }
    ok := true;
  }

  predicate GoodIds<T>(xs: seq<T>, id: T -> string) {
    forall i :: 0 <= i < |xs| ==> GoodId(id(xs[i]))
  }

  predicate AllGoodIds(s: State) {
    && GoodIds(s.hosts, HostId) && GoodIds(s.keys, KeyId)
    && GoodIds(s.tunnels, TunnelId) && GoodIds(s.services, ServiceId)
  }

  // ---------------------------------------------------------------- updates

  /** An update either commits a checked state or changes nothing. */
  function Commit(before: State, attempt: Result<State>): State {
    if attempt.Ok? && Valid(attempt.value) then attempt.value else before
  }

  /** The working copy an update edits before it is checked. */
  class Draft {
    var team: seq<Subscription>
    var hosts: seq<Host>
    var keys: seq<Key>
    var tunnels: seq<Tunnel>
    var services: seq<Service>
    var settings: Settings

    function View(): State
      reads this
    {
      State(team, hosts, keys, tunnels, services, settings)
    }

    constructor (s: State)
      ensures View() == s
    {
      team, hosts, keys, tunnels, services, settings := s.team, s.hosts, s.keys, s.tunnels, s.services, s.settings;
    }
  }

  class Database {
    var saved: State

    constructor ()
      ensures saved == EMPTY
    {
      saved := EMPTY;
    }

    method Snapshot() returns (draft: Draft)
      ensures fresh(draft) && draft.View() == saved
    {
      draft := new Draft(saved);
    }

    /** The second half of an update: `edited` says whether the edit itself succeeded. */
    method Finish(draft: Draft, edited: bool) returns (ok: bool)
      modifies this
      ensures ok == (edited && Valid(draft.View()))
      ensures saved == Commit(old(saved), if edited then Ok(old(draft.View())) else Err)
    {
      ok := false;
      if edited {
        var valid := Validate(draft.View());
        if valid {
          saved := draft.View();
          ok := true;
        }
      }
    }
  }

  // ---------------------------------------------------------------- edits of a collection

  function Replaced<T>(xs: seq<T>, key: string, value: T, id: T -> string): Result<seq<T>> {
    if key == "" then Ok(xs + [value])
    else if Has(xs, id, key) then Ok(xs[IndexOf(xs, id, key) := value])
    else Err
  }

  method Replace<T>(xs: seq<T>, key: string, value: T, id: T -> string) returns (r: Result<seq<T>>)
    ensures r == Replaced(xs, key, value, id)
  {
    if key == "" {
      return Ok(xs + [value]);
    }
    for i := 0 to |xs|
      invariant i <= IndexOf(xs, id, key)
    {
      if id(xs[i]) == key {
        IndexOfAt(xs, id, i);
        return Ok(xs[i := value]);
      }
    }
    r := Err;
  }

  function Deleted<T>(xs: seq<T>, key: string, id: T -> string): Result<seq<T>> {
    var i := IndexOf(xs, id, key);
    if i < |xs| then Ok(xs[..i] + xs[i + 1..]) else Err
  }

  method Delete<T>(xs: seq<T>, key: string, id: T -> string) returns (r: Result<seq<T>>)
    ensures r == Deleted(xs, key, id)
  {
    for i := 0 to |xs|
      invariant i <= IndexOf(xs, id, key)
    {
      if id(xs[i]) == key {
        IndexOfAt(xs, id, i);
        return Ok(xs[..i] + xs[i + 1..]);
      }
    }
    r := Err;
  }

  /** Replacing keeps identifiers distinct when a record keeps its own id and a new one is fresh. */
  lemma ReplacedUnique<T>(xs: seq<T>, key: string, value: T, id: T -> string)
    requires Unique(xs, id)
    requires key == "" ==> !Has(xs, id, id(value))
    requires key != "" ==> id(value) == key
    ensures var r := Replaced(xs, key, value, id);
      r.Ok? ==> Unique(r.value, id) && (NonEmptyIds(xs, id) && id(value) != "" ==> NonEmptyIds(r.value, id))
  {
    forall i | 0 <= i < |xs| ensures key == "" ==> id(xs[i]) != id(value) {
      IndexOfAt(xs, id, i);
    }
    if key != "" && Has(xs, id, key) {
      var k := IndexOf(xs, id, key);
      assert forall i :: 0 <= i < |xs| ==> id(xs[k := value][i]) == id(xs[i]);
    }
  }

  lemma DeletedMembers<T>(xs: seq<T>, key: string, id: T -> string, x: T)
    requires Unique(xs, id) && Deleted(xs, key, id).Ok?
    ensures x in Deleted(xs, key, id).value <==> x in xs && id(x) != key
  {
    var k := IndexOf(xs, id, key);
    var r := Deleted(xs, key, id).value;
    assert forall i :: 0 <= i < |r| ==> r[i] == xs[if i < k then i else i + 1];
    assert forall i :: 0 <= i < |xs| && i != k ==> xs[i] == r[if i < k then i else i - 1];
  }

  /** After a deletion the identifier is gone and every other lookup is unchanged. */
  lemma DeletedFind<T>(xs: seq<T>, key: string, id: T -> string, other: string)
    requires Unique(xs, id) && Deleted(xs, key, id).Ok?
    ensures Unique(Deleted(xs, key, id).value, id)
    ensures Find(Deleted(xs, key, id).value, id, other) == if other == key then None else Find(xs, id, other)
  {
    var k := IndexOf(xs, id, key);
    var r := Deleted(xs, key, id).value;
    assert forall i :: 0 <= i < |r| ==> r[i] == xs[if i < k then i else i + 1];
    if Has(r, id, other) {
      var x := Find(r, id, other).value;
      DeletedMembers(xs, key, id, x);
      FindMember(xs, id, x);
    }
    if other != key && Has(xs, id, other) {
      var x := Find(xs, id, other).value;
      DeletedMembers(xs, key, id, x);
      FindMember(r, id, x);
    }
  }
}
