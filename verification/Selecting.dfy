/**
 Choosing what to share: the records that belong to explicitly chosen keys. Jump hosts are only
 shared when their own key is chosen as well.
 */
module Selecting {
  import opened Wrappers
  import opened Records
  import opened Model
  import opened Store

  /** The chosen keys in order of choice, each once; None when one is not stored. */
  function Picked(keys: seq<Key>, ids: seq<string>): Option<seq<Key>> {
    if ids == [] then Some([])
    else
      var n := |ids| - 1;
      match Picked(keys, ids[..n])
      case None => None
      case Some(picked) =>
        match Find(keys, KeyId, ids[n])
        case None => None
        case Some(k) => Some(if Has(picked, KeyId, ids[n]) then picked else picked + [k])
  }

  function UsesKey(chosen: set<string>): Host -> bool { (h: Host) => h.keyId in chosen }
  function OnHost(hostIds: set<string>): Tunnel -> bool { (t: Tunnel) => t.hostId in hostIds }
  function OnTunnel(tunnelIds: set<string>): Service -> bool { (v: Service) => v.tunnelId in tunnelIds }

  function Chosen(ids: seq<string>): set<string> { set k | k in ids }
  function HostIds(hosts: seq<Host>): set<string> { set h | h in hosts :: h.id }
  function TunnelIds(tunnels: seq<Tunnel>): set<string> { set t | t in tunnels :: t.id }

  /** The records of `s` that belong to the chosen keys. */
  function Scope(s: State, keys: seq<Key>, chosen: set<string>): State {
    var hosts := Filter(s.hosts, UsesKey(chosen));
    var tunnels := Filter(s.tunnels, OnHost(HostIds(hosts)));
    var services := Filter(s.services, OnTunnel(TunnelIds(tunnels)));
    State([], hosts, keys, tunnels, services, NO_SETTINGS)
  }

  /** Every hop on the way to a shared host uses a chosen key. */
  predicate JumpKeysChosen(s: State, hosts: seq<Host>, chosen: set<string>) {
    forall i :: 0 <= i < |hosts| ==>
      Route(s.hosts, hosts[i].id).Some? &&
      forall hop <- Route(s.hosts, hosts[i].id).value :: hop.keyId in chosen
  }

  function Selection(s: State, ids: seq<string>): Result<State> {
    match Picked(s.keys, ids)
    case None => Err
    case Some(keys) =>
      var scope := Scope(s, keys, Chosen(ids));
      if ids == [] || !JumpKeysChosen(s, scope.hosts, Chosen(ids)) || !Valid(scope) then Err else Ok(scope)
  }

  /** The first loop: look each chosen key up and keep it once. */
  method PickKeys(keys: seq<Key>, ids: seq<string>) returns (r: Option<seq<Key>>)
    ensures r == Picked(keys, ids)
  {
    hide IndexOf;
    var picked: seq<Key>, chosen: set<string> := [], {};
    for i := 0 to |ids|
      invariant Picked(keys, ids[..i]) == Some(picked)
      invariant forall k :: k in chosen <==> Has(picked, KeyId, k)
    {
      assert ids[..i + 1][..i] == ids[..i];
      var found := Find(keys, KeyId, ids[i]);
      if found.None? {
        PickedFails(keys, ids, i + 1);
        return None;
      }
      if ids[i] !in chosen {
        chosen := chosen + {ids[i]};
        AppendKey(picked, found.value);
        picked := picked + [found.value];
      }
    }
    assert ids[..|ids|] == ids;
    return Some(picked);
  }

  method Select(s: State, ids: seq<string>) returns (r: Result<State>)
    ensures r == Selection(s, ids)
  {
    hide IndexOf, Walk, Valid, JumpKeysChosen, Picked;
    var picked := PickKeys(s.keys, ids);
    if picked.None? || ids == [] {
      return Err;
    }
    var chosen := Chosen(ids);
    var hosts := [];
    for i := 0 to |s.hosts|
      invariant hosts == Filter(s.hosts[..i], UsesKey(chosen))
    {
      assert s.hosts[..i + 1][..i] == s.hosts[..i];
      if s.hosts[i].keyId in chosen {
        hosts := hosts + [s.hosts[i]];
      }
    }
    assert s.hosts[..|s.hosts|] == s.hosts;
    var covered := CheckJumps(s, hosts, chosen);
    if !covered {
      return Err;
    }
    var hostIds := HostIds(hosts);
    var tunnels := [];
    for i := 0 to |s.tunnels|
      invariant tunnels == Filter(s.tunnels[..i], OnHost(hostIds))
    {
      assert s.tunnels[..i + 1][..i] == s.tunnels[..i];
      if s.tunnels[i].hostId in hostIds {
        tunnels := tunnels + [s.tunnels[i]];
      }
    }
    assert s.tunnels[..|s.tunnels|] == s.tunnels;
    var tunnelIds := TunnelIds(tunnels);
    var services := [];
    for i := 0 to |s.services|
      invariant services == Filter(s.services[..i], OnTunnel(tunnelIds))
    {
      assert s.services[..i + 1][..i] == s.services[..i];
      if s.services[i].tunnelId in tunnelIds {
        services := services + [s.services[i]];
      }
    }
    assert s.services[..|s.services|] == s.services;
    var scope := State([], hosts, picked.value, tunnels, services, NO_SETTINGS);
    var valid := Validate(scope);
    r := if valid then Ok(scope) else Err;
  }

  method CheckJumps(s: State, hosts: seq<Host>, chosen: set<string>) returns (ok: bool)
    ensures ok == JumpKeysChosen(s, hosts, chosen)
  {
    hide Walk;
    for i := 0 to |hosts|
      invariant JumpKeysChosen(s, hosts[..i], chosen)
    {
      var chain := Chain(s.hosts, hosts[i].id);
      if chain.None? {
        return false;
      }
      for j := 0 to |chain.value|
        invariant forall hop <- chain.value[..j] :: hop.keyId in chosen
      {
        if chain.value[j].keyId !in chosen {
          return false;
        }
      }
    }
    ok := true;
  }

  lemma AppendKey(keys: seq<Key>, k: Key)
    ensures forall id :: Has(keys + [k], KeyId, id) <==> Has(keys, KeyId, id) || id == k.id
  {
    forall id ensures Has(keys + [k], KeyId, id) <==> Has(keys, KeyId, id) || id == k.id {
      IndexOfAppend(keys, [k], KeyId, id);
    }
  }

  lemma PickedFails(keys: seq<Key>, ids: seq<string>, n: nat)
    requires n <= |ids| && Picked(keys, ids[..n]).None?
    ensures Picked(keys, ids).None?
    decreases |ids| - n
  {
    if n < |ids| {
      assert ids[..n + 1][..n] == ids[..n];
      PickedFails(keys, ids, n + 1);
    } else {
      assert ids[..n] == ids;
    }
  }

  // ---------------------------------------------------------------- properties

  lemma {:induction false} PickedHas(keys: seq<Key>, ids: seq<string>)
    requires Picked(keys, ids).Some?
    ensures Unique(Picked(keys, ids).value, KeyId)
    ensures forall id :: Has(Picked(keys, ids).value, KeyId, id) <==> id in ids
  {
    if ids != [] {
      var n := |ids| - 1;
      PickedHas(keys, ids[..n]);
      var before := Picked(keys, ids[..n]).value;
      var k := Find(keys, KeyId, ids[n]).value;
      AppendKey(before, k);
      assert ids == ids[..n] + [ids[n]];
      if !Has(before, KeyId, ids[n]) {
        AppendUnique(before, KeyId, k);
      }
    }
  }

  lemma {:induction false} PickedMember(keys: seq<Key>, ids: seq<string>, k: Key)
    requires Picked(keys, ids).Some? && k in Picked(keys, ids).value
    ensures k.id in ids && Find(keys, KeyId, k.id) == Some(k)
  {
    var n := |ids| - 1;
    var before := Picked(keys, ids[..n]).value;
    assert ids == ids[..n] + [ids[n]];
    if k in before {
      PickedMember(keys, ids[..n], k);
    }
  }

  /** Choosing again from the chosen keys gives the same keys. */
  lemma {:induction false} PickedAgain(keys: seq<Key>, picked: seq<Key>, ids: seq<string>)
    requires Picked(keys, ids).Some?
    requires forall id <- ids :: Find(picked, KeyId, id) == Find(keys, KeyId, id)
    ensures Picked(picked, ids) == Picked(keys, ids)
  {
    if ids != [] {
      var n := |ids| - 1;
      assert ids == ids[..n] + [ids[n]];
      PickedAgain(keys, picked, ids[..n]);
      assert ids[n] in ids;
    }
  }

  lemma HasInIds(hosts: seq<Host>, id: string)
    ensures id in HostIds(hosts) <==> Has(hosts, HostId, id)
  {
    if id in HostIds(hosts) {
      var h :| h in hosts && h.id == id;
      HasMember(hosts, HostId, h);
    }
    if Has(hosts, HostId, id) {
      assert hosts[IndexOf(hosts, HostId, id)] in hosts;
    }
  }

  lemma ReverseMembers<T>(xs: seq<T>)
    ensures forall x <- xs :: x in Reverse(xs)
    ensures forall x <- Reverse(xs) :: x in xs
  {
    forall x | x in xs ensures x in Reverse(xs) {
      var i :| 0 <= i < |xs| && xs[i] == x;
      assert Reverse(xs)[|xs| - 1 - i] == x;
    }
  }

  /** A shared host keeps its whole route. */
  lemma ScopeRoute(s: State, keys: seq<Key>, chosen: set<string>, h: Host)
    requires UniqueIds(s)
    requires JumpKeysChosen(s, Scope(s, keys, chosen).hosts, chosen)
    requires h in Scope(s, keys, chosen).hosts
    ensures Route(s.hosts, h.id).Some? && Route(Scope(s, keys, chosen).hosts, h.id) == Route(s.hosts, h.id)
    ensures forall hop <- Route(s.hosts, h.id).value :: hop in Scope(s, keys, chosen).hosts
  {
    var hosts := Scope(s, keys, chosen).hosts;
    var i :| 0 <= i < |hosts| && hosts[i] == h;
    assert Route(s.hosts, hosts[i].id).Some?;
    var w := Walk(s.hosts, h.id, MAX_HOPS).value;
    WalkLinks(s.hosts, h.id, MAX_HOPS);
    ReverseMembers(w);
    FilterMembers(s.hosts, UsesKey(chosen));
    forall hop | hop in w ensures hop in hosts && Find(hosts, HostId, hop.id) == Some(hop) {
      var j :| 0 <= j < |w| && w[j] == hop;
      FilterFind(s.hosts, UsesKey(chosen), HostId, hop.id);
    }
    WalkSame(s.hosts, hosts, h.id, MAX_HOPS);
  }

  lemma ScopeHostsOk(s: State, ids: seq<string>)
    requires Valid(s) && UniqueIds(s) && Picked(s.keys, ids).Some?
    requires JumpKeysChosen(s, Filter(s.hosts, UsesKey(Chosen(ids))), Chosen(ids))
    ensures var scope := Scope(s, Picked(s.keys, ids).value, Chosen(ids));
      forall h <- scope.hosts :: HostOk(scope.keys, scope.hosts, h)
  {
    hide ValidHost, Walk, IndexOf, ValidTunnel, ValidService;
    var keys := Picked(s.keys, ids).value;
    var scope := Scope(s, keys, Chosen(ids));
    PickedHas(s.keys, ids);
    FilterMembers(s.hosts, UsesKey(Chosen(ids)));
    forall h | h in scope.hosts ensures HostOk(scope.keys, scope.hosts, h) {
      ScopeRoute(s, keys, Chosen(ids), h);
      assert HostOk(s.keys, s.hosts, h);
    }
  }

  lemma ScopeRestOk(s: State, ids: seq<string>)
    requires Valid(s) && UniqueIds(s) && Picked(s.keys, ids).Some?
    ensures var scope := Scope(s, Picked(s.keys, ids).value, Chosen(ids));
      && (forall k <- scope.keys :: ValidKey(k))
      && (forall t <- scope.tunnels :: TunnelOk(scope.hosts, t))
      && (forall v <- scope.services :: ServiceOk(scope.tunnels, v))
  {
    hide ValidHost, Walk, IndexOf, ValidTunnel, ValidService, HostOk;
    var scope := Scope(s, Picked(s.keys, ids).value, Chosen(ids));
    forall k | k in scope.keys ensures ValidKey(k) {
      PickedMember(s.keys, ids, k);
      assert Find(s.keys, KeyId, k.id).value in s.keys;
    }
    FilterMembers(s.tunnels, OnHost(HostIds(scope.hosts)));
    forall t | t in scope.tunnels ensures TunnelOk(scope.hosts, t) {
      assert TunnelOk(s.hosts, t);
      HasInIds(scope.hosts, t.hostId);
    }
    FilterMembers(s.services, OnTunnel(TunnelIds(scope.tunnels)));
    forall v | v in scope.services ensures ServiceOk(scope.tunnels, v) {
      assert ServiceOk(s.tunnels, v);
      var t :| t in scope.tunnels && t.id == v.tunnelId;
      FilterUnique(s.tunnels, OnHost(HostIds(scope.hosts)), TunnelId);
      FindMember(scope.tunnels, TunnelId, t);
      FindMember(s.tunnels, TunnelId, t);
    }
  }

  /** Once every jump key is chosen, sharing cannot fail: the closing check is implied. */
  lemma SelectionSucceeds(s: State, ids: seq<string>)
    requires Valid(s) && UniqueIds(s)
    ensures Selection(s, ids).Ok? <==>
      ids != [] && Picked(s.keys, ids).Some?
      && JumpKeysChosen(s, Filter(s.hosts, UsesKey(Chosen(ids))), Chosen(ids))
  {
    hide ValidHost, Walk, IndexOf, HostOk, TunnelOk, ServiceOk, ValidKey;
    if ids != [] && Picked(s.keys, ids).Some?
       && JumpKeysChosen(s, Filter(s.hosts, UsesKey(Chosen(ids))), Chosen(ids)) {
      ScopeHostsOk(s, ids);
      ScopeRestOk(s, ids);
      FilterUnique(s.hosts, UsesKey(Chosen(ids)), HostName);
    }
  }

  /** What a selection holds: exactly the chosen keys, the hosts using them with their whole
      route, and what hangs off those hosts. */
  lemma SelectionClosed(s: State, ids: seq<string>)
    requires Valid(s) && UniqueIds(s) && Selection(s, ids).Ok?
    ensures var r := Selection(s, ids).value;
      && Valid(r) && UniqueIds(r)
      && (forall id :: Has(r.keys, KeyId, id) <==> id in ids)
      && (forall k <- r.keys :: k in s.keys)
      && (forall h :: h in r.hosts <==> h in s.hosts && h.keyId in ids)
      && (forall h <- r.hosts :: Route(r.hosts, h.id) == Route(s.hosts, h.id))
      && (forall h <- r.hosts :: forall hop <- Route(s.hosts, h.id).value :: hop in r.hosts)
      && (forall t :: t in r.tunnels <==> t in s.tunnels && Has(r.hosts, HostId, t.hostId))
      && (forall v :: v in r.services <==> v in s.services && Has(r.tunnels, TunnelId, v.tunnelId))
  {
    hide ValidHost, Walk, IndexOf, HostOk, TunnelOk, ServiceOk, ValidKey;
    var keys := Picked(s.keys, ids).value;
    var r := Selection(s, ids).value;
    PickedHas(s.keys, ids);
    forall k | k in r.keys ensures k in s.keys {
      PickedMember(s.keys, ids, k);
      assert Find(s.keys, KeyId, k.id).value in s.keys;
    }
    FilterMembers(s.hosts, UsesKey(Chosen(ids)));
    FilterUnique(s.hosts, UsesKey(Chosen(ids)), HostId);
    FilterMembers(s.tunnels, OnHost(HostIds(r.hosts)));
    FilterUnique(s.tunnels, OnHost(HostIds(r.hosts)), TunnelId);
    FilterUnique(s.services, OnTunnel(TunnelIds(r.tunnels)), ServiceId);
    forall h | h in r.hosts
      ensures Route(r.hosts, h.id) == Route(s.hosts, h.id)
      ensures forall hop <- Route(s.hosts, h.id).value :: hop in r.hosts
    {
      ScopeRoute(s, keys, Chosen(ids), h);
    }
    forall t ensures t in r.tunnels <==> t in s.tunnels && Has(r.hosts, HostId, t.hostId) {
      HasInIds(r.hosts, t.hostId);
    }
    FilterMembers(s.services, OnTunnel(TunnelIds(r.tunnels)));
    forall v ensures v in r.services <==> v in s.services && Has(r.tunnels, TunnelId, v.tunnelId) {
      TunnelInIds(r.tunnels, v.tunnelId);
    }
  }

  lemma TunnelInIds(tunnels: seq<Tunnel>, id: string)
    ensures Has(tunnels, TunnelId, id) <==> id in TunnelIds(tunnels)
  {
    hide IndexOf;
    HasWitness(tunnels, TunnelId, id);
    forall t | t in tunnels ensures Has(tunnels, TunnelId, t.id) {
      HasMember(tunnels, TunnelId, t);
    }
  }

  lemma KeysAgain(s: State, ids: seq<string>)
    requires UniqueIds(s) && Selection(s, ids).Ok?
    ensures Picked(Selection(s, ids).value.keys, ids) == Some(Selection(s, ids).value.keys)
  {
    hide IndexOf, Valid, Filter, JumpKeysChosen;
    var r := Selection(s, ids).value;
    PickedHas(s.keys, ids);
    forall id | id in ids ensures Find(r.keys, KeyId, id) == Find(s.keys, KeyId, id) {
      assert Has(r.keys, KeyId, id);
      PickedMember(s.keys, ids, r.keys[IndexOf(r.keys, KeyId, id)]);
    }
    PickedAgain(s.keys, r.keys, ids);
  }

  lemma ScopeAgain(s: State, keys: seq<Key>, chosen: set<string>)
    ensures Scope(Scope(s, keys, chosen), keys, chosen) == Scope(s, keys, chosen)
  {
    hide Filter;
    var r := Scope(s, keys, chosen);
    FilterMembers(s.hosts, UsesKey(chosen));
    FilterAll(r.hosts, UsesKey(chosen));
    FilterMembers(s.tunnels, OnHost(HostIds(r.hosts)));
    FilterAll(r.tunnels, OnHost(HostIds(r.hosts)));
    FilterMembers(s.services, OnTunnel(TunnelIds(r.tunnels)));
    FilterAll(r.services, OnTunnel(TunnelIds(r.tunnels)));
  }

  lemma JumpsAgain(s: State, r: State, chosen: set<string>)
    requires JumpKeysChosen(s, r.hosts, chosen)
    requires forall h <- r.hosts :: Route(r.hosts, h.id) == Route(s.hosts, h.id)
    ensures JumpKeysChosen(r, r.hosts, chosen)
  {
    hide Route;
    assert forall i :: 0 <= i < |r.hosts| ==> r.hosts[i] in r.hosts;
  }

  /** Sharing what was shared, with the same keys, changes nothing. */
  lemma SelectionAgain(s: State, ids: seq<string>)
    requires Valid(s) && UniqueIds(s) && Selection(s, ids).Ok?
    ensures Selection(Selection(s, ids).value, ids) == Selection(s, ids)
  {
    hide Valid, UniqueIds, Filter, Picked, JumpKeysChosen, Route, Has;
    SelectionClosed(s, ids);
    KeysAgain(s, ids);
    ScopeAgain(s, Picked(s.keys, ids).value, Chosen(ids));
    JumpsAgain(s, Selection(s, ids).value, Chosen(ids));
  }

  lemma {:induction false} PickedOrder(keys: seq<Key>, ids: seq<string>)
    requires Picked(keys, ids).Some? && forall i, j :: 0 <= i < j < |ids| ==> ids[i] != ids[j]
    ensures |Picked(keys, ids).value| == |ids| && forall i :: 0 <= i < |ids| ==> Picked(keys, ids).value[i].id == ids[i]
  {
    if ids != [] {
      var n := |ids| - 1;
      PickedOrder(keys, ids[..n]);
      PickedHas(keys, ids[..n]);
    }
  }

  /** A selection keeps every order: the keys as they were chosen, the rest as it is stored. */
  lemma SelectionOrder(s: State, ids: seq<string>)
    requires Valid(s) && UniqueIds(s) && Selection(s, ids).Ok?
    ensures var r := Selection(s, ids).value;
      && ((forall i, j :: 0 <= i < j < |ids| ==> ids[i] != ids[j]) ==>
            |r.keys| == |ids| && forall i :: 0 <= i < |ids| ==> r.keys[i].id == ids[i])
      && r.hosts == Filter(s.hosts, (h: Host) => h.keyId in ids)
      && r.tunnels == Filter(s.tunnels, (t: Tunnel) => Has(r.hosts, HostId, t.hostId))
      && r.services == Filter(s.services, (v: Service) => Has(r.tunnels, TunnelId, v.tunnelId))
  {
    hide Valid, UniqueIds, JumpKeysChosen, IndexOf, Filter, Has;
    if forall i, j :: 0 <= i < j < |ids| ==> ids[i] != ids[j] { PickedOrder(s.keys, ids); }
    var r := Selection(s, ids).value;
    FilterSame(s.hosts, UsesKey(Chosen(ids)), (h: Host) => h.keyId in ids);
    forall t: Tunnel ensures t.hostId in HostIds(r.hosts) <==> Has(r.hosts, HostId, t.hostId) { HasInIds(r.hosts, t.hostId); }
    forall v: Service ensures v.tunnelId in TunnelIds(r.tunnels) <==> Has(r.tunnels, TunnelId, v.tunnelId) { TunnelInIds(r.tunnels, v.tunnelId); }
    FilterSame(s.tunnels, OnHost(HostIds(r.hosts)), (t: Tunnel) => Has(r.hosts, HostId, t.hostId));
    FilterSame(s.services, OnTunnel(TunnelIds(r.tunnels)), (v: Service) => Has(r.tunnels, TunnelId, v.tunnelId));
  }
}
