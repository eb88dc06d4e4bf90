/**
 The jump links an import makes: when the ProxyJump lists of the chosen hosts can be realised
 together, and which link each host ends up with.
 */
module ImportLinks {
  import opened Wrappers
  import opened Text
  import opened Records
  import opened Model
  import opened Store
  import opened Importer

  /** Hosts that can be told apart by name and by identifier. */
  predicate Distinct(hosts: seq<Host>) {
    Unique(hosts, HostName) && Unique(hosts, HostId) && NonEmptyIds(hosts, HostId)
  }

  lemma Position(hosts: seq<Host>, name: string)
    requires Unique(hosts, HostName)
    ensures LastIndex(hosts, name) == IndexOf(hosts, HostName, name)
  {
    var i, j := LastIndex(hosts, name), IndexOf(hosts, HostName, name);
    LastNone(hosts, name);
    if i < |hosts| {
      FindAt(hosts, HostName, i);
    }
  }

  lemma {:induction false} LastNone(hosts: seq<Host>, name: string)
    ensures LastIndex(hosts, name) == |hosts| ==> !Has(hosts, HostName, name)
  {
    if hosts != [] {
      var n := |hosts| - 1;
      assert hosts == hosts[..n] + [hosts[n]];
      LastNone(hosts[..n], name);
      IndexOfAppend(hosts[..n], [hosts[n]], HostName, name);
    }
  }

  /** With distinct names the identifier behind a name is that of its one host. */
  lemma IdOfName(hosts: seq<Host>, name: string)
    requires Distinct(hosts)
    ensures IdOf(hosts, name) != "" <==> Has(hosts, HostName, name)
    ensures Has(hosts, HostName, name) ==>
      && var h := Find(hosts, HostName, name).value;
      && h in hosts && h.name == name && IdOf(hosts, name) == h.id && Find(hosts, HostId, h.id) == Some(h)
  {
    FindLastUnique(hosts, HostName, name);
    if Has(hosts, HostName, name) {
      FindMember(hosts, HostId, Find(hosts, HostName, name).value);
    }
  }

  lemma IdOfInjective(hosts: seq<Host>, a: string, b: string)
    requires Distinct(hosts) && Has(hosts, HostName, a) && IdOf(hosts, a) == IdOf(hosts, b)
    ensures a == b
  {
    IdOfName(hosts, a);
    IdOfName(hosts, b);
  }

  /** The predecessor the last demand on a host names. */
  function ViaOf(ds: seq<Demand>, name: string): Option<string> {
    if ds == [] then None
    else if ds[|ds| - 1].host == name then Some(ds[|ds| - 1].via)
    else ViaOf(ds[..|ds| - 1], name)
  }

  lemma {:induction false} ViaOfMember(ds: seq<Demand>, name: string)
    ensures ViaOf(ds, name).Some? ==> Demand(name, ViaOf(ds, name).value) in ds
    ensures ViaOf(ds, name).None? ==> forall d <- ds :: d.host != name
  {
    if ds != [] {
      var n := |ds| - 1;
      assert ds == ds[..n] + [ds[n]];
      ViaOfMember(ds[..n], name);
    }
  }

  /** No host is asked to have two different predecessors. */
  predicate Consistent(ds: seq<Demand>) {
    forall d <- ds, e <- ds :: d.host == e.host ==> d.via == e.via
  }

  /** Every demanded name is the name of a host. */
  predicate Named(hosts: seq<Host>, ds: seq<Demand>) {
    forall d <- ds :: Has(hosts, HostName, d.host) && Has(hosts, HostName, d.via)
  }

  /** A demand on a host stored before holds already. */
  predicate Standing(hosts: seq<Host>, base: nat, d: Demand) {
    var i := IndexOf(hosts, HostName, d.host);
    i < |hosts| && i < base ==> hosts[i].jumpId == IdOf(hosts, d.via)
  }

  predicate AllStanding(hosts: seq<Host>, base: nat, ds: seq<Demand>) {
    forall d <- ds :: Standing(hosts, base, d)
  }

  /** The link host `i` ends up with. */
  function LinkFor(hosts: seq<Host>, base: nat, ds: seq<Demand>, i: nat): string
    requires i < |hosts|
  {
    if i < base then hosts[i].jumpId
    else
      match ViaOf(ds, hosts[i].name)
      case None => ""
      case Some(via) => IdOf(hosts, via)
  }

  ghost predicate Linked(hosts: seq<Host>, base: nat, ds: seq<Demand>, r: seq<Host>) {
    |r| == |hosts| && forall i :: 0 <= i < |hosts| ==> r[i] == hosts[i].(jumpId := LinkFor(hosts, base, ds, i))
  }

  lemma LinkedSame(hosts: seq<Host>, base: nat, ds: seq<Demand>, r: seq<Host>)
    requires Linked(hosts, base, ds, r)
    ensures SameButLinks(hosts, r)
  {
  }

  lemma ConsistentStep(ds: seq<Demand>, d: Demand)
    ensures Consistent(ds + [d]) <==> Consistent(ds) && forall via :: ViaOf(ds, d.host) == Some(via) ==> via == d.via
  {
    ViaOfMember(ds, d.host);
    assert (ds + [d])[|ds|] == d;
    assert forall e <- ds :: e in ds + [d];
    if ViaOf(ds, d.host).Some? {
      var e := Demand(d.host, ViaOf(ds, d.host).value);
      assert e in ds + [d] && d in ds + [d];
    }
  }

  lemma DistinctSame(a: seq<Host>, b: seq<Host>)
    requires SameButLinks(a, b) && Distinct(a)
    ensures Distinct(b)
  {
    assert forall i :: 0 <= i < |a| ==> b[i].id == a[i].id && b[i].name == a[i].name;
    forall i, j | 0 <= i < j < |b| ensures b[i].id != b[j].id && b[i].name != b[j].name {
      assert HostId(a[i]) != HostId(a[j]) && HostName(a[i]) != HostName(a[j]);
    }
  }

  /** One link by the position of its host. */
  lemma LinkMeaning(r: seq<Host>, base: nat, d: Demand, i: nat)
    requires Distinct(r) && Has(r, HostName, d.host) && i == IndexOf(r, HostName, d.host)
    ensures i < |r|
    ensures Link(r, base, d) ==
            if i >= base then
              (if r[i].jumpId != "" && r[i].jumpId != IdOf(r, d.via) then None
               else Some(r[i := r[i].(jumpId := IdOf(r, d.via))]))
            else if r[i].jumpId == IdOf(r, d.via) then Some(r) else None
  {
    Position(r, d.host);
    IdOfName(r, d.host);
  }

  /** What a demand does to the link of its host. */
  lemma LinkForStep(hosts: seq<Host>, base: nat, ds: seq<Demand>, d: Demand, i: nat)
    requires Distinct(hosts) && Has(hosts, HostName, d.host) && i == IndexOf(hosts, HostName, d.host)
    ensures i < |hosts| && i >= base ==> LinkFor(hosts, base, ds + [d], i) == IdOf(hosts, d.via)
    ensures forall k :: 0 <= k < |hosts| && (k != i || i < base) ==> LinkFor(hosts, base, ds + [d], k) == LinkFor(hosts, base, ds, k)
  {
    hide IdOf;
    assert (ds + [d])[..|ds|] == ds;
    forall k | 0 <= k < |hosts| && k != i ensures hosts[k].name != d.host {
      FindAt(hosts, HostName, k);
    }
  }

  /** The demands so far on a host agree with `via` exactly when its link does. */
  lemma LinkForAgrees(hosts: seq<Host>, base: nat, ds: seq<Demand>, d: Demand, i: nat)
    requires Distinct(hosts) && Named(hosts, ds + [d])
    requires i == IndexOf(hosts, HostName, d.host) && base <= i < |hosts|
    ensures LinkFor(hosts, base, ds, i) == "" || LinkFor(hosts, base, ds, i) == IdOf(hosts, d.via) <==>
            forall via :: ViaOf(ds, d.host) == Some(via) ==> via == d.via
  {
    ViaOfMember(ds, d.host);
    assert d in ds + [d];
    if ViaOf(ds, d.host).Some? {
      var via := ViaOf(ds, d.host).value;
      assert Demand(d.host, via) in ds + [d];
      IdOfName(hosts, via);
      if IdOf(hosts, via) == IdOf(hosts, d.via) {
        IdOfInjective(hosts, via, d.via);
      }
    }
  }

  /** One more demand is linked. */
  lemma LinkStep(hosts: seq<Host>, base: nat, ds: seq<Demand>, d: Demand, r: seq<Host>)
    requires Distinct(hosts) && Linked(hosts, base, ds, r) && Named(hosts, ds + [d])
    ensures Link(r, base, d).Some? <==>
      Standing(hosts, base, d) && (IndexOf(hosts, HostName, d.host) >= base ==> forall via :: ViaOf(ds, d.host) == Some(via) ==> via == d.via)
    ensures Link(r, base, d).Some? ==> Linked(hosts, base, ds + [d], Link(r, base, d).value)
  {
    hide IdOf, IndexOf, Link, ViaOf, Distinct;
    var i := IndexOf(hosts, HostName, d.host);
    LinkedSame(hosts, base, ds, r);
    SameNames(hosts, r, d.via);
    DistinctSame(hosts, r);
    SameKeysIndex(hosts, r, d.host);
    assert d in ds + [d];
    LinkMeaning(r, base, d, i);
    LinkForStep(hosts, base, ds, d, i);
    if i >= base {
      LinkForAgrees(hosts, base, ds, d, i);
    }
  }

  lemma SameKeysIndex(a: seq<Host>, b: seq<Host>, name: string)
    requires SameButLinks(a, b)
    ensures IndexOf(b, HostName, name) == IndexOf(a, HostName, name)
  {
    assert forall i :: 0 <= i < |a| ==> b[i].name == a[i].name;
    SameIndex(a, b, HostName, name);
  }

  /** The second pass succeeds exactly when no two lists ask for different predecessors of a host
      and every demand on a stored host holds already; the links are then the demanded ones. */
  lemma {:induction false} LinkAllExact(hosts: seq<Host>, base: nat, ds: seq<Demand>)
    requires Distinct(hosts) && Named(hosts, ds)
    requires forall i :: base <= i < |hosts| ==> hosts[i].jumpId == ""
    ensures LinkAll(hosts, base, ds).Some? <==> Consistent(ds) && AllStanding(hosts, base, ds)
    ensures LinkAll(hosts, base, ds).Some? ==> Linked(hosts, base, ds, LinkAll(hosts, base, ds).value)
  {
    hide Distinct, IdOf, IndexOf, Link, Linked, Consistent, LinkFor, Standing, AllStanding, Named;
    if ds == [] {
      LinkedNone(hosts, base);
    } else {
      var n := |ds| - 1;
      var d := ds[n];
      assert ds == ds[..n] + [d];
      StandingStep(hosts, base, ds[..n], d);
      LinkAllExact(hosts, base, ds[..n]);
      ConsistentStep(ds[..n], d);
      if LinkAll(hosts, base, ds[..n]).Some? {
        LinkStep(hosts, base, ds[..n], d, LinkAll(hosts, base, ds[..n]).value);
        if Standing(hosts, base, d) && IndexOf(hosts, HostName, d.host) < base {
          StoredAgree(hosts, base, ds[..n], d);
        }
      }
    }
  }

  lemma LinkedNone(hosts: seq<Host>, base: nat)
    requires forall i :: base <= i < |hosts| ==> hosts[i].jumpId == ""
    ensures Linked(hosts, base, [], hosts) && Consistent([]) && AllStanding(hosts, base, [])
  {
  }

  lemma StandingStep(hosts: seq<Host>, base: nat, ds: seq<Demand>, d: Demand)
    ensures AllStanding(hosts, base, ds + [d]) <==> AllStanding(hosts, base, ds) && Standing(hosts, base, d)
    ensures Named(hosts, ds + [d]) ==> Named(hosts, ds)
  {
    hide Standing, Has;
    assert forall e :: e in ds + [d] <==> e in ds || e == d;
  }

  /** Two demands on a stored host that both hold name the same predecessor. */
  lemma StoredAgree(hosts: seq<Host>, base: nat, ds: seq<Demand>, d: Demand)
    requires Distinct(hosts) && Named(hosts, ds + [d]) && AllStanding(hosts, base, ds) && Standing(hosts, base, d)
    requires IndexOf(hosts, HostName, d.host) < base
    ensures forall via :: ViaOf(ds, d.host) == Some(via) ==> via == d.via
  {
    ViaOfMember(ds, d.host);
    assert d in ds + [d];
    if ViaOf(ds, d.host).Some? {
      var via := ViaOf(ds, d.host).value;
      var e := Demand(d.host, via);
      assert e in ds + [d] && Standing(hosts, base, e);
      IdOfInjective(hosts, via, d.via);
    }
  }
}
