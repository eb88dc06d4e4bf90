/**
 The stored configuration: SSH keys, hosts with a jump graph, tunnels, web services and the
 subscriptions to other machines' shared configuration, with the record checks.
 Connection history is not part of this model.
 */
module Model {
  import opened Wrappers
  import opened Text
  import opened Records

  datatype Key = Key(id: string, name: string, path: string)

  datatype Host = Host(id: string, name: string, environment: string, kind: string, address: string,
                       port: int, username: string, keyId: string, jumpId: string,
                       description: string, fingerprint: string)

  datatype Tunnel = Tunnel(id: string, name: string, localHost: string, localPort: int,
                           remoteHost: string, remotePort: int, hostId: string,
                           autoReconnect: bool, description: string)

  /** A parsed URL. `rest` is the path, query and fragment; `port` is the written port or "". */
  datatype Url =
    | Malformed(text: string)
    | Url(scheme: string, userInfo: bool, opaquePart: bool, host: string, port: string, rest: string)

  datatype Service = Service(id: string, name: string, environment: string, tunnelId: string,
                             url: Url, description: string)

  datatype Settings = Settings(knownHosts: string, sshConfig: string)

  datatype Kind = Hosts | Keys | Tunnels | Services
  datatype Item = Item(kind: Kind, id: string)
  datatype Mark = Current | Missing

  datatype Source = Source(url: string, feed: string, publicKey: string)

  datatype Subscription = Subscription(source: Source, items: map<Item, Mark>, lastSync: string,
                                       error: string, paused: bool)

  datatype State = State(team: seq<Subscription>, hosts: seq<Host>, keys: seq<Key>,
                         tunnels: seq<Tunnel>, services: seq<Service>, settings: Settings)

  const NO_SETTINGS := Settings("", "")
  const EMPTY := State([], [], [], [], [], NO_SETTINGS)

  function HostId(h: Host): string { h.id }
  function HostName(h: Host): string { h.name }
  function KeyId(k: Key): string { k.id }
  function KeyPath(k: Key): string { k.path }
  function TunnelId(t: Tunnel): string { t.id }
  function ServiceId(v: Service): string { v.id }

  // ---------------------------------------------------------------- record checks

  predicate Env(s: string) { s == "LOCAL" || s == "DEV" || s == "STG" || s == "PROD" }

  predicate Port(p: int) { 0 < p <= 65535 }

  predicate ValidHost(h: Host) {
    && Name(h.name) && Env(h.environment) && Address(h.address) && Port(h.port)
    && Name(h.username) && Avoids(h.username, " \t@/\\")
    && (h.kind == "Bastion" || h.kind == "Server" || h.kind == "Database" || h.kind == "Other")
    && h.keyId != ""
    && !(h.id != "" && h.jumpId == h.id)
    && (h.fingerprint == "" || ("SHA256:" <= h.fingerprint && ByteLen(h.fingerprint) == 50))
  }

  predicate ValidTunnel(t: Tunnel) {
    && Name(t.name) && t.localHost == "127.0.0.1" && Port(t.localPort)
    && Address(t.remoteHost) && Port(t.remotePort) && t.hostId != ""
  }

  function EffectivePort(u: Url): string
    requires u.Url?
  {
    if u.port != "" then u.port else if u.scheme == "https" then "443" else "80"
  }

  /** The service link opens the local end of this tunnel. */
  predicate LocalUrl(u: Url, localPort: int) {
    && u.Url? && !u.userInfo && !u.opaquePart && (u.scheme == "http" || u.scheme == "https")
    && u.host == "127.0.0.1" && EffectivePort(u) == Itoa(localPort)
  }

  predicate ValidService(v: Service, t: Tunnel) {
    Name(v.name) && Env(v.environment) && v.tunnelId != "" && LocalUrl(v.url, t.localPort)
  }

  predicate ValidKey(k: Key) { Name(k.name) && k.path != "" }

  // ---------------------------------------------------------------- jump routes

  /** The most hops a route may have. */
  const MAX_HOPS := 16

  /** The jump walk from a host towards the machine that is reached directly, following first
      matches; None when it does not end within `fuel` hosts or a jump does not resolve. */
  function Walk(hosts: seq<Host>, id: string, fuel: nat): Option<seq<Host>>
    decreases fuel
  {
    if id == "" then Some([])
    else if fuel == 0 then None
    else
      match Find(hosts, HostId, id)
      case None => None
      case Some(h) =>
        match Walk(hosts, h.jumpId, fuel - 1)
        case None => None
        case Some(rest) => Some([h] + rest)
  }

  function Reverse<T>(xs: seq<T>): (r: seq<T>)
    ensures |r| == |xs|
  {
    seq(|xs|, i requires 0 <= i < |xs| => xs[|xs| - 1 - i])
  }

  /** The route in connection order: the direct host first, the target last. */
  function Route(hosts: seq<Host>, id: string): Option<seq<Host>> {
    match Walk(hosts, id, MAX_HOPS)
    case None => None
    case Some(w) => Some(Reverse(w))
  }

  lemma WalkMore(hosts: seq<Host>, id: string, fuel: nat, more: nat)
    requires fuel <= more && Walk(hosts, id, fuel).Some?
    ensures Walk(hosts, id, more) == Walk(hosts, id, fuel)
    ensures |Walk(hosts, id, fuel).value| <= fuel
    decreases fuel
  {
    if id != "" {
      WalkMore(hosts, Find(hosts, HostId, id).value.jumpId, fuel - 1, more - 1);
    }
  }

  /** A walk that ends within more fuel ends within its own length. */
  lemma {:induction false} WalkTight(hosts: seq<Host>, id: string, fuel: nat)
    requires Walk(hosts, id, fuel).Some?
    ensures Walk(hosts, id, |Walk(hosts, id, fuel).value|) == Walk(hosts, id, fuel)
    decreases fuel
  {
    if id != "" {
      WalkTight(hosts, Find(hosts, HostId, id).value.jumpId, fuel - 1);
    }
  }

  /** The links of a walk. */
  lemma {:induction false} WalkLinks(hosts: seq<Host>, id: string, fuel: nat)
    requires Walk(hosts, id, fuel).Some?
    ensures var w := Walk(hosts, id, fuel).value;
      && (w == [] <==> id == "")
      && (w != [] ==> w[0].id == id && w[|w| - 1].jumpId == "")
      && (forall i :: 0 <= i < |w| - 1 ==> w[i].jumpId == w[i + 1].id)
      && (forall i :: 0 <= i < |w| ==> w[i].id != "" && Find(hosts, HostId, w[i].id) == Some(w[i]))
    decreases fuel
  {
    if id != "" {
      var h := Find(hosts, HostId, id).value;
      WalkLinks(hosts, h.jumpId, fuel - 1);
      var rest := Walk(hosts, h.jumpId, fuel - 1).value;
      var w := [h] + rest;
      assert forall i :: 0 < i < |w| ==> w[i] == rest[i - 1];
    }
  }

  /** The rest of a walk is the walk from there. */
  lemma {:induction false} WalkSuffix(hosts: seq<Host>, id: string, fuel: nat, i: nat)
    requires Walk(hosts, id, fuel).Some? && i < |Walk(hosts, id, fuel).value|
    ensures i < fuel
    ensures Walk(hosts, Walk(hosts, id, fuel).value[i].id, fuel - i) == Some(Walk(hosts, id, fuel).value[i..])
    decreases fuel
  {
    WalkMore(hosts, id, fuel, fuel);
    var w := Walk(hosts, id, fuel).value;
    if i == 0 {
      WalkLinks(hosts, id, fuel);
      assert w[0..] == w;
    } else {
      var h := Find(hosts, HostId, id).value;
      WalkSuffix(hosts, h.jumpId, fuel - 1, i - 1);
      assert w[i..] == w[1..][i - 1..];
    }
  }

  /** A walk never visits a host twice. */
  lemma WalkDistinct(hosts: seq<Host>, id: string, fuel: nat)
    requires Walk(hosts, id, fuel).Some?
    ensures Unique(Walk(hosts, id, fuel).value, HostId)
  {
    hide Walk, IndexOf;
    var w := Walk(hosts, id, fuel).value;
    forall i, j | 0 <= i < j < |w| ensures w[i].id != w[j].id {
      WalkSuffix(hosts, id, fuel, i);
      WalkSuffix(hosts, id, fuel, j);
      if w[i].id == w[j].id {
        WalkMore(hosts, w[j].id, fuel - j, fuel - i);
      }
    }
  }

  /** The walk only depends on the records it visits. */
  lemma {:induction false} WalkSame(a: seq<Host>, b: seq<Host>, id: string, fuel: nat)
    requires Walk(a, id, fuel).Some?
    requires forall h <- Walk(a, id, fuel).value :: Find(b, HostId, h.id) == Some(h)
    ensures Walk(b, id, fuel) == Walk(a, id, fuel)
    decreases fuel
  {
    if id != "" {
      var h := Find(a, HostId, id).value;
      var rest := Walk(a, h.jumpId, fuel - 1).value;
      var w := [h] + rest;
      assert w[0] in w;
      forall g | g in rest ensures Find(b, HostId, g.id) == Some(g) {
        assert g in w;
      }
      WalkSame(a, b, h.jumpId, fuel - 1);
    }
  }

  /** `route` is a connection order for `id`: it starts at a host reached directly, every later
      host is reached through the one before it, it ends at `id`, and names resolve to it. */
  ghost predicate IsRoute(hosts: seq<Host>, id: string, route: seq<Host>) {
    && |route| <= 16
    && (route == [] <==> id == "")
    && (route != [] ==> route[0].jumpId == "" && route[|route| - 1].id == id)
    && (forall i :: 0 < i < |route| ==> route[i].jumpId == route[i - 1].id)
    && (forall i :: 0 <= i < |route| ==> route[i].id != "" && Find(hosts, HostId, route[i].id) == Some(route[i]))
  }

  lemma {:induction false} RouteWalk(hosts: seq<Host>, id: string, w: seq<Host>, fuel: nat)
    requires |w| <= fuel
    requires w == [] <==> id == ""
    requires w != [] ==> w[0].id == id && w[|w| - 1].jumpId == ""
    requires forall i :: 0 <= i < |w| - 1 ==> w[i].jumpId == w[i + 1].id
    requires forall i :: 0 <= i < |w| ==> w[i].id != "" && Find(hosts, HostId, w[i].id) == Some(w[i])
    ensures Walk(hosts, id, fuel) == Some(w)
    decreases |w|
  {
    if w != [] {
      var rest := w[1..];
      assert forall i :: 0 <= i < |rest| ==> rest[i] == w[i + 1];
      if rest != [] { assert w[0].jumpId == w[1].id; }
      RouteWalk(hosts, w[0].jumpId, rest, fuel - 1);
      assert w == [w[0]] + rest;
    }
  }

  /** A list of linked hosts read backwards is a route. */
  lemma ReversedIsRoute(hosts: seq<Host>, id: string, w: seq<Host>)
    requires |w| <= MAX_HOPS && (w == [] <==> id == "")
    requires w != [] ==> w[0].id == id && w[|w| - 1].jumpId == ""
    requires forall i :: 0 <= i < |w| - 1 ==> w[i].jumpId == w[i + 1].id
    requires forall i :: 0 <= i < |w| ==> w[i].id != "" && Find(hosts, HostId, w[i].id) == Some(w[i])
    ensures IsRoute(hosts, id, Reverse(w))
  {
    hide Find;
    var route := Reverse(w);
    assert forall i :: 0 <= i < |w| ==> route[i] == w[|w| - 1 - i];
    forall i | 0 < i < |route| ensures route[i].jumpId == route[i - 1].id {
      assert w[|w| - 1 - i].jumpId == w[|w| - i].id;
    }
  }

  lemma FoundIsRoute(hosts: seq<Host>, id: string)
    requires Route(hosts, id).Some?
    ensures IsRoute(hosts, id, Route(hosts, id).value)
  {
    hide Walk, Find, IsRoute;
    WalkLinks(hosts, id, MAX_HOPS);
    WalkMore(hosts, id, MAX_HOPS, MAX_HOPS);
    ReversedIsRoute(hosts, id, Walk(hosts, id, MAX_HOPS).value);
  }

  lemma RouteIsFound(hosts: seq<Host>, id: string, route: seq<Host>)
    requires IsRoute(hosts, id, route)
    ensures Route(hosts, id) == Some(route) && Unique(route, HostId)
  {
    hide Walk, IndexOf;
    var w := Reverse(route);
    assert forall i :: 0 <= i < |w| ==> w[i] == route[|w| - 1 - i];
    forall i | 0 <= i < |w| - 1 ensures w[i].jumpId == w[i + 1].id {
      assert route[|w| - 1 - i].jumpId == route[|w| - 2 - i].id;
    }
    RouteWalk(hosts, id, w, MAX_HOPS);
    assert Reverse(w) == route;
    WalkDistinct(hosts, id, MAX_HOPS);
    forall i, j | 0 <= i < j < |route| ensures route[i].id != route[j].id {
      assert HostId(w[|w| - 1 - j]) != HostId(w[|w| - 1 - i]);
    }
  }

  /** The route is found exactly when one exists; it is the only one, and its hosts are distinct. */
  lemma RouteExact(hosts: seq<Host>, id: string, route: seq<Host>)
    ensures Route(hosts, id) == Some(route) <==> IsRoute(hosts, id, route)
    ensures IsRoute(hosts, id, route) ==> Unique(route, HostId)
  {
    hide Walk, IndexOf;
    if Route(hosts, id) == Some(route) {
      FoundIsRoute(hosts, id);
    }
    if IsRoute(hosts, id, route) {
      RouteIsFound(hosts, id, route);
    }
  }

  /** A walk that has been to `done` and continues from `cur`. */
  function Resume(hosts: seq<Host>, done: seq<Host>, cur: string): Option<seq<Host>>
    requires |done| <= MAX_HOPS
  {
    match Walk(hosts, cur, MAX_HOPS - |done|)
    case None => None
    case Some(rest) => Some(done + rest)
  }

  lemma SeenAgain(hosts: seq<Host>, id: string, done: seq<Host>, cur: string, i: nat)
    requires |done| <= MAX_HOPS && i < |done| && cur != "" && done[i].id == cur
    requires Walk(hosts, id, MAX_HOPS) == Resume(hosts, done, cur)
    ensures Walk(hosts, id, MAX_HOPS).None?
  {
    hide Walk, IndexOf;
    if Walk(hosts, id, MAX_HOPS).Some? {
      var w := Walk(hosts, id, MAX_HOPS).value;
      WalkLinks(hosts, cur, MAX_HOPS - |done|);
      assert w[i].id == w[|done|].id;
      WalkDistinct(hosts, id, MAX_HOPS);
      assert false;
    }
  }

  lemma ResumeEnds(hosts: seq<Host>, done: seq<Host>, cur: string)
    requires |done| <= MAX_HOPS
    ensures done == [] ==> Resume(hosts, done, cur) == Walk(hosts, cur, MAX_HOPS)
    ensures cur == "" ==> Resume(hosts, done, cur) == Some(done)
    ensures cur != "" && |done| == MAX_HOPS ==> Resume(hosts, done, cur).None?
  {
    if Walk(hosts, cur, MAX_HOPS - |done|).Some? {
      var w := Walk(hosts, cur, MAX_HOPS - |done|).value;
      assert done == [] ==> done + w == w;
      assert done + [] == done;
    }
  }

  lemma ResumeStep(hosts: seq<Host>, done: seq<Host>, cur: string)
    requires |done| < MAX_HOPS && cur != ""
    ensures Resume(hosts, done, cur) ==
            match Find(hosts, HostId, cur) {
              case None => None
              case Some(h) => Resume(hosts, done + [h], h.jumpId)
            }
  {
    if Find(hosts, HostId, cur).Some? {
      var h := Find(hosts, HostId, cur).value;
      var rest := Walk(hosts, h.jumpId, MAX_HOPS - |done| - 1);
      if rest.Some? {
        assert done + ([h] + rest.value) == (done + [h]) + rest.value;
      }
    }
  }

  lemma RouteExactAll(hosts: seq<Host>, id: string)
    ensures forall route :: Route(hosts, id) == Some(route) <==> IsRoute(hosts, id, route)
    ensures forall route :: IsRoute(hosts, id, route) ==> Unique(route, HostId)
  {
    hide Walk, IndexOf, IsRoute, Route;
    forall route
      ensures Route(hosts, id) == Some(route) <==> IsRoute(hosts, id, route)
      ensures IsRoute(hosts, id, route) ==> Unique(route, HostId)
    {
      RouteExact(hosts, id, route);
    }
  }

  /** The program's loop: it builds the route backwards and remembers the hosts it saw. */
  method Chain(hosts: seq<Host>, id: string) returns (r: Option<seq<Host>>)
    ensures r == Route(hosts, id)
    ensures r.Some? ==> IsRoute(hosts, id, r.value) && Unique(r.value, HostId)
    ensures r.None? ==> forall route :: !IsRoute(hosts, id, route)
  {
    hide Walk, IndexOf, Resume, IsRoute;
    var out: seq<Host>, seen: set<string>, cur := [], {}, id;
    ResumeEnds(hosts, Reverse(out), cur);
    r := None;
    while cur != ""
      invariant |out| <= MAX_HOPS
      invariant seen == set g | g in out :: g.id
      invariant Walk(hosts, id, MAX_HOPS) == Resume(hosts, Reverse(out), cur)
      decreases MAX_HOPS - |out|
    {
      if cur in seen || |out| >= MAX_HOPS {
        if cur in seen {
          var g :| g in out && g.id == cur;
          var i :| 0 <= i < |out| && out[i] == g;
          assert Reverse(out)[|out| - 1 - i].id == cur;
          SeenAgain(hosts, id, Reverse(out), cur, |out| - 1 - i);
        }
        ResumeEnds(hosts, Reverse(out), cur);
        RouteExactAll(hosts, id);
        return;
      }
      ResumeStep(hosts, Reverse(out), cur);
      seen := seen + {cur};
      var found := Find(hosts, HostId, cur);
      if found.None? {
        RouteExactAll(hosts, id);
        return;
      }
      var h := found.value;
      assert Reverse([h] + out) == Reverse(out) + [h];
      out, cur := [h] + out, h.jumpId;
    }
    ResumeEnds(hosts, Reverse(out), cur);
    assert Reverse(Reverse(out)) == out;
    RouteExactAll(hosts, id);
    return Some(out);
  }
}
