/**
 Importing chosen hosts of an OpenSSH configuration: each new alias becomes a host, key files are
 registered once per path, and every ProxyJump list is turned into single jump links. The edit runs
 inside one update, so a failure leaves the stored configuration alone.
 */
module Importer {
  import opened Wrappers
  import opened Text
  import opened Records
  import opened Model
  import opened Store

  /** A host read from an SSH configuration. `valid` is false for anything the import refuses. */
  datatype Candidate = Candidate(alias: string, address: string, port: int, username: string,
                                 identityFile: string, jumps: seq<string>, valid: bool)

  /** The file system, fixed during a run: absolute paths, and which files are usable keys. */
  datatype Files = Files(path: string -> Option<string>, usable: string -> bool)

  function Alias(c: Candidate): string { c.alias }

  /** The id of the stored host with this name, or "". */
  function IdOf(hosts: seq<Host>, name: string): string {
    match FindLast(hosts, HostName, name)
    case None => ""
    case Some(h) => h.id
  }

  /** The id of the key registered for this file, or "". */
  function KeyFor(keys: seq<Key>, path: string): string {
    match FindLast(keys, KeyPath, path)
    case None => ""
    case Some(k) => k.id
  }

  // ---------------------------------------------------------------- new hosts and keys

  function NewHost(c: Candidate, id: string, keyId: string): Host {
    Host(id, c.alias, "DEV", "Server", c.address, c.port, c.username, keyId, "", "", "")
  }

  function NewKey(c: Candidate, id: string, path: string): Key {
    Key(id, c.alias + " key", path)
  }

  /** One chosen candidate is added; `keyId` and `hostId` are fresh identifiers. */
  function AddOne(s: State, c: Candidate, files: Files, keyId: string, hostId: string): Result<State> {
    if !c.valid || IdOf(s.hosts, c.alias) != "" then Err
    else
      match files.path(c.identityFile)
      case None => Err
      case Some(path) =>
        if !files.usable(path) then Err
        else
          var known := KeyFor(s.keys, path);
          if known != "" then Ok(s.(hosts := s.hosts + [NewHost(c, hostId, known)]))
          else Ok(s.(keys := s.keys + [NewKey(c, keyId, path)], hosts := s.hosts + [NewHost(c, hostId, keyId)]))
  }

  /** All chosen candidates are added; candidate i uses identifiers 2i and 2i+1. */
  function AddAll(s: State, cands: seq<Candidate>, chosen: set<string>, files: Files, newIds: seq<string>): Result<State>
    requires 2 * |cands| <= |newIds|
  {
    if cands == [] then Ok(s)
    else
      var n := |cands| - 1;
      match AddAll(s, cands[..n], chosen, files, newIds)
      case Err => Err
      case Ok(r) =>
        if cands[n].alias !in chosen then Ok(r) else AddOne(r, cands[n], files, newIds[2 * n], newIds[2 * n + 1])
  }

  // ---------------------------------------------------------------- jump links

  /** `host` has to be reached through `via`. */
  datatype Demand = Demand(host: string, via: string)

  /** The hosts on the way to a candidate and the candidate itself. */
  function Path(c: Candidate): seq<string> { c.jumps + [c.alias] }

  /** Every host of a path after the first is reached through the one before it. */
  function PathDemands(path: seq<string>): seq<Demand> {
    if |path| < 2 then []
    else PathDemands(path[..|path| - 1]) + [Demand(path[|path| - 1], path[|path| - 2])]
  }

  function Demands(cands: seq<Candidate>, chosen: set<string>): seq<Demand> {
    if cands == [] then []
    else
      var c := cands[|cands| - 1];
      Demands(cands[..|cands| - 1], chosen) + if c.alias in chosen then PathDemands(Path(c)) else []
  }

  /** Position of the last host with this name, or |hosts|. */
  function LastIndex(hosts: seq<Host>, name: string): (i: nat)
    ensures i <= |hosts|
    ensures i < |hosts| ==> hosts[i].name == name
  {
    if hosts == [] then 0
    else if hosts[|hosts| - 1].name == name then |hosts| - 1
    else
      var i := LastIndex(hosts[..|hosts| - 1], name);
      if i == |hosts| - 1 then |hosts| else i
  }

  /** One demand: a new host takes the link unless it has another one; a host stored before
      (position below `base`) must have it already. */
  function Link(hosts: seq<Host>, base: nat, d: Demand): Option<seq<Host>> {
    var i, via := LastIndex(hosts, d.host), IdOf(hosts, d.via);
    if i == |hosts| then None
    else if i >= base then
      if hosts[i].jumpId != "" && hosts[i].jumpId != via then None else Some(hosts[i := hosts[i].(jumpId := via)])
    else
      match Find(hosts, HostId, IdOf(hosts, d.host))
      case None => None
      case Some(h) => if h.jumpId == via then Some(hosts) else None
  }

  function LinkAll(hosts: seq<Host>, base: nat, ds: seq<Demand>): Option<seq<Host>> {
    if ds == [] then Some(hosts)
    else
      match LinkAll(hosts, base, ds[..|ds| - 1])
      case None => None
      case Some(linked) => Link(linked, base, ds[|ds| - 1])
  }

  /** Every hop of a chosen candidate is registered or chosen too. */
  predicate HopsKnown(hosts: seq<Host>, cands: seq<Candidate>, chosen: set<string>) {
    forall c <- cands :: c.alias in chosen ==> forall hop <- c.jumps :: IdOf(hosts, hop) != ""
  }

  predicate AllFound(cands: seq<Candidate>, chosen: set<string>) {
    forall a <- chosen :: Has(cands, Alias, a)
  }

  function ApplySelected(s: State, cands: seq<Candidate>, chosen: set<string>, files: Files, newIds: seq<string>): Result<State>
    requires 2 * |cands| <= |newIds|
  {
    match AddAll(s, cands, chosen, files, newIds)
    case Err => Err
    case Ok(added) =>
      if !AllFound(cands, chosen) || !HopsKnown(added.hosts, cands, chosen) then Err
      else
        match LinkAll(added.hosts, |s.hosts|, Demands(cands, chosen))
        case None => Err
        case Some(hosts) => Ok(added.(hosts := hosts))
  }

  // ---------------------------------------------------------------- facts about linking

  /** Linking changes nothing but jump links. */
  ghost predicate SameButLinks(a: seq<Host>, b: seq<Host>) {
    |a| == |b| && forall i :: 0 <= i < |a| ==> b[i] == a[i].(jumpId := b[i].jumpId)
  }

  lemma SameNames(a: seq<Host>, b: seq<Host>, name: string)
    requires SameButLinks(a, b)
    ensures IdOf(b, name) == IdOf(a, name) && LastIndex(b, name) == LastIndex(a, name)
  {
    if a != [] {
      var n := |a| - 1;
      assert a[n].name == b[n].name;
      assert SameButLinks(a[..n], b[..n]);
      SameNames(a[..n], b[..n], name);
    }
  }

  lemma LinkSame(hosts: seq<Host>, base: nat, d: Demand)
    requires Link(hosts, base, d).Some?
    ensures SameButLinks(hosts, Link(hosts, base, d).value)
  {
  }

  lemma {:induction false} LinkAllSame(hosts: seq<Host>, base: nat, ds: seq<Demand>)
    requires LinkAll(hosts, base, ds).Some?
    ensures SameButLinks(hosts, LinkAll(hosts, base, ds).value)
  {
    if ds != [] {
      LinkAllSame(hosts, base, ds[..|ds| - 1]);
      LinkSame(LinkAll(hosts, base, ds[..|ds| - 1]).value, base, ds[|ds| - 1]);
    }
  }

  lemma LinkAllStep(hosts: seq<Host>, base: nat, ds: seq<Demand>, d: Demand)
    ensures LinkAll(hosts, base, ds + [d]) ==
      match LinkAll(hosts, base, ds) {
        case None => None
        case Some(linked) => Link(linked, base, d)
      }
  {
    assert (ds + [d])[..|ds|] == ds;
  }

  lemma {:induction false} LinkAllFails(hosts: seq<Host>, base: nat, ds: seq<Demand>, n: nat)
    requires n <= |ds| && LinkAll(hosts, base, ds[..n]).None?
    ensures LinkAll(hosts, base, ds).None?
    decreases |ds| - n
  {
    if n < |ds| {
      assert ds[..n + 1][..n] == ds[..n];
      LinkAllFails(hosts, base, ds, n + 1);
    } else {
      assert ds[..n] == ds;
    }
  }

  // ---------------------------------------------------------------- the import as the program runs it

  /** The name table: the id of the last host with each name. */
  ghost predicate NameTable(byName: map<string, string>, hosts: seq<Host>) {
    forall n :: IdOf(hosts, n) == if n in byName then byName[n] else ""
  }

  /** The table of new hosts: their position behind the stored ones. */
  ghost predicate NewTable(newHosts: map<string, nat>, hosts: seq<Host>, base: nat) {
    forall n :: if n in newHosts then newHosts[n] == LastIndex(hosts, n) && base <= newHosts[n] < |hosts|
                else LastIndex(hosts, n) < base || LastIndex(hosts, n) == |hosts|
  }

  lemma AppendHost(hosts: seq<Host>, h: Host)
    ensures forall n :: IdOf(hosts + [h], n) == if n == h.name then h.id else IdOf(hosts, n)
    ensures forall n :: n == h.name ==> LastIndex(hosts + [h], n) == |hosts|
    ensures forall n :: n != h.name && LastIndex(hosts, n) < |hosts| ==> LastIndex(hosts + [h], n) == LastIndex(hosts, n)
    ensures forall n :: n != h.name && LastIndex(hosts, n) == |hosts| ==> LastIndex(hosts + [h], n) == |hosts| + 1
  {
    assert (hosts + [h])[..|hosts|] == hosts;
  }

  method NamesOf(hosts: seq<Host>) returns (byName: map<string, string>)
    ensures NameTable(byName, hosts)
  {
    byName := map[];
    for i := 0 to |hosts|
      invariant NameTable(byName, hosts[..i])
    {
      assert hosts[..i + 1] == hosts[..i] + [hosts[i]];
      AppendHost(hosts[..i], hosts[i]);
      hide IdOf, LastIndex;
      byName := byName[hosts[i].name := hosts[i].id];
    }
    assert hosts[..|hosts|] == hosts;
  }

  /** The search over the registered keys, which keeps the last match. */
  method RegisteredKey(keys: seq<Key>, path: string) returns (id: string)
    ensures id == KeyFor(keys, path)
  {
    id := "";
    for i := 0 to |keys|
      invariant id == KeyFor(keys[..i], path)
    {
      assert keys[..i + 1][..i] == keys[..i];
      if keys[i].path == path {
        id := keys[i].id;
      }
    }
    assert keys[..|keys|] == keys;
  }

  lemma {:induction false} AddAllFails(s: State, cands: seq<Candidate>, chosen: set<string>, files: Files, newIds: seq<string>, n: nat)
    requires 2 * |cands| <= |newIds| && n <= |cands|
    requires AddAll(s, cands[..n], chosen, files, newIds).Err?
    ensures AddAll(s, cands, chosen, files, newIds).Err?
    decreases |cands| - n
  {
    if n < |cands| {
      assert cands[..n + 1][..n] == cands[..n];
      AddAllFails(s, cands, chosen, files, newIds, n + 1);
    } else {
      assert cands[..n] == cands;
    }
  }

  /** One chosen candidate: its key is looked up or registered, its host appended. */
  method AddCandidate(s: State, c: Candidate, files: Files, keyId: string, hostId: string) returns (r: Result<State>)
    ensures IdOf(s.hosts, c.alias) == "" ==> r == AddOne(s, c, files, keyId, hostId)
    ensures r.Err? ==> AddOne(s, c, files, keyId, hostId).Err?
    ensures r.Ok? ==> exists id :: r.value.hosts == s.hosts + [NewHost(c, hostId, id)]
  {
    hide FindLast;
    if !c.valid {
      return Err;
    }
    var path := files.path(c.identityFile);
    if path.None? || !files.usable(path.value) {
      return Err;
    }
    var key := RegisteredKey(s.keys, path.value);
    var keys := s.keys;
    if key == "" {
      key := keyId;
      keys := keys + [NewKey(c, key, path.value)];
    }
    r := Ok(s.(keys := keys, hosts := s.hosts + [NewHost(c, hostId, key)]));
  }

  lemma TablesAppend(byName: map<string, string>, newHosts: map<string, nat>, hosts: seq<Host>, base: nat, h: Host)
    requires NameTable(byName, hosts) && NewTable(newHosts, hosts, base) && base <= |hosts|
    ensures NameTable(byName[h.name := h.id], hosts + [h]) && NewTable(newHosts[h.name := |hosts|], hosts + [h], base)
  {
    AppendHost(hosts, h);
    hide IdOf, LastIndex;
  }

  function Lookup(byName: map<string, string>, name: string): string {
    if name in byName then byName[name] else ""
  }

  lemma TableLookup(byName: map<string, string>, hosts: seq<Host>, name: string)
    requires NameTable(byName, hosts)
    ensures Lookup(byName, name) == IdOf(hosts, name)
  {
    hide IdOf;
  }

  lemma AddAllStep(s: State, cands: seq<Candidate>, chosen: set<string>, files: Files, newIds: seq<string>, i: nat)
    requires 2 * |cands| <= |newIds| && i < |cands| && AddAll(s, cands[..i], chosen, files, newIds).Ok?
    ensures AddAll(s, cands[..i + 1], chosen, files, newIds) ==
      var r := AddAll(s, cands[..i], chosen, files, newIds);
      if cands[i].alias !in chosen then r else AddOne(r.value, cands[i], files, newIds[2 * i], newIds[2 * i + 1])
    ensures AddAll(s, cands[..i + 1], chosen, files, newIds).Err? ==> AddAll(s, cands, chosen, files, newIds).Err?
  {
    hide AddOne;
    assert cands[..i + 1][..i] == cands[..i];
    if AddAll(s, cands[..i + 1], chosen, files, newIds).Err? {
      AddAllFails(s, cands, chosen, files, newIds, i + 1);
    }
  }

  ghost function ChosenAliases(cands: seq<Candidate>, chosen: set<string>): set<string> {
    set c | c in cands && c.alias in chosen :: c.alias
  }

  lemma ChosenStep(cands: seq<Candidate>, chosen: set<string>, i: nat)
    requires i < |cands|
    ensures ChosenAliases(cands[..i + 1], chosen) ==
      ChosenAliases(cands[..i], chosen) + if cands[i].alias in chosen then {cands[i].alias} else {}
  {
    assert cands[..i + 1] == cands[..i] + [cands[i]];
  }

  /** The first pass, with the tables the second pass needs. */
  method AddChosen(s: State, cands: seq<Candidate>, chosen: set<string>, files: Files, newIds: seq<string>)
    returns (r: Result<State>, byName: map<string, string>, newHosts: map<string, nat>)
    requires 2 * |cands| <= |newIds|
    ensures r == AddAll(s, cands, chosen, files, newIds)
    ensures r.Ok? ==> NameTable(byName, r.value.hosts) && NewTable(newHosts, r.value.hosts, |s.hosts|)
    ensures r.Ok? ==> newHosts.Keys == ChosenAliases(cands, chosen)
  {
    byName := NamesOf(s.hosts);
    newHosts := map[];
    assert NewTable(newHosts, s.hosts, |s.hosts|);
    hide AddOne, LastIndex, IdOf, NewHost, NameTable, NewTable, AddAll, ChosenAliases;
    AddNone(s, chosen, files, newIds);
    assert cands[..0] == [];
    var state := s;
    for i := 0 to |cands|
      invariant AddAll(s, cands[..i], chosen, files, newIds) == Ok(state)
      invariant NameTable(byName, state.hosts) && NewTable(newHosts, state.hosts, |s.hosts|)
      invariant |state.hosts| >= |s.hosts|
      invariant newHosts.Keys == ChosenAliases(cands[..i], chosen)
    {
      var c := cands[i];
      AddAllStep(s, cands, chosen, files, newIds, i);
      ChosenStep(cands, chosen, i);
      TableLookup(byName, state.hosts, c.alias);
      if c.alias in chosen {
        if Lookup(byName, c.alias) != "" {
          AlreadyStored(state, c, files, newIds[2 * i], newIds[2 * i + 1]);
          return Err, byName, newHosts;
        }
        r := AddCandidate(state, c, files, newIds[2 * i], newIds[2 * i + 1]);
        if r.Err? {
          return;
        }
        ghost var id :| r.value.hosts == state.hosts + [NewHost(c, newIds[2 * i + 1], id)];
        NewHostNames(c, newIds[2 * i + 1], id);
        TablesAppend(byName, newHosts, state.hosts, |s.hosts|, NewHost(c, newIds[2 * i + 1], id));
        byName, newHosts := byName[c.alias := newIds[2 * i + 1]], newHosts[c.alias := |state.hosts|];
        state := r.value;
      }
    }
    assert cands[..|cands|] == cands;
    r := Ok(state);
  }

  lemma AddNone(s: State, chosen: set<string>, files: Files, newIds: seq<string>)
    ensures AddAll(s, [], chosen, files, newIds) == Ok(s) && ChosenAliases([], chosen) == {}
  {
  }

  lemma AlreadyStored(s: State, c: Candidate, files: Files, keyId: string, hostId: string)
    requires IdOf(s.hosts, c.alias) != ""
    ensures AddOne(s, c, files, keyId, hostId).Err?
  {
  }

  lemma NewHostNames(c: Candidate, id: string, keyId: string)
    ensures NewHost(c, id, keyId).name == c.alias && NewHost(c, id, keyId).id == id
  {
  }

  lemma {:induction false} CountChosen(found: set<string>, chosen: set<string>)
    requires found <= chosen
    ensures |found| == |chosen| <==> found == chosen
  {
    assert chosen == found + (chosen - found);
  }

  /** The demands of the first `n` hosts on a path, seen while walking it. */
  lemma PathPrefix(path: seq<string>, n: nat)
    requires n < |path|
    ensures PathDemands(path[..0]) == []
    ensures PathDemands(path[..n + 1]) ==
            if n == 0 then [] else PathDemands(path[..n]) + [Demand(path[n], path[n - 1])]
  {
    assert path[..n + 1][..n] == path[..n];
  }

  lemma {:induction false} PathFails(linked: seq<Host>, base: nat, before: seq<Demand>, path: seq<string>, n: nat)
    requires n <= |path| && LinkAll(linked, base, before + PathDemands(path[..n])).None?
    ensures LinkAll(linked, base, before + PathDemands(path)).None?
    decreases |path| - n
  {
    hide LinkAll, PathDemands, Link;
    if n < |path| {
      PathPrefix(path, n);
      if n > 0 {
        var d := Demand(path[n], path[n - 1]);
        LinkAllStep(linked, base, before + PathDemands(path[..n]), d);
        assert before + PathDemands(path[..n + 1]) == (before + PathDemands(path[..n])) + [d];
      }
      PathFails(linked, base, before, path, n + 1);
    } else {
      assert path[..n] == path;
    }
  }

  lemma LinkKnown(hosts: seq<Host>, name: string)
    ensures IdOf(hosts, name) != "" ==> LastIndex(hosts, name) < |hosts|
  {
  }

  /** One link of a path, with the tables the program keeps. */
  method LinkOne(hosts: seq<Host>, newHosts: map<string, nat>, base: nat, name: string, id: string, previous: string)
    returns (r: Option<seq<Host>>)
    requires NewTable(newHosts, hosts, base) && id == IdOf(hosts, name) && id != ""
    ensures forall via :: IdOf(hosts, via) == previous ==> r == Link(hosts, base, Demand(name, via))
  {
    LinkKnown(hosts, name);
    hide FindLast, LastIndex, IndexOf;
    if name in newHosts {
      var i := newHosts[name];
      if hosts[i].jumpId != "" && hosts[i].jumpId != previous {
        return None;
      }
      r := Some(hosts[i := hosts[i].(jumpId := previous)]);
    } else {
      var h := Find(hosts, HostId, id);
      if h.None? || h.value.jumpId != previous {
        return None;
      }
      r := Some(hosts);
    }
  }

  lemma TablesKept(a: seq<Host>, b: seq<Host>, byName: map<string, string>, newHosts: map<string, nat>, base: nat)
    requires SameButLinks(a, b) && NameTable(byName, a) && NewTable(newHosts, a, base)
    ensures NameTable(byName, b) && NewTable(newHosts, b, base)
  {
    forall n ensures IdOf(b, n) == IdOf(a, n) && LastIndex(b, n) == LastIndex(a, n) {
      SameNames(a, b, n);
    }
  }

  lemma SameTransitive(a: seq<Host>, b: seq<Host>, c: seq<Host>)
    requires SameButLinks(a, b) && SameButLinks(b, c)
    ensures SameButLinks(a, c)
  {
  }

  /** The first `j` hosts of a path have been linked. */
  ghost predicate Progress(linked: seq<Host>, base: nat, before: seq<Demand>, path: seq<string>, j: nat, hosts: seq<Host>)
    requires j <= |path|
  {
    LinkAll(linked, base, before + PathDemands(path[..j])) == Some(hosts)
  }

  lemma ProgressStart(linked: seq<Host>, base: nat, before: seq<Demand>, path: seq<string>, hosts: seq<Host>)
    requires LinkAll(linked, base, before) == Some(hosts) && path != []
    ensures Progress(linked, base, before, path, 0, hosts) && Progress(linked, base, before, path, 1, hosts)
  {
    PathPrefix(path, 0);
    assert before + [] == before;
  }

  lemma ProgressStep(linked: seq<Host>, base: nat, before: seq<Demand>, path: seq<string>, j: nat, hosts: seq<Host>)
    requires 0 < j < |path| && Progress(linked, base, before, path, j, hosts)
    ensures var r := Link(hosts, base, Demand(path[j], path[j - 1]));
      && (r.Some? ==> Progress(linked, base, before, path, j + 1, r.value) && SameButLinks(hosts, r.value))
      && (r.None? ==> LinkAll(linked, base, before + PathDemands(path)).None?)
  {
    hide Link, LinkAll, PathDemands, SameButLinks;
    var d := Demand(path[j], path[j - 1]);
    PathPrefix(path, j);
    LinkAllStep(linked, base, before + PathDemands(path[..j]), d);
    assert before + PathDemands(path[..j + 1]) == (before + PathDemands(path[..j])) + [d];
    if Link(hosts, base, d).Some? {
      LinkSame(hosts, base, d);
    } else {
      PathFails(linked, base, before, path, j + 1);
    }
  }

  lemma ProgressEnd(linked: seq<Host>, base: nat, before: seq<Demand>, path: seq<string>, hosts: seq<Host>)
    requires Progress(linked, base, before, path, |path|, hosts)
    ensures LinkAll(linked, base, before + PathDemands(path)) == Some(hosts)
  {
    assert path[..|path|] == path;
  }

  /** What the second pass knows after the first `j` hosts of a path. */
  ghost predicate OnPath(start: seq<Host>, byName: map<string, string>, newHosts: map<string, nat>, base: nat,
                         linked: seq<Host>, before: seq<Demand>, path: seq<string>, j: nat, hosts: seq<Host>)
    requires j <= |path|
  {
    && Progress(linked, base, before, path, j, hosts)
    && NameTable(byName, hosts) && NewTable(newHosts, hosts, base)
    && SameButLinks(start, hosts)
  }

  /** A host of a path behind its first one. */
  method LinkNext(start: seq<Host>, hosts: seq<Host>, byName: map<string, string>, newHosts: map<string, nat>, base: nat,
                  ghost linked: seq<Host>, ghost before: seq<Demand>, path: seq<string>, j: nat, id: string, previous: string)
    returns (r: Option<seq<Host>>)
    requires 0 < j < |path| && OnPath(start, byName, newHosts, base, linked, before, path, j, hosts)
    requires id == IdOf(start, path[j]) != "" && previous == IdOf(start, path[j - 1])
    ensures r.Some? ==> OnPath(start, byName, newHosts, base, linked, before, path, j + 1, r.value)
    ensures r.None? ==> LinkAll(linked, base, before + PathDemands(path)).None?
  {
    hide IdOf, LastIndex, Link, LinkAll, PathDemands, NameTable, NewTable, Progress, SameButLinks;
    SameNames(start, hosts, path[j]);
    SameNames(start, hosts, path[j - 1]);
    ProgressStep(linked, base, before, path, j, hosts);
    r := LinkOne(hosts, newHosts, base, path[j], id, previous);
    if r.Some? {
      TablesKept(hosts, r.value, byName, newHosts, base);
      SameTransitive(start, hosts, r.value);
    }
  }

  /** The names of a path up to a position are all registered. */
  ghost predicate Registered(hosts: seq<Host>, path: seq<string>, n: nat)
    requires n <= |path|
  {
    forall k :: 0 <= k < n ==> IdOf(hosts, path[k]) != ""
  }

  /** The hops of one candidate, then the candidate itself. `linked` and `before` are where the
      second pass began and what it has linked so far. */
  method LinkPath(start: seq<Host>, path: seq<string>, byName: map<string, string>, newHosts: map<string, nat>, base: nat,
                  ghost linked: seq<Host>, ghost before: seq<Demand>) returns (r: Option<seq<Host>>)
    requires OnPath(start, byName, newHosts, base, linked, before, path, 0, start)
    requires path != [] && OnPath(start, byName, newHosts, base, linked, before, path, 1, start)
    ensures r.Some? ==> OnPath(start, byName, newHosts, base, linked, before, path, |path|, r.value)
    ensures r.Some? ==> Registered(start, path, |path|)
    ensures r.None? ==> !Registered(start, path, |path|) || LinkAll(linked, base, before + PathDemands(path)).None?
  {
    hide *;
    var hosts, previous := start, "";
    var j := 0;
    RegisteredNone(start, path);
    while j < |path|
      invariant 0 <= j <= |path|
      invariant OnPath(start, byName, newHosts, base, linked, before, path, j, hosts)
      invariant j == 0 ==> previous == "" && hosts == start
      invariant j > 0 ==> previous != "" && previous == IdOf(start, path[j - 1])
      invariant Registered(start, path, j)
    {
      var id := Lookup(byName, path[j]);
      PathLookup(start, byName, newHosts, base, linked, before, path, j, hosts);
      RegisteredStep(start, path, j);
      if id == "" {
        return None;
      }
      if previous != "" {
        var next := LinkNext(start, hosts, byName, newHosts, base, linked, before, path, j, id, previous);
        if next.None? {
          return None;
        }
        hosts := next.value;
      }
      previous, j := id, j + 1;
    }
    r := Some(hosts);
  }

  lemma RegisteredNone(hosts: seq<Host>, path: seq<string>)
    ensures Registered(hosts, path, 0)
  {
  }

  lemma RegisteredStep(hosts: seq<Host>, path: seq<string>, j: nat)
    requires j < |path| && Registered(hosts, path, j)
    ensures Registered(hosts, path, j + 1) <==> IdOf(hosts, path[j]) != ""
    ensures IdOf(hosts, path[j]) == "" ==> !Registered(hosts, path, |path|)
  {
    hide IdOf;
  }

  lemma PathLookup(start: seq<Host>, byName: map<string, string>, newHosts: map<string, nat>, base: nat,
                   linked: seq<Host>, before: seq<Demand>, path: seq<string>, j: nat, hosts: seq<Host>)
    requires j < |path| && OnPath(start, byName, newHosts, base, linked, before, path, j, hosts)
    ensures Lookup(byName, path[j]) == IdOf(start, path[j])
  {
    hide IdOf, SameButLinks, LastIndex;
    TableLookup(byName, hosts, path[j]);
    SameNames(start, hosts, path[j]);
  }

  method LinkCandidate(start: seq<Host>, c: Candidate, byName: map<string, string>, newHosts: map<string, nat>, base: nat,
                       ghost linked: seq<Host>, ghost before: seq<Demand>) returns (r: Option<seq<Host>>)
    requires NameTable(byName, start) && NewTable(newHosts, start, base)
    requires IdOf(start, c.alias) != ""
    requires LinkAll(linked, base, before) == Some(start)
    ensures r.Some? ==> r == LinkAll(linked, base, before + PathDemands(Path(c))) && SameButLinks(start, r.value)
    ensures r.Some? ==> forall hop <- c.jumps :: IdOf(start, hop) != ""
    ensures r.None? ==> (exists hop <- c.jumps :: IdOf(start, hop) == "")
                        || LinkAll(linked, base, before + PathDemands(Path(c))).None?
  {
    var path := Path(c);
    ProgressStart(linked, base, before, path, start);
    assert SameButLinks(start, start);
    r := LinkPath(start, path, byName, newHosts, base, linked, before);
    if r.Some? {
      ProgressEnd(linked, base, before, path, r.value);
    }
    RegisteredPath(start, c);
  }

  lemma RegisteredPath(start: seq<Host>, c: Candidate)
    requires IdOf(start, c.alias) != ""
    ensures Registered(start, Path(c), |Path(c)|) <==> forall hop <- c.jumps :: IdOf(start, hop) != ""
  {
    hide IdOf;
    var path := Path(c);
    assert forall k :: 0 <= k < |c.jumps| ==> path[k] == c.jumps[k];
    forall hop | hop in c.jumps && Registered(start, path, |path|) ensures IdOf(start, hop) != "" {
      var k :| 0 <= k < |c.jumps| && c.jumps[k] == hop;
      assert path[k] == hop;
    }
  }

  lemma DemandsStep(cands: seq<Candidate>, chosen: set<string>, i: nat)
    requires i < |cands|
    ensures Demands(cands[..0], chosen) == []
    ensures Demands(cands[..i + 1], chosen) ==
      Demands(cands[..i], chosen) + if cands[i].alias in chosen then PathDemands(Path(cands[i])) else []
  {
    assert cands[..i + 1][..i] == cands[..i];
  }

  lemma {:induction false} DemandsFail(linked: seq<Host>, base: nat, cands: seq<Candidate>, chosen: set<string>, n: nat)
    requires n <= |cands| && LinkAll(linked, base, Demands(cands[..n], chosen)).None?
    ensures LinkAll(linked, base, Demands(cands, chosen)).None?
    decreases |cands| - n
  {
    hide LinkAll, Demands, PathDemands;
    if n < |cands| {
      DemandsStep(cands, chosen, n);
      var longer := Demands(cands[..n + 1], chosen);
      assert longer[..|Demands(cands[..n], chosen)|] == Demands(cands[..n], chosen);
      LinkAllFails(linked, base, longer, |Demands(cands[..n], chosen)|);
      DemandsFail(linked, base, cands, chosen, n + 1);
    } else {
      assert cands[..n] == cands;
    }
  }

  /** The second pass: every chosen candidate's path is linked. */
  method LinkChosen(start: seq<Host>, cands: seq<Candidate>, chosen: set<string>, byName: map<string, string>,
                    newHosts: map<string, nat>, base: nat) returns (r: Option<seq<Host>>)
    requires NameTable(byName, start) && NewTable(newHosts, start, base)
    requires newHosts.Keys == ChosenAliases(cands, chosen)
    requires forall a <- newHosts :: IdOf(start, a) != ""
    ensures r.Some? <==> HopsKnown(start, cands, chosen) && LinkAll(start, base, Demands(cands, chosen)).Some?
    ensures r.Some? ==> r == LinkAll(start, base, Demands(cands, chosen))
  {
    var hosts := start;
    assert SameButLinks(start, start);
    assert cands[..0] == [];
    assert LinkAll(start, base, Demands([], chosen)) == Some(start);
    assert HopsKnown(start, cands[..0], chosen);
    hide IdOf, LastIndex, LinkAll, Demands, PathDemands, NameTable, NewTable, SameButLinks, HopsKnown;
    for i := 0 to |cands|
      invariant LinkAll(start, base, Demands(cands[..i], chosen)) == Some(hosts)
      invariant NameTable(byName, hosts) && NewTable(newHosts, hosts, base)
      invariant SameButLinks(start, hosts)
      invariant HopsKnown(start, cands[..i], chosen)
    {
      var c := cands[i];
      DemandsStep(cands, chosen, i);
      HopsStep(start, hosts, cands, chosen, i);
      ChosenMember(cands, chosen, i);
      if c.alias in newHosts {
        SameNames(start, hosts, c.alias);
        r := LinkCandidate(hosts, c, byName, newHosts, base, start, Demands(cands[..i], chosen));
        if r.None? {
          if LinkAll(start, base, Demands(cands[..i + 1], chosen)).None? {
            DemandsFail(start, base, cands, chosen, i + 1);
          }
          return;
        }
        TablesKept(hosts, r.value, byName, newHosts, base);
        SameTransitive(start, hosts, r.value);
        hosts := r.value;
      } else {
        assert Demands(cands[..i], chosen) + [] == Demands(cands[..i], chosen);
      }
    }
    assert cands[..|cands|] == cands;
    r := Some(hosts);
  }

  lemma ChosenMember(cands: seq<Candidate>, chosen: set<string>, i: nat)
    requires i < |cands|
    ensures cands[i].alias in ChosenAliases(cands, chosen) <==> cands[i].alias in chosen
  {
    assert cands[i] in cands;
  }

  lemma HopsStep(start: seq<Host>, hosts: seq<Host>, cands: seq<Candidate>, chosen: set<string>, i: nat)
    requires i < |cands| && SameButLinks(start, hosts) && HopsKnown(start, cands[..i], chosen)
    ensures HopsKnown(start, cands[..i + 1], chosen) <==>
      (cands[i].alias in chosen ==> forall hop <- cands[i].jumps :: IdOf(hosts, hop) != "")
    ensures !HopsKnown(start, cands[..i + 1], chosen) ==> !HopsKnown(start, cands, chosen)
  {
    assert cands[..i + 1] == cands[..i] + [cands[i]];
    assert cands[i] in cands[..i + 1] && cands[i] in cands;
    forall n ensures IdOf(hosts, n) == IdOf(start, n) { SameNames(start, hosts, n); }
    hide IdOf, SameButLinks;
    assert forall c <- cands[..i + 1] :: c in cands;
  }

  /** The whole edit. */
  method ApplyImport(draft: Draft, cands: seq<Candidate>, chosen: set<string>, files: Files, newIds: seq<string>) returns (ok: bool)
    requires 2 * |cands| <= |newIds| && forall i :: 0 <= i < |newIds| ==> newIds[i] != ""
    modifies draft
    ensures ok <==> ApplySelected(old(draft.View()), cands, chosen, files, newIds).Ok?
    ensures ok ==> ApplySelected(old(draft.View()), cands, chosen, files, newIds) == Ok(draft.View())
  {
    var state := draft.View();
    var added, byName, newHosts := AddChosen(state, cands, chosen, files, newIds);
    if added.Err? {
      return false;
    }
    FoundExactly(cands, chosen, newHosts.Keys);
    if |newHosts| != |chosen| {
      return false;
    }
    AddedIds(state, cands, chosen, files, newIds);
    var linked := LinkChosen(added.value.hosts, cands, chosen, byName, newHosts, |state.hosts|);
    if linked.None? {
      return false;
    }
    AddAllOnly(state, cands, chosen, files, newIds);
    draft.keys, draft.hosts := added.value.keys, linked.value;
    ok := true;
  }

  /** Importing touches keys and hosts only. */
  lemma {:induction false} AddAllOnly(s: State, cands: seq<Candidate>, chosen: set<string>, files: Files, newIds: seq<string>)
    requires 2 * |cands| <= |newIds| && AddAll(s, cands, chosen, files, newIds).Ok?
    ensures var r := AddAll(s, cands, chosen, files, newIds).value;
      r == s.(keys := r.keys, hosts := r.hosts)
  {
    if cands != [] {
      AddAllOnly(s, cands[..|cands| - 1], chosen, files, newIds);
    }
  }

  lemma FoundExactly(cands: seq<Candidate>, chosen: set<string>, found: set<string>)
    requires found == ChosenAliases(cands, chosen)
    ensures |found| == |chosen| <==> AllFound(cands, chosen)
  {
    CountChosen(found, chosen);
    forall a | a in chosen ensures a in found <==> Has(cands, Alias, a) {
      HasWitness(cands, Alias, a);
      if a in found {
        var c :| c in cands && c.alias in chosen && c.alias == a;
        HasMember(cands, Alias, c);
      }
    }
  }

  /** Every chosen alias has a new, non-empty identifier. */
  lemma {:induction false} AddedIds(s: State, cands: seq<Candidate>, chosen: set<string>, files: Files, newIds: seq<string>)
    requires 2 * |cands| <= |newIds| && forall i :: 0 <= i < |newIds| ==> newIds[i] != ""
    requires AddAll(s, cands, chosen, files, newIds).Ok?
    ensures forall a <- ChosenAliases(cands, chosen) :: IdOf(AddAll(s, cands, chosen, files, newIds).value.hosts, a) != ""
  {
    hide IdOf;
    if cands != [] {
      var n := |cands| - 1;
      assert cands == cands[..n] + [cands[n]];
      AddedIds(s, cands[..n], chosen, files, newIds);
      if cands[n].alias in chosen {
        var before := AddAll(s, cands[..n], chosen, files, newIds).value;
        var after := AddAll(s, cands, chosen, files, newIds).value;
        var h := after.hosts[|after.hosts| - 1];
        assert after.hosts == before.hosts + [h];
        AppendHost(before.hosts, h);
      }
    }
  }
}
