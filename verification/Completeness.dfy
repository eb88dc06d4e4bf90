/**
 The start-up import leaves nothing out that it could import: a connected part of new, usable hosts
 that could be committed by itself is stored afterwards.
 */
module Completeness {
  import opened Wrappers
  import opened Text
  import opened Records
  import opened Model
  import opened Store
  import opened Importer
  import opened ImportSound
  import opened ImportLinks
  import opened ImportRoutes
  import opened ImportCommits
  import opened Groups
  import opened Startup
  import opened StartupAgain

  /** A new host of the configuration that could be imported on its own account: it is a valid
      candidate, makes a host that passes the record check, and its key file is usable. */
  ghost predicate Usable(hosts: seq<Host>, cands: seq<Candidate>, files: Files, alias: string) {
    !Has(hosts, HostName, alias) && exists c <- cands ::
      && c.alias == alias && c.valid
      && ValidHost(Host("", c.alias, "DEV", "Server", c.address, c.port, c.username, "pending", "", "", ""))
      && files.path(c.identityFile).Some? && files.usable(files.path(c.identityFile).value)
  }

  lemma EligibleExact(hosts: seq<Host>, cands: seq<Candidate>, files: Files, alias: string)
    ensures alias in Eligible(hosts, cands, files) <==> Usable(hosts, cands, files, alias)
  {
    hide Has, ValidHost;
  }

  /** A part of the configuration that stands by itself: its hosts jump to each other or to stored hosts
      only, no other new host jumps to one of them, and it is connected. */
  ghost predicate Standalone(hosts: seq<Host>, cands: seq<Candidate>, part: set<string>) {
    && (forall c <- cands :: c.alias in part ==> forall hop <- c.jumps :: hop in part || Has(hosts, HostName, hop))
    && (forall c <- cands :: c.alias !in part && !Has(hosts, HostName, c.alias) ==> forall hop <- c.jumps :: hop !in part)
    && IsGroup(cands, part, part)
  }

  lemma GroupInside(cands: seq<Candidate>, members: set<string>, part: set<string>)
    requires part <= members && Whole(cands, members, part) && IsGroup(cands, part, part)
    ensures IsGroup(cands, members, part)
  {
    var a :| a in part && part == Component(cands, part, a);
    ComponentExact(cands, members, a);
    ComponentExact(cands, part, a);
    var big := Component(cands, members, a);
    assert Whole(cands, part, big) by {
      forall b, c | b in big && Adjacent(cands, part, b, c) ensures c in big {
        assert Adjacent(cands, members, b, c);
      }
    }
    hide Component, Whole;
    assert big == part;
  }

  lemma PartWhole(s: State, cands: seq<Candidate>, files: Files, part: set<string>)
    requires Standalone(s.hosts, cands, part) && forall a <- part :: Usable(s.hosts, cands, files, a)
    ensures part <= Members(s, cands, files) && Whole(cands, Members(s, cands, files), part)
  {
    forall a | a in part ensures a in Eligible(s.hosts, cands, files) { EligibleExact(s.hosts, cands, files, a); }
    MembersGreatest(s, cands, files);
    assert Closed(s.hosts, cands, part) by { hide Has; }
    var members := Members(s, cands, files);
    hide Members, Eligible, Usable, Has, IsGroup;
    forall a, b | a in part && Adjacent(cands, members, a, b) ensures b in part {
      MemberNew(s, cands, files, a);
      MemberNew(s, cands, files, b);
      assert JumpsVia(cands, a, b) ==> b in part || Has(s.hosts, HostName, b);
    }
  }

  lemma MemberNew(s: State, cands: seq<Candidate>, files: Files, a: string)
    ensures a in Members(s, cands, files) ==> !Has(s.hosts, HostName, a)
  {
    hide Has, Ready;
  }

  /** Nothing is left out: such a part, if it could be committed as it is, is stored after the run. */
  lemma StandaloneStored(s: State, cands: seq<Candidate>, files: Files, batches: seq<seq<string>>, part: set<string>)
    requires Valid(s) && WellFormed(s) && Unique(cands, Alias) && FreshBatches(s, batches, cands) && |cands| <= |batches|
    requires forall i :: 0 <= i < |batches| ==> 2 * |cands| <= |batches[i]|
    requires Standalone(s.hosts, cands, part) && forall a <- part :: Usable(s.hosts, cands, files, a)
    requires Committable(s, cands, part, files)
    ensures forall a <- part :: Has(Started(s, cands, files, batches).hosts, HostName, a)
  {
    PartWhole(s, cands, files, part);
    assert IsGroup(cands, part, part) by { hide Has; }
    GroupInside(cands, Members(s, cands, files), part);
    assert Offered(s, cands, files, part);
    hide *;
    PlanOffered(s, cands, files);
    var plan := Plan(s, cands, files);
    var i :| 0 <= i < |plan| && plan[i] == part;
    CommittedInRun(s, cands, files, batches, i);
    StartedGrown(s, cands, files, batches);
    GrownNames(s, Started(s, cands, files, batches), Done(s, cands, plan, files, batches), part);
  }

  lemma GrownNames(s: State, t: State, done: set<string>, part: set<string>)
    requires Grown(s, t, done) && part <= done
    ensures forall a <- part :: Has(t.hosts, HostName, a)
  {
    hide Has, Valid, WellFormed, OncePerPath;
  }

  // ---------------------------------------------------------------- one candidate

  lemma {:induction false} LastKey(keys: seq<Key>, path: string) returns (j: nat)
    requires Has(keys, KeyPath, path)
    ensures j < |keys| && keys[j].path == path && FindLast(keys, KeyPath, path) == Some(keys[j])
    ensures forall i :: j < i < |keys| ==> keys[i].path != path
  {
    j := |keys| - 1;
    if keys[j].path != path {
      var n := j;
      IndexOfAppend(keys[..n], [keys[n]], KeyPath, path);
      assert keys == keys[..n] + [keys[n]];
      j := LastKey(keys[..n], path);
    }
  }

  /** The host made of a candidate, with the program's defaults around the candidate's values. */
  function HostOfCandidate(c: Candidate, id: string, keyId: string): Host {
    Host(id, c.alias, "DEV", "Server", c.address, c.port, c.username, keyId, "", "", "")
  }

  /** It uses the last stored key with its key file, or a new one named after it. */
  ghost predicate KeyTaken(keys: seq<Key>, alias: string, path: string, newId: string, keyId: string, after: seq<Key>) {
    if exists k <- keys :: k.path == path then
      after == keys && exists j :: 0 <= j < |keys| && keys[j].path == path && keys[j].id == keyId
                                  && forall i :: j < i < |keys| ==> keys[i].path != path
    else
      keyId == newId && after == keys + [Key(newId, alias + " key", path)]
  }

  /** A candidate is added exactly when it is valid, its name is new, and its key file is found and usable. */
  lemma CandidateAdded(s: State, c: Candidate, files: Files, keyId: string, hostId: string)
    requires WellFormed(s)
    ensures AddOne(s, c, files, keyId, hostId).Ok? <==>
      && c.valid && (forall h <- s.hosts :: h.name != c.alias)
      && files.path(c.identityFile).Some? && files.usable(files.path(c.identityFile).value)
    ensures AddOne(s, c, files, keyId, hostId).Ok? ==>
      var r := AddOne(s, c, files, keyId, hostId).value;
      && r == s.(hosts := r.hosts, keys := r.keys)
      && exists k: string :: KeyTaken(s.keys, c.alias, files.path(c.identityFile).value, keyId, k, r.keys)
                             && r.hosts == s.hosts + [HostOfCandidate(c, hostId, k)]
  {
    NameFree(s.hosts, c.alias);
    hide IndexOf, FindLast, IdOf, Has, Unique;
    var r := AddOne(s, c, files, keyId, hostId);
    if r.Ok? {
      var path := files.path(c.identityFile).value;
      StoredHas(s.keys, KeyPath, path);
      FindLastHas(s.keys, KeyPath, path);
      var k := if Has(s.keys, KeyPath, path) then FindLast(s.keys, KeyPath, path).value.id else keyId;
      if Has(s.keys, KeyPath, path) { var j := LastKey(s.keys, path); }
      assert KeyTaken(s.keys, c.alias, path, keyId, k, r.value.keys);
      assert NewHost(c, hostId, k) == HostOfCandidate(c, hostId, k);
    }
  }

  lemma NameFree(hosts: seq<Host>, name: string)
    requires NonEmptyIds(hosts, HostId)
    ensures IdOf(hosts, name) == "" <==> forall h <- hosts :: h.name != name
  {
    FindLastHas(hosts, HostName, name);
    StoredHas(hosts, HostName, name);
    hide IndexOf, FindLast, Has;
  }
}
