/**
 The master's side of sharing: feeds and installers are cut from the current configuration but
 never reach beyond the keys their owner chose.
 */
module Sharing {
  import opened Wrappers
  import opened Text
  import opened Records
  import opened Model
  import opened Store
  import opened Selecting
  import opened Bundles

  /** The same keys under another file path: the owner's paths never leave the machine. */
  function Repathed(keys: seq<Key>, path: string): (r: seq<Key>)
    ensures |r| == |keys|
    ensures forall i :: 0 <= i < |r| ==> r[i] == keys[i].(path := path)
  {
    seq(|keys|, i requires 0 <= i < |keys| => keys[i].(path := path))
  }

  /** The ids that are still stored, in order. */
  function StillStored(keys: seq<Key>, ids: seq<string>): seq<string> {
    if ids == [] then []
    else StillStored(keys, ids[..|ids| - 1]) + if Has(keys, KeyId, ids[|ids| - 1]) then [ids[|ids| - 1]] else []
  }

  lemma StillStoredMembers(keys: seq<Key>, ids: seq<string>)
    ensures forall id :: id in StillStored(keys, ids) <==> id in ids && Has(keys, KeyId, id)
  {
    if ids != [] {
      var n := |ids| - 1;
      StillStoredMembers(keys, ids[..n]);
      assert ids == ids[..n] + [ids[n]];
    }
  }

  method Existing(keys: seq<Key>, ids: seq<string>) returns (existing: seq<string>)
    ensures existing == StillStored(keys, ids)
  {
    existing := [];
    for i := 0 to |ids|
      invariant existing == StillStored(keys, ids[..i])
    {
      assert ids[..i + 1][..i] == ids[..i];
      if Has(keys, KeyId, ids[i]) {
        existing := existing + [ids[i]];
      }
    }
    assert ids[..|ids|] == ids;
  }

  // ---------------------------------------------------------------- feeds

  const FEED_PATH := "local-key-preserved"
  const BUNDLE_PATH := "bundled-key"

  /** The message of a feed that is scoped to `ids`, for the master's current configuration. */
  function FeedOf(master: State, ids: seq<string>): Result<State> {
    var existing := StillStored(master.keys, ids);
    var scoped := if existing == [] then Ok(EMPTY) else Selection(master, existing);
    match scoped
    case Err => Err
    case Ok(r) => Ok(r.(keys := Repathed(r.keys, FEED_PATH)))
  }

  method SignFeed(master: State, ids: seq<string>) returns (r: Result<State>)
    ensures r == FeedOf(master, ids)
  {
    hide Selection, StillStored;
    var existing := Existing(master.keys, ids);
    var scoped := EMPTY;
    if |existing| > 0 {
      var selected := Select(master, existing);
      if selected.Err? {
        return Err;
      }
      scoped := selected.value;
    }
    var keys := scoped.keys;
    for i := 0 to |keys|
      invariant |keys| == |scoped.keys|
      invariant forall j :: 0 <= j < |keys| ==> keys[j] == if j < i then scoped.keys[j].(path := FEED_PATH) else scoped.keys[j]
    {
      keys := keys[i := keys[i].(path := FEED_PATH)];
    }
    assert keys == Repathed(scoped.keys, FEED_PATH);
    r := Ok(scoped.(keys := keys));
  }

  lemma RepathIndex(keys: seq<Key>, path: string, id: string)
    ensures IndexOf(Repathed(keys, path), KeyId, id) == IndexOf(keys, KeyId, id)
    ensures Has(Repathed(keys, path), KeyId, id) <==> Has(keys, KeyId, id)
  {
    SameIndex(Repathed(keys, path), keys, KeyId, id);
  }

  lemma RepathFind(keys: seq<Key>, path: string, id: string)
    ensures Has(keys, KeyId, id) ==> Find(Repathed(keys, path), KeyId, id) == Some(Find(keys, KeyId, id).value.(path := path))
  {
    RepathIndex(keys, path, id);
  }

  /** The listed keys are the owner's, with their names, under another path. */
  ghost predicate KeysUnder(keys: seq<Key>, owned: seq<Key>, path: string) {
    forall id :: Has(keys, KeyId, id) ==>
      Has(owned, KeyId, id) && Find(keys, KeyId, id) == Some(Find(owned, KeyId, id).value.(path := path))
  }

  lemma SelectedKeys(s: State, ids: seq<string>, path: string)
    requires Valid(s) && UniqueIds(s) && Selection(s, ids).Ok?
    ensures KeysUnder(Repathed(Selection(s, ids).value.keys, path), s.keys, path)
  {
    var keys := Selection(s, ids).value.keys;
    SelectionClosed(s, ids);
    hide Valid, Selection, IndexOf;
    forall id | Has(Repathed(keys, path), KeyId, id)
      ensures Has(s.keys, KeyId, id) && Find(Repathed(keys, path), KeyId, id) == Some(Find(s.keys, KeyId, id).value.(path := path))
    {
      RepathIndex(keys, path, id);
      RepathFind(keys, path, id);
      HasWitness(keys, KeyId, id);
      FindMember(s.keys, KeyId, Find(keys, KeyId, id).value);
    }
  }

  /** What hangs off the listed hosts is there, and nothing else. */
  ghost predicate WholeScope(scope: State, owner: State) {
    && (forall t :: t in scope.tunnels <==> t in owner.tunnels && Has(scope.hosts, HostId, t.hostId))
    && (forall v :: v in scope.services <==> v in owner.services && Has(scope.tunnels, TunnelId, v.tunnelId))
  }

  lemma SelectedScope(s: State, ids: seq<string>)
    requires Valid(s) && UniqueIds(s) && Selection(s, ids).Ok?
    ensures WholeScope(Selection(s, ids).value, s)
  {
    SelectionClosed(s, ids);
    hide Valid, Selection, Has;
  }

  lemma NothingScope(s: State)
    ensures WholeScope(EMPTY, s) && forall path :: KeysUnder(Repathed(EMPTY.keys, path), s.keys, path)
  {
  }

  /** Changing paths to a non-empty text keeps the configuration valid. */
  lemma RepathValid(s: State, path: string)
    requires Valid(s) && path != ""
    ensures Valid(s.(keys := Repathed(s.keys, path)))
    ensures UniqueIds(s) ==> UniqueIds(s.(keys := Repathed(s.keys, path)))
  {
    hide ValidHost, Walk, IndexOf, TunnelOk, ServiceOk, Has, Name;
    var r := s.(keys := Repathed(s.keys, path));
    forall k | k in r.keys ensures ValidKey(k) {
      var i :| 0 <= i < |r.keys| && r.keys[i] == k;
      assert s.keys[i] in s.keys;
    }
    forall h | h in r.hosts ensures HostOk(r.keys, r.hosts, h) {
      assert HostOk(s.keys, s.hosts, h);
      RepathIndex(s.keys, path, h.keyId);
    }
    if UniqueIds(s) {
      forall i, j | 0 <= i < j < |r.keys| ensures KeyId(r.keys[i]) != KeyId(r.keys[j]) {
        assert KeyId(s.keys[i]) != KeyId(s.keys[j]);
      }
    }
  }

  lemma EmptyValid()
    ensures Valid(EMPTY) && UniqueIds(EMPTY) && NamedIds(EMPTY)
  {
  }

  /** For every later configuration of the master, a feed passes the receiver's check and holds
      exactly the chosen keys that still exist, without their paths, and only hosts using them. */
  lemma FeedScope(master: State, ids: seq<string>)
    requires Valid(master) && UniqueIds(master) && FeedOf(master, ids).Ok?
    ensures var feed := FeedOf(master, ids).value;
      && Valid(feed) && UniqueIds(feed)
      && (forall id :: Has(feed.keys, KeyId, id) <==> id in ids && Has(master.keys, KeyId, id))
      && KeysUnder(feed.keys, master.keys, "local-key-preserved")
      && WholeScope(feed, master)
      && (forall k <- feed.keys :: k.path == FEED_PATH)
      && (forall h :: h in feed.hosts <==> h in master.hosts && h.keyId in ids)
      && (forall h <- feed.hosts :: Route(feed.hosts, h.id) == Route(master.hosts, h.id))
      && feed.team == [] && feed.settings == NO_SETTINGS
  {
    hide Walk, IndexOf, HostOk, TunnelOk, ServiceOk, ValidKey, Selection, Has, KeysUnder;
    var existing := StillStored(master.keys, ids);
    StillStoredMembers(master.keys, ids);
    NothingScope(master);
    var scoped := if existing == [] then EMPTY else Selection(master, existing).value;
    if existing == [] {
      EmptyValid();
      forall h | h in master.hosts ensures h.keyId !in ids {
        assert HostOk(master.keys, master.hosts, h);
        HostKeyStored(master, h);
      }
      forall id ensures !Has(scoped.keys, KeyId, id) { NothingStored(id); }
    } else {
      SelectionClosed(master, existing);
      SelectionPlain(master, existing);
      SelectedKeys(master, existing, FEED_PATH);
      SelectedScope(master, existing);
      forall h | h in master.hosts ensures h.keyId in existing <==> h.keyId in ids {
        HostKeyStored(master, h);
      }
    }
    RepathValid(scoped, FEED_PATH);
    forall id ensures Has(Repathed(scoped.keys, FEED_PATH), KeyId, id) <==> Has(scoped.keys, KeyId, id) {
      RepathIndex(scoped.keys, FEED_PATH, id);
    }
  }

  lemma NothingStored(id: string)
    ensures !Has(EMPTY.keys, KeyId, id)
  {
  }

  lemma HostKeyStored(s: State, h: Host)
    requires Valid(s) && h in s.hosts
    ensures Has(s.keys, KeyId, h.keyId)
  {
    hide ValidHost, Walk, TunnelOk, ServiceOk, ValidKey;
    assert HostOk(s.keys, s.hosts, h);
  }

  lemma SelectionPlain(s: State, ids: seq<string>)
    requires Selection(s, ids).Ok?
    ensures Selection(s, ids).value.team == [] && Selection(s, ids).value.settings == NO_SETTINGS
  {
  }

  // ---------------------------------------------------------------- installers

  /** The installer's shape: version, one key file for each listed key and no other, a
      configuration that passes the check. */
  ghost predicate Shaped(b: Bundle) {
    && b.version == 1 && Valid(b.state) && UniqueIds(b.state)
    && (forall id :: id in b.material <==> Has(b.state.keys, KeyId, id))
  }

  /** The version, count and configuration checks of an installation, and that no key lacks material. */
  predicate InstallAccepts(b: Bundle) {
    && b.version == 1 && |b.material| == |b.state.keys| && Valid(b.state)
    && (forall k <- b.state.keys :: k.id in b.material)
  }

  lemma {:induction false} CountIds(keys: seq<Key>, ids: set<string>)
    requires Unique(keys, KeyId) && forall id :: id in ids <==> Has(keys, KeyId, id)
    ensures |ids| == |keys|
  {
    if keys != [] {
      var n := |keys| - 1;
      assert keys == keys[..n] + [keys[n]];
      var rest := ids - {keys[n].id};
      forall id ensures id in rest <==> Has(keys[..n], KeyId, id) {
        IndexOfAppend(keys[..n], [keys[n]], KeyId, id);
        HasWitness(keys[..n], KeyId, id);
      }
      CountIds(keys[..n], rest);
      FindAt(keys, KeyId, n);
      assert keys[n].id in ids;
    } else {
      assert ids == {};
    }
  }

  lemma ShapedAccepted(b: Bundle)
    requires Shaped(b)
    ensures InstallAccepts(b)
  {
    hide Valid;
    CountIds(b.state.keys, b.material.Keys);
    forall k | k in b.state.keys ensures k.id in b.material {
      HasMember(b.state.keys, KeyId, k);
    }
  }

  /** With distinct key ids the checks say exactly that: a bundle of another version, with a key file that
      belongs to no listed key or without the file of a listed one, is refused. */
  lemma AcceptedExact(b: Bundle)
    requires UniqueIds(b.state)
    ensures InstallAccepts(b) <==> Shaped(b)
  {
    if Shaped(b) { ShapedAccepted(b); }
    if InstallAccepts(b) {
      hide Valid;
      var ids := set id | id in KeyIds(b.state.keys);
      forall id ensures id in ids <==> Has(b.state.keys, KeyId, id) { KeyIdsMembers(b.state.keys, id); }
      CountIds(b.state.keys, ids);
      assert ids <= b.material.Keys;
      SameSize(ids, b.material.Keys);
      assert |b.material.Keys| == |b.material|;
    }
  }

  lemma SameSize(a: set<string>, b: set<string>)
    requires a <= b && |a| == |b|
    ensures a == b
  {
    assert |b - a| == 0;
  }

  function KeyIds(keys: seq<Key>): (ids: seq<string>)
    ensures |ids| == |keys|
    ensures forall i :: 0 <= i < |ids| ==> ids[i] == keys[i].id
  {
    seq(|keys|, i requires 0 <= i < |keys| => keys[i].id)
  }

  lemma KeyIdsMembers(keys: seq<Key>, id: string)
    ensures id in KeyIds(keys) <==> Has(keys, KeyId, id)
  {
    HasWitness(keys, KeyId, id);
    if id in KeyIds(keys) {
      var i :| 0 <= i < |keys| && KeyIds(keys)[i] == id;
      IndexOfAt(keys, KeyId, i);
    }
    if Has(keys, KeyId, id) {
      assert KeyIds(keys)[IndexOf(keys, KeyId, id)] == id;
    }
  }

  /** The bundle of a selection; `read` gives the private key at a path if it can be used. */
  function Created(s: State, ids: seq<string>, read: string -> Option<Material>): Result<Bundle> {
    match Selection(s, ids)
    case Err => Err
    case Ok(r) =>
      if exists k <- r.keys :: read(k.path).None? then Err
      else Ok(Bundle(None, 1, r.(keys := Repathed(r.keys, BUNDLE_PATH)),
                     map id | id in KeyIds(r.keys) :: KeyFile(r.keys, read, id)))
  }

  function KeyFile(keys: seq<Key>, read: string -> Option<Material>, id: string): Material {
    match Find(keys, KeyId, id)
    case None => ""
    case Some(k) => if read(k.path).Some? then read(k.path).value else ""
  }

  /** An installer brought up to date with the master: its own key files, never more keys. */
  function Refreshed(b: Bundle, master: State): Result<Bundle> {
    var ids := StillStored(master.keys, KeyIds(b.state.keys));
    if ids == [] then Err
    else
      match Selection(master, ids)
      case Err => Err
      case Ok(r) =>
        Ok(b.(state := r.(keys := Repathed(r.keys, BUNDLE_PATH)),
              material := Retained(r.keys, b.material)))
  }

  /** The key files that are still listed. */
  function Retained(picked: seq<Key>, material: map<string, Material>): map<string, Material> {
    map id | id in KeyIds(picked) :: if id in material then material[id] else ""
  }

  method RetainKeys(picked: seq<Key>, material: map<string, Material>) returns (keys: seq<Key>, retained: map<string, Material>)
    ensures keys == Repathed(picked, BUNDLE_PATH)
    ensures retained == Retained(picked, material)
  {
    keys, retained := picked, map[];
    for i := 0 to |picked|
      invariant |keys| == |picked|
      invariant forall j :: 0 <= j < i ==> keys[j] == picked[j].(path := BUNDLE_PATH)
      invariant forall j :: i <= j < |keys| ==> keys[j] == picked[j]
      invariant retained == Retained(picked[..i], material)
    {
      var id := picked[i].id;
      keys := keys[i := picked[i].(path := BUNDLE_PATH)];
      assert KeyIds(picked[..i + 1]) == KeyIds(picked[..i]) + [id];
      retained := retained[id := if id in material then material[id] else ""];
    }
    assert picked[..|picked|] == picked;
    assert keys == Repathed(picked, BUNDLE_PATH);
  }

  method RefreshBundle(b: Bundle, master: State) returns (r: Result<Bundle>)
    ensures r == Refreshed(b, master)
  {
    hide Selection, StillStored, Retained;
    var ids := Existing(master.keys, KeyIds(b.state.keys));
    if |ids| == 0 {
      return Err;
    }
    var selected := Select(master, ids);
    if selected.Err? {
      return Err;
    }
    var keys, retained := RetainKeys(selected.value.keys, b.material);
    r := Ok(b.(state := selected.value.(keys := keys), material := retained));
  }

  /** A selection packed with key files has the installer's shape. */
  lemma PackedShaped(s: State, ids: seq<string>, b: Bundle)
    requires Valid(s) && UniqueIds(s) && Selection(s, ids).Ok? && b.version == 1
    requires var r := Selection(s, ids).value;
      b.state == r.(keys := Repathed(r.keys, BUNDLE_PATH)) && b.material.Keys == set id | id in KeyIds(r.keys)
    ensures Shaped(b)
    ensures forall id :: Has(b.state.keys, KeyId, id) <==> id in ids
  {
    hide Walk, IndexOf, Valid, Selection, Has;
    var r := Selection(s, ids).value;
    SelectionClosed(s, ids);
    RepathValid(r, BUNDLE_PATH);
    forall id ensures id in b.material <==> Has(b.state.keys, KeyId, id)
              ensures Has(b.state.keys, KeyId, id) <==> id in ids {
      KeyIdsMembers(r.keys, id);
      RepathIndex(r.keys, BUNDLE_PATH, id);
    }
  }

  /** The file at the path of the stored key with this id. */
  predicate FileOfKey(s: State, read: string -> Option<Material>, id: string, file: Material) {
    Has(s.keys, KeyId, id) && read(Find(s.keys, KeyId, id).value.path) == Some(file)
  }

  /** A new installer has the right shape and holds exactly the chosen keys. */
  lemma CreatedShaped(s: State, ids: seq<string>, read: string -> Option<Material>)
    requires Valid(s) && UniqueIds(s) && Created(s, ids, read).Ok?
    ensures var b := Created(s, ids, read).value;
      && Shaped(b) && (forall id :: Has(b.state.keys, KeyId, id) <==> id in ids)
      && KeysUnder(b.state.keys, s.keys, "bundled-key") && WholeScope(b.state, s)
      && (forall h :: h in b.state.hosts <==> h in s.hosts && h.keyId in ids)
      && (forall id <- b.material :: FileOfKey(s, read, id, b.material[id]))
      && b.source == None && b.state.team == [] && b.state.settings == NO_SETTINGS
  {
    hide Walk, IndexOf, Valid, Selection, Has, KeyFile, KeysUnder;
    var b := Created(s, ids, read).value;
    SelectionPlain(s, ids);
    PackedShaped(s, ids, b);
    SelectedKeys(s, ids, BUNDLE_PATH);
    SelectedScope(s, ids);
    SelectionClosed(s, ids);
    forall id | id in b.material ensures FileOfKey(s, read, id, b.material[id]) {
      MaterialRead(s, ids, read, id);
    }
  }

  /** The packed key file is the one at the key's path. */
  lemma MaterialRead(s: State, ids: seq<string>, read: string -> Option<Material>, id: string)
    requires Valid(s) && UniqueIds(s) && Created(s, ids, read).Ok? && id in Created(s, ids, read).value.material
    ensures FileOfKey(s, read, id, Created(s, ids, read).value.material[id])
  {
    var keys := Selection(s, ids).value.keys;
    SelectionClosed(s, ids);
    hide Valid, Selection, IndexOf;
    KeyIdsMembers(keys, id);
    HasWitness(keys, KeyId, id);
    var k := Find(keys, KeyId, id).value;
    FindMember(s.keys, KeyId, k);
  }

  /** For every later configuration of the master, the refreshed installer keeps the shape, lists
      exactly the chosen keys that still exist and carries their original key files, so an
      installation accepts it; its hosts are the master's current hosts using those keys. */
  lemma RefreshScope(b: Bundle, master: State)
    requires Shaped(b) && Valid(master) && UniqueIds(master) && Refreshed(b, master).Ok?
    ensures var r := Refreshed(b, master).value;
      && Shaped(r) && InstallAccepts(r)
      && (forall id :: Has(r.state.keys, KeyId, id) <==> Has(b.state.keys, KeyId, id) && Has(master.keys, KeyId, id))
      && (forall id <- r.material :: id in b.material && r.material[id] == b.material[id])
      && (forall h :: h in r.state.hosts <==> h in master.hosts && Has(b.state.keys, KeyId, h.keyId))
      && KeysUnder(r.state.keys, master.keys, "bundled-key") && WholeScope(r.state, master)
      && r.source == b.source && r.version == b.version
  {
    hide Walk, IndexOf, Valid, Selection, Has, InstallAccepts, UniqueIds, KeysUnder;
    var ids := StillStored(master.keys, KeyIds(b.state.keys));
    StillStoredMembers(master.keys, KeyIds(b.state.keys));
    var r := Refreshed(b, master).value;
    SelectionClosed(master, ids);
    SelectedKeys(master, ids, BUNDLE_PATH);
    SelectedScope(master, ids);
    PackedShaped(master, ids, r);
    ShapedAccepted(r);
    forall id ensures id in KeyIds(b.state.keys) <==> Has(b.state.keys, KeyId, id) {
      KeyIdsMembers(b.state.keys, id);
    }
    forall h | h in master.hosts ensures Has(master.keys, KeyId, h.keyId) {
      HostKeyStored(master, h);
    }
  }

  /** The installer after a refresh at each of these configurations of the master. */
  function RefreshedAt(b: Bundle, masters: seq<State>): Result<Bundle> {
    if masters == [] then Ok(b)
    else
      match RefreshedAt(b, masters[..|masters| - 1])
      case Err => Err
      case Ok(r) => Refreshed(r, masters[|masters| - 1])
  }

  /** Refreshing never widens what was chosen, however the master is edited in between. */
  lemma {:induction false} RefreshNeverWidens(b: Bundle, masters: seq<State>)
    requires Shaped(b) && (forall m <- masters :: Valid(m) && UniqueIds(m)) && RefreshedAt(b, masters).Ok?
    ensures var r := RefreshedAt(b, masters).value;
      && Shaped(r)
      && (forall id :: Has(r.state.keys, KeyId, id) ==> Has(b.state.keys, KeyId, id) && id in b.material)
      && (forall id <- r.material :: id in b.material && r.material[id] == b.material[id])
      && (forall h <- r.state.hosts :: Has(b.state.keys, KeyId, h.keyId) || masters == [])
  {
    hide Valid, UniqueIds, Has, Refreshed;
    if masters != [] {
      var n := |masters| - 1;
      assert forall m <- masters[..n] :: m in masters;
      assert masters[n] in masters;
      RefreshNeverWidens(b, masters[..n]);
      RefreshScope(RefreshedAt(b, masters[..n]).value, masters[n]);
    }
  }

  // ---------------------------------------------------------------- when sharing succeeds

  /** Every host on a chosen key is reached over hosts on chosen keys. */
  ghost predicate ReachedWithin(s: State, ids: seq<string>) {
    forall h <- s.hosts :: h.keyId in ids ==>
      forall route: seq<Host> :: IsRoute(s.hosts, h.id, route) ==> forall hop <- route :: hop.keyId in ids
  }

  lemma {:induction false} PickedExact(keys: seq<Key>, ids: seq<string>)
    ensures Picked(keys, ids).Some? <==> forall id <- ids :: Has(keys, KeyId, id)
  {
    if ids != [] {
      var n := |ids| - 1;
      PickedExact(keys, ids[..n]);
      assert ids == ids[..n] + [ids[n]];
      assert forall id <- ids :: id in ids[..n] || id == ids[n];
      assert (forall id <- ids :: Has(keys, KeyId, id)) <==> (forall id <- ids[..n] :: Has(keys, KeyId, id)) && Has(keys, KeyId, ids[n]) by {
        hide Has;
        assert ids[n] in ids && forall id <- ids[..n] :: id in ids;
      }
    }
  }

  lemma JumpsExact(s: State, ids: seq<string>)
    requires Valid(s)
    ensures JumpKeysChosen(s, Filter(s.hosts, UsesKey(Chosen(ids))), Chosen(ids)) <==> ReachedWithin(s, ids)
  {
    hide Walk, Route, IsRoute, IndexOf, ValidHost, TunnelOk, ServiceOk, ValidKey, Filter;
    var hosts := Filter(s.hosts, UsesKey(Chosen(ids)));
    FilterMembers(s.hosts, UsesKey(Chosen(ids)));
    forall h | h in s.hosts ensures Route(s.hosts, h.id).Some? && IsRoute(s.hosts, h.id, Route(s.hosts, h.id).value) {
      assert HostOk(s.keys, s.hosts, h);
      RouteExact(s.hosts, h.id, Route(s.hosts, h.id).value);
    }
    forall h: Host, route: seq<Host> | IsRoute(s.hosts, h.id, route) ensures Route(s.hosts, h.id) == Some(route) {
      RouteExact(s.hosts, h.id, route);
    }
    assert forall h :: h in hosts <==> h in s.hosts && h.keyId in ids;
    if JumpKeysChosen(s, hosts, Chosen(ids)) {
      forall h | h in hosts ensures forall hop <- Route(s.hosts, h.id).value :: hop.keyId in ids {
        var i :| 0 <= i < |hosts| && hosts[i] == h;
        assert forall hop <- Route(s.hosts, hosts[i].id).value :: hop.keyId in Chosen(ids);
      }
      forall h, route: seq<Host>, hop | h in s.hosts && h.keyId in ids && IsRoute(s.hosts, h.id, route) && hop in route
        ensures hop.keyId in ids
      {
        assert h in hosts && Route(s.hosts, h.id) == Some(route);
        assert forall other <- Route(s.hosts, h.id).value :: other.keyId in ids;
      }
    }
    if ReachedWithin(s, ids) {
      forall i | 0 <= i < |hosts|
        ensures Route(s.hosts, hosts[i].id).Some? && forall hop <- Route(s.hosts, hosts[i].id).value :: hop.keyId in Chosen(ids)
      {
        assert hosts[i] in hosts && hosts[i] in s.hosts;
        assert IsRoute(s.hosts, hosts[i].id, Route(s.hosts, hosts[i].id).value);
      }
      assert JumpKeysChosen(s, hosts, Chosen(ids));
    }
  }

  lemma SelectionExact(s: State, ids: seq<string>)
    requires Valid(s) && UniqueIds(s)
    ensures Selection(s, ids).Ok? <==> ids != [] && (forall id <- ids :: Has(s.keys, KeyId, id)) && ReachedWithin(s, ids)
  {
    SelectionSucceeds(s, ids);
    PickedExact(s.keys, ids);
    JumpsExact(s, ids);
    hide Selection, ReachedWithin, JumpKeysChosen, Valid, UniqueIds, Has;
  }

  lemma ReachedStill(s: State, ids: seq<string>)
    requires Valid(s)
    ensures ReachedWithin(s, StillStored(s.keys, ids)) <==> ReachedWithin(s, ids)
  {
    hide Walk, Route, IndexOf, ValidHost, TunnelOk, ServiceOk, ValidKey, IsRoute;
    StillStoredMembers(s.keys, ids);
    forall h | h in s.hosts ensures Has(s.keys, KeyId, h.keyId) { HostKeyStored(s, h); }
    forall h, route: seq<Host>, hop | IsRoute(s.hosts, h, route) && hop in route ensures hop in s.hosts {
      RouteStored(s, h, route, hop);
    }
  }

  lemma RouteStored(s: State, id: string, route: seq<Host>, hop: Host)
    requires IsRoute(s.hosts, id, route) && hop in route
    ensures hop in s.hosts
  {
    var i :| 0 <= i < |route| && route[i] == hop;
    assert Find(s.hosts, HostId, route[i].id) == Some(route[i]);
  }

  /** A master can sign a feed exactly when every host on a chosen key is reached over hosts on chosen keys;
      when none of the keys is left the feed is empty. */
  lemma FeedExact(s: State, ids: seq<string>)
    requires Valid(s) && UniqueIds(s)
    ensures FeedOf(s, ids).Ok? <==> ReachedWithin(s, ids)
    ensures (forall id <- ids :: !Has(s.keys, KeyId, id)) ==> FeedOf(s, ids) == Ok(EMPTY)
  {
    var existing := StillStored(s.keys, ids);
    SelectionExact(s, existing);
    ReachedStill(s, ids);
    StillStoredMembers(s.keys, ids);
    NothingReached(s, ids);
    hide Selection, ReachedWithin, Valid, UniqueIds, Has, StillStored;
    assert Repathed([], FEED_PATH) == [];
    assert existing != [] ==> existing[0] in existing;
  }

  /** A bundle can be made exactly when moreover some key is chosen, all are stored, and their files can be read. */
  lemma CreatedExact(s: State, ids: seq<string>, read: string -> Option<Material>)
    requires Valid(s) && UniqueIds(s)
    ensures Created(s, ids, read).Ok? <==>
      && ids != [] && ReachedWithin(s, ids)
      && forall id <- ids :: Has(s.keys, KeyId, id) && read(Find(s.keys, KeyId, id).value.path).Some?
  {
    SelectionExact(s, ids);
    if Selection(s, ids).Ok? { ReadAll(s, ids, read); }
    hide Selection, ReachedWithin, Valid, UniqueIds, IndexOf, KeyFile, Repathed, KeyIds;
  }

  lemma NothingReached(s: State, ids: seq<string>)
    requires Valid(s)
    ensures StillStored(s.keys, ids) == [] ==> ReachedWithin(s, ids)
  {
    hide Valid, IsRoute, Has;
    StillStoredMembers(s.keys, ids);
    forall h | h in s.hosts ensures Has(s.keys, KeyId, h.keyId) { HostKeyStored(s, h); }
    assert StillStored(s.keys, ids) == [] ==> forall h <- s.hosts :: h.keyId !in ids;
  }

  lemma ReadAll(s: State, ids: seq<string>, read: string -> Option<Material>)
    requires Valid(s) && UniqueIds(s) && Selection(s, ids).Ok?
    ensures var keys := Selection(s, ids).value.keys;
      (forall k <- keys :: read(k.path).Some?) <==>
      (forall id <- ids :: Has(s.keys, KeyId, id) ==> read(Find(s.keys, KeyId, id).value.path).Some?)
  {
    SelectionClosed(s, ids);
    hide Valid, Selection, IndexOf;
    var keys := Selection(s, ids).value.keys;
    forall k | k in keys ensures k.id in ids && Find(s.keys, KeyId, k.id) == Some(k) && Has(s.keys, KeyId, k.id) {
      HasMember(keys, KeyId, k);
      FindMember(s.keys, KeyId, k);
      HasMember(s.keys, KeyId, k);
    }
    forall id | id in ids && Has(s.keys, KeyId, id) ensures Find(s.keys, KeyId, id).value in keys {
      HasWitness(keys, KeyId, id);
      FindMember(s.keys, KeyId, Find(keys, KeyId, id).value);
    }
  }
}
