/**
 Reading the hosts out of an OpenSSH configuration: Host blocks with negatable patterns, the first
 value of a keyword wins, Match blocks make every host need a manual review. Sizes are limited.
 */
module Parser {
  import opened Wrappers
  import opened Text
  import opened Records
  import opened Importer
  import opened Tokens

  // ---------------------------------------------------------------- patterns

  /** Pattern matching for literals, `*` and `?`; neither wildcard matches a slash. */
  predicate Glob(p: string, s: string)
    decreases |p| + |s|
  {
    if p == "" then s == ""
    else if p[0] == '*' then Glob(p[1..], s) || (s != "" && s[0] != '/' && Glob(p, s[1..]))
    else s != "" && (if p[0] == '?' then s[0] != '/' else p[0] == s[0]) && Glob(p[1..], s[1..])
  }

  /** Character classes and escapes are decided by `classes`. */
  type Classes = (string, string) -> bool

  predicate Fits(classes: Classes, p: string, s: string) {
    if Avoids(p, "[\\") then Glob(p, s) else classes(p, s)
  }

  predicate Negated(p: string) { p != "" && p[0] == '!' }

  function Bare(p: string): string { if Negated(p) then p[1..] else p }

  predicate Selects(classes: Classes, p: string, alias: string) {
    Fits(classes, Lower(Bare(p)), Lower(alias))
  }

  /** Some pattern selects the alias and no negated one does. */
  predicate Matching(classes: Classes, patterns: seq<string>, alias: string) {
    && (exists p <- patterns :: !Negated(p) && Selects(classes, p, alias))
    && (forall p <- patterns :: Negated(p) ==> !Selects(classes, p, alias))
  }

  /** The program's loop, which gives up at the first negated match. */
  method Matches(classes: Classes, patterns: seq<string>, alias: string) returns (r: bool)
    ensures r <==> Matching(classes, patterns, alias)
  {
    hide Selects;
    var matched := false;
    for i := 0 to |patterns|
      invariant matched <==> exists j :: 0 <= j < i && !Negated(patterns[j]) && Selects(classes, patterns[j], alias)
      invariant forall j :: 0 <= j < i && Negated(patterns[j]) ==> !Selects(classes, patterns[j], alias)
    {
      var ok := Selects(classes, patterns[i], alias);
      if ok && Negated(patterns[i]) {
        return false;
      }
      matched := matched || ok;
    }
    r := matched;
  }

  /** A pattern without wildcards matches itself only. */
  lemma {:induction false} GlobLiteral(p: string, s: string)
    requires Avoids(p, "*?")
    ensures Glob(p, s) <==> p == s
  {
    if p != "" && s != "" {
      assert p[0] != '*' && p[0] != '?';
      assert Avoids(p[1..], "*?");
      GlobLiteral(p[1..], s[1..]);
      assert p == [p[0]] + p[1..] && s == [s[0]] + s[1..];
    }
  }

  // ---------------------------------------------------------------- blocks

  datatype Directive = Directive(patterns: seq<string>, key: string, values: seq<string>)

  datatype Reading = Reading(patterns: seq<string>, inMatch: bool, matchSeen: bool, directives: seq<Directive>, aliases: seq<string>)

  const NOTHING := Reading(["*"], false, false, [], [])

  predicate IsAlias(a: string) { Avoids(a, "*?![]") }

  /** The literal names of a Host line that were not named before. */
  function AddAliases(aliases: seq<string>, names: seq<string>): seq<string> {
    if names == [] then aliases
    else
      var before, a := AddAliases(aliases, names[..|names| - 1]), names[|names| - 1];
      if IsAlias(a) && a !in before then before + [a] else before
  }

  /** One line. */
  function Feed(st: Reading, words: seq<string>): Reading {
    if |words| < 2 then st
    else
      var key, values := Lower(words[0]), words[1..];
      if key == "host" then st.(patterns := values, inMatch := false, aliases := AddAliases(st.aliases, values))
      else if key == "match" then st.(inMatch := true, matchSeen := true)
      else if st.inMatch then st
      else st.(directives := st.directives + [Directive(st.patterns, key, values)])
  }

  const MAX_LINE := 131072
  const MAX_CONFIG := 2097152

  /** The line as the program sees it: without a carriage return at its end, and without a byte
      order mark at the start of the text. */
  function Clean(raw: string, first: bool): string {
    var line := if raw != "" && raw[|raw| - 1] == '\r' then raw[..|raw| - 1] else raw;
    if first && line != "" && line[0] as int == 0xFEFF then line[1..] else line
  }

  function RawLines(text: string): seq<string> {
    var pieces := Split(text, '\n');
    if pieces[|pieces| - 1] == "" then pieces[..|pieces| - 1] else pieces
  }

  /** All lines; None if one is too long or has an open quote. */
  function FeedLines(st: Reading, raws: seq<string>): Option<Reading> {
    if raws == [] then Some(st)
    else
      var n := |raws| - 1;
      match FeedLines(st, raws[..n])
      case None => None
      case Some(before) =>
        if ByteLen(raws[n]) >= MAX_LINE then None
        else
          match Words(Clean(raws[n], n == 0))
          case None => None
          case Some(words) => Some(Feed(before, words))
  }

  // ---------------------------------------------------------------- hosts

  function Join(parts: seq<string>, sep: string): string {
    if parts == [] then "" else if |parts| == 1 then parts[0]
    else Join(parts[..|parts| - 1], sep) + sep + parts[|parts| - 1]
  }

  /** The value of a keyword for an alias: that of the first directive that applies, or "". */
  function Value(classes: Classes, ds: seq<Directive>, alias: string, key: string): string {
    if ds == [] then ""
    else if ds[0].key == key && Matching(classes, ds[0].patterns, alias) then Join(ds[0].values, " ")
    else Value(classes, ds[1..], alias, key)
  }

  predicate Applies(classes: Classes, d: Directive, alias: string, key: string) {
    d.key == key && Matching(classes, d.patterns, alias)
  }

  /** The first value wins. */
  lemma {:induction false} FirstValueWins(classes: Classes, ds: seq<Directive>, alias: string, key: string, i: nat)
    requires i < |ds| && Applies(classes, ds[i], alias, key)
    requires forall j :: 0 <= j < i ==> !Applies(classes, ds[j], alias, key)
    ensures Value(classes, ds, alias, key) == Join(ds[i].values, " ")
  {
    hide Matching;
    if i > 0 {
      assert !Applies(classes, ds[0], alias, key);
      assert ds[1..][i - 1] == ds[i];
      FirstValueWins(classes, ds[1..], alias, key, i - 1);
    }
  }

  lemma {:induction false} NoValue(classes: Classes, ds: seq<Directive>, alias: string, key: string)
    requires forall j :: 0 <= j < |ds| ==> !Applies(classes, ds[j], alias, key)
    ensures Value(classes, ds, alias, key) == ""
  {
    hide Matching;
    if ds != [] {
      assert !Applies(classes, ds[0], alias, key);
      NoValue(classes, ds[1..], alias, key);
    }
  }

  predicate GoodHop(hop: string) { hop != "" && Avoids(hop, "@: /\\") }

  function Hops(jump: string): seq<string> {
    if jump == "" || jump == "none" then [] else Trimmed(Split(jump, ','))
  }

  function Trimmed(parts: seq<string>): (r: seq<string>)
    ensures |r| == |parts|
  {
    seq(|parts|, i requires 0 <= i < |parts| => Trim(parts[i]))
  }

  predicate PortText(p: string) { p == "" || (Atoi(p).Some? && 1 <= Atoi(p).value <= 65535) }

  predicate StartsAt(s: string, part: string, i: nat) { i <= |s| && part <= s[i..] }

  predicate Contains(s: string, part: string) {
    exists i :: 0 <= i <= |s| && StartsAt(s, part, i)
  }

  predicate Off(value: string) { value == "" || value == "none" }

  const BLOCKING := ["proxycommand", "certificatefile", "identityagent", "include"]

  predicate Blocked(classes: Classes, ds: seq<Directive>, alias: string) {
    exists key <- BLOCKING :: !Off(Value(classes, ds, alias, key))
  }

  /** The host made of its values; anything the import would have to ignore makes it invalid. */
  function Built(alias: string, name: string, port: string, user: string, identity: string, jump: string, blocked: bool): Candidate {
    var address := if name == "" then alias else name;
    Candidate(alias, address, if port != "" && PortText(port) then Atoi(port).value else 22, user, identity, Hops(jump),
      && PortText(port) && user != "" && identity != ""
      && Avoids(identity, "%") && Avoids(address, "%") && !Contains(identity, "${")
      && (forall hop <- Hops(jump) :: GoodHop(hop)) && !blocked)
  }

  /** The host the directives describe under this alias. */
  function HostOf(classes: Classes, st: Reading, alias: string): Candidate {
    var ds := st.directives;
    Built(alias, Value(classes, ds, alias, "hostname"), Value(classes, ds, alias, "port"), Value(classes, ds, alias, "user"),
          Value(classes, ds, alias, "identityfile"), Value(classes, ds, alias, "proxyjump"),
          Blocked(classes, ds, alias) || st.matchSeen)
  }

  function HostsOf(classes: Classes, st: Reading, aliases: seq<string>): (r: seq<Candidate>)
    ensures |r| == |aliases| && forall i :: 0 <= i < |aliases| ==> r[i] == HostOf(classes, st, aliases[i])
  {
    seq(|aliases|, i requires 0 <= i < |aliases| => HostOf(classes, st, aliases[i]))
  }

  /** The first `room` bytes of a text, in whole characters. */
  function Limited(text: string, room: nat): (r: string)
    ensures r <= text && ByteLen(r) <= room
    ensures |r| < |text| ==> ByteLen(r) + CharBytes(text[|r|]) > room
  {
    if text == "" || CharBytes(text[0]) > room then ""
    else [text[0]] + Limited(text[1..], room - CharBytes(text[0]))
  }

  /** A text within the limit is read whole. */
  lemma LimitedWhole(text: string, room: nat)
    requires ByteLen(text) <= room
    ensures Limited(text, room) == text
  {
  }

  /** The hosts of a configuration text. Only the first 2 MiB are read, without a warning. */
  function Parse(classes: Classes, text: string): Result<seq<Candidate>> {
    match FeedLines(NOTHING, RawLines(Limited(text, MAX_CONFIG)))
    case None => Err
    case Some(st) => Ok(HostsOf(classes, st, st.aliases))
  }

  /** The hosts of a configuration file, which is refused when it is longer than that. */
  function FileHosts(classes: Classes, text: string): Result<seq<Candidate>> {
    if ByteLen(text) > MAX_CONFIG then Err else Parse(classes, text)
  }

  // ---------------------------------------------------------------- the reader as the program runs it

  lemma AddAliasesStep(aliases: seq<string>, names: seq<string>, i: nat)
    requires i < |names|
    ensures AddAliases(aliases, names[..i + 1]) ==
      var before := AddAliases(aliases, names[..i]);
      if IsAlias(names[i]) && names[i] !in before then before + [names[i]] else before
  {
    assert names[..i + 1][..i] == names[..i];
  }

  method AddNames(aliases: seq<string>, seen: set<string>, names: seq<string>) returns (r: seq<string>, more: set<string>)
    requires forall a :: a in seen <==> a in aliases
    ensures r == AddAliases(aliases, names) && forall a :: a in more <==> a in r
  {
    r, more := aliases, seen;
    for i := 0 to |names|
      invariant r == AddAliases(aliases, names[..i]) && forall a :: a in more <==> a in r
    {
      AddAliasesStep(aliases, names, i);
      hide IsAlias, AddAliases;
      if IsAlias(names[i]) && names[i] !in more {
        r, more := r + [names[i]], more + {names[i]};
      }
    }
    assert names[..|names|] == names;
  }

  lemma FeedLinesStep(st: Reading, raws: seq<string>, i: nat)
    requires i < |raws| && FeedLines(st, raws[..i]).Some?
    ensures FeedLines(st, raws[..i + 1]) ==
      if ByteLen(raws[i]) >= MAX_LINE || Words(Clean(raws[i], i == 0)).None? then None
      else Some(Feed(FeedLines(st, raws[..i]).value, Words(Clean(raws[i], i == 0)).value))
    ensures FeedLines(st, raws[..i + 1]).None? ==> FeedLines(st, raws).None?
  {
    hide Feed, Words, Clean;
    assert raws[..i + 1][..i] == raws[..i];
    if FeedLines(st, raws[..i + 1]).None? {
      FeedLinesFail(st, raws, i + 1);
    }
  }

  lemma {:induction false} FeedLinesFail(st: Reading, raws: seq<string>, n: nat)
    requires n <= |raws| && FeedLines(st, raws[..n]).None?
    ensures FeedLines(st, raws).None?
    decreases |raws| - n
  {
    hide Feed, Words, Clean;
    if n < |raws| {
      assert raws[..n + 1][..n] == raws[..n];
      FeedLinesFail(st, raws, n + 1);
    } else {
      assert raws[..n] == raws;
    }
  }

  /** The loop over the lines. */
  method ReadLines(raws: seq<string>) returns (r: Option<Reading>)
    ensures r == FeedLines(NOTHING, raws)
  {
    var patterns, inMatch, matchSeen := ["*"], false, false;
    var directives: seq<Directive>, aliases: seq<string>, seen: set<string> := [], [], {};
    for i := 0 to |raws|
      invariant FeedLines(NOTHING, raws[..i]) == Some(Reading(patterns, inMatch, matchSeen, directives, aliases))
      invariant forall a :: a in seen <==> a in aliases
    {
      FeedLinesStep(NOTHING, raws, i);
      hide FeedLines, Words, Clean, AddAliases;
      if ByteLen(raws[i]) >= MAX_LINE {
        return None;
      }
      var words := ReadWords(Clean(raws[i], i == 0));
      if words.None? {
        return None;
      }
      if |words.value| >= 2 {
        var key, values := Lower(words.value[0]), words.value[1..];
        if key == "host" {
          patterns, inMatch := values, false;
          aliases, seen := AddNames(aliases, seen, values);
        } else if key == "match" {
          inMatch, matchSeen := true, true;
        } else if !inMatch {
          directives := directives + [Directive(patterns, key, values)];
        }
      }
    }
    assert raws[..|raws|] == raws;
    r := Some(Reading(patterns, inMatch, matchSeen, directives, aliases));
  }

  /** A directive for this keyword applied already. */
  ghost predicate Given(classes: Classes, ds: seq<Directive>, alias: string, key: string) {
    exists j :: 0 <= j < |ds| && Applies(classes, ds[j], alias, key)
  }

  lemma {:induction false} ValueAppend(classes: Classes, ds: seq<Directive>, d: Directive, alias: string, key: string)
    ensures Value(classes, ds + [d], alias, key) ==
      if Given(classes, ds, alias, key) then Value(classes, ds, alias, key)
      else if Applies(classes, d, alias, key) then Join(d.values, " ") else ""
    ensures Given(classes, ds + [d], alias, key) <==> Given(classes, ds, alias, key) || Applies(classes, d, alias, key)
  {
    hide Matching, Join;
    assert (ds + [d])[|ds|] == d;
    assert forall j :: 0 <= j < |ds| ==> (ds + [d])[j] == ds[j];
    if ds == [] {
      assert (ds + [d])[1..] == [];
      assert Value(classes, [], alias, key) == "";
    } else {
      assert (ds + [d])[1..] == ds[1..] + [d];
      ValueAppend(classes, ds[1..], d, alias, key);
      assert Given(classes, ds, alias, key) <==> Applies(classes, ds[0], alias, key) || Given(classes, ds[1..], alias, key) by {
        if j :| 0 < j < |ds| && Applies(classes, ds[j], alias, key) { assert ds[1..][j - 1] == ds[j]; }
        if j :| 0 <= j < |ds| - 1 && Applies(classes, ds[1..][j], alias, key) { assert ds[j + 1] == ds[1..][j]; }
      }
    }
  }

  function Get(values: map<string, string>, key: string): string {
    if key in values then values[key] else ""
  }

  /** The values of one alias: the loop keeps the first value of every keyword. */
  method ValuesOf(classes: Classes, ds: seq<Directive>, alias: string) returns (values: map<string, string>)
    ensures forall key :: Get(values, key) == Value(classes, ds, alias, key)
  {
    hide Matching, Join, Value;
    values := map[];
    for i := 0 to |ds|
      invariant forall key :: key in values <==> Given(classes, ds[..i], alias, key)
      invariant forall key <- values :: values[key] == Value(classes, ds[..i], alias, key)
    {
      var d := ds[i];
      assert ds[..i + 1] == ds[..i] + [d];
      forall key
        ensures Value(classes, ds[..i + 1], alias, key) ==
          if Given(classes, ds[..i], alias, key) then Value(classes, ds[..i], alias, key)
          else if Applies(classes, d, alias, key) then Join(d.values, " ") else ""
        ensures Given(classes, ds[..i + 1], alias, key) <==> Given(classes, ds[..i], alias, key) || Applies(classes, d, alias, key)
      {
        ValueAppend(classes, ds[..i], d, alias, key);
      }
      hide Given;
      var applies := Matches(classes, d.patterns, alias);
      if applies && d.key !in values {
        values := values[d.key := Join(d.values, " ")];
      }
    }
    assert ds[..|ds|] == ds;
    forall key ensures Get(values, key) == Value(classes, ds, alias, key) {
      if key !in values {
        assert !Given(classes, ds, alias, key);
        NoValue(classes, ds, alias, key);
      }
    }
  }

  method HopList(jump: string) returns (jumps: seq<string>, ok: bool)
    ensures jumps == Hops(jump) && (ok <==> forall hop <- jumps :: GoodHop(hop))
  {
    hide Split, Trim, GoodHop;
    jumps, ok := [], true;
    if jump != "" && jump != "none" {
      var parts := Split(jump, ',');
      for i := 0 to |parts|
        invariant |jumps| == i && forall j :: 0 <= j < i ==> jumps[j] == Trim(parts[j])
        invariant ok <==> forall hop <- jumps :: GoodHop(hop)
      {
        var hop := Trim(parts[i]);
        ok := ok && GoodHop(hop);
        assert forall h :: h in jumps + [hop] <==> h in jumps || h == hop;
        jumps := jumps + [hop];
      }
      assert jumps == Trimmed(parts);
    }
  }

  method BlockedBy(values: map<string, string>) returns (blocked: bool)
    ensures blocked <==> exists key <- BLOCKING :: !Off(Get(values, key))
  {
    hide Off, Get;
    blocked := false;
    for i := 0 to |BLOCKING|
      invariant blocked <==> exists j :: 0 <= j < i && !Off(Get(values, BLOCKING[j]))
    {
      blocked := blocked || !Off(Get(values, BLOCKING[i]));
    }
  }

  /** One host from its values. */
  /** The port of a host, and whether its text is a port at all. */
  method PortOf(text: string) returns (port: int, ok: bool)
    ensures ok <==> PortText(text)
    ensures text != "" && PortText(text) ==> Atoi(text).Some?
    ensures port == if text != "" && PortText(text) then Atoi(text).value else 22
  {
    hide Atoi;
    port, ok := 22, true;
    if text != "" {
      if !PortText(text) {
        ok := false;
      } else {
        port := Atoi(text).value;
      }
    }
  }

  /** User and key file are given, and nothing in them would have to be expanded. */
  method Plainly(user: string, identity: string, address: string) returns (ok: bool)
    ensures ok <==> user != "" && identity != "" && Avoids(identity, "%") && Avoids(address, "%") && !Contains(identity, "${")
  {
    hide Avoids, Contains;
    ok := true;
    if user == "" || identity == "" {
      ok := false;
    }
    if !Avoids(identity, "%") || !Avoids(address, "%") || Contains(identity, "${") {
      ok := false;
    }
  }

  lemma SameBlocking(classes: Classes, ds: seq<Directive>, alias: string, values: map<string, string>)
    requires forall key :: Get(values, key) == Value(classes, ds, alias, key)
    ensures (exists key <- BLOCKING :: !Off(Get(values, key))) <==> Blocked(classes, ds, alias)
  {
    hide Get, Value, Off;
  }

  method BuildHost(classes: Classes, st: Reading, alias: string) returns (c: Candidate)
    ensures c == HostOf(classes, st, alias)
  {
    hide Value, Hops, PortText, Contains, GoodHop, Avoids, Get, Off, Blocked, Atoi;
    var values := ValuesOf(classes, st.directives, alias);
    var address := if Get(values, "hostname") == "" then alias else Get(values, "hostname");
    var port, valid := PortOf(Get(values, "port"));
    var user, identity := Get(values, "user"), Get(values, "identityfile");
    var plain := Plainly(user, identity, address);
    var jumps, good := HopList(Get(values, "proxyjump"));
    var blocked := BlockedBy(values);
    SameBlocking(classes, st.directives, alias, values);
    c := Candidate(alias, address, port, user, identity, jumps, valid && plain && good && !blocked && !st.matchSeen);
  }

  /** The whole reader of a text. */
  method ParseText(classes: Classes, text: string) returns (r: Result<seq<Candidate>>)
    ensures r == Parse(classes, text)
  {
    hide FeedLines, RawLines, HostOf, Limited;
    var st := ReadLines(RawLines(Limited(text, MAX_CONFIG)));
    if st.None? {
      return Err;
    }
    var hosts: seq<Candidate> := [];
    for i := 0 to |st.value.aliases|
      invariant |hosts| == i && forall j :: 0 <= j < i ==> hosts[j] == HostOf(classes, st.value, st.value.aliases[j])
    {
      var c := BuildHost(classes, st.value, st.value.aliases[i]);
      hosts := hosts + [c];
    }
    assert hosts == HostsOf(classes, st.value, st.value.aliases);
    r := Ok(hosts);
  }

  /** The reader of a file, with its size check. */
  method Read(classes: Classes, text: string) returns (r: Result<seq<Candidate>>)
    ensures r == FileHosts(classes, text)
  {
    hide Parse;
    if ByteLen(text) > MAX_CONFIG {
      return Err;
    }
    r := ParseText(classes, text);
  }

  // ---------------------------------------------------------------- what the reader promises

  /** Literal names without repetition. */
  predicate Listing(aliases: seq<string>) {
    (forall i, j :: 0 <= i < j < |aliases| ==> aliases[i] != aliases[j]) && forall a <- aliases :: IsAlias(a)
  }

  lemma ListingAppend(aliases: seq<string>, a: string)
    requires Listing(aliases) && IsAlias(a) && a !in aliases
    ensures Listing(aliases + [a])
  {
    hide IsAlias;
  }

  lemma {:induction false} AddAliasesListing(aliases: seq<string>, names: seq<string>)
    requires Listing(aliases)
    ensures Listing(AddAliases(aliases, names))
  {
    hide IsAlias, Listing;
    if names != [] {
      var n := |names| - 1;
      AddAliasesListing(aliases, names[..n]);
      var before := AddAliases(aliases, names[..n]);
      if IsAlias(names[n]) && names[n] !in before {
        ListingAppend(before, names[n]);
      }
    }
  }

  lemma {:induction false} FeedLinesListing(st: Reading, raws: seq<string>)
    requires FeedLines(st, raws).Some? && Listing(st.aliases)
    ensures Listing(FeedLines(st, raws).value.aliases)
  {
    hide Listing, Words, Clean, AddAliases, Lower;
    if raws != [] {
      var n := |raws| - 1;
      FeedLinesListing(st, raws[..n]);
      var words := Words(Clean(raws[n], n == 0)).value;
      if |words| >= 2 {
        AddAliasesListing(FeedLines(st, raws[..n]).value.aliases, words[1..]);
      }
    }
  }

  /** Every host is listed once, under a literal name. */
  lemma ParseDistinct(classes: Classes, text: string)
    requires Parse(classes, text).Ok?
    ensures Unique(Parse(classes, text).value, Alias)
    ensures forall c <- Parse(classes, text).value :: IsAlias(c.alias)
  {
    hide IsAlias, FeedLines, RawLines, Limited, Value, Blocked, Built;
    var st := FeedLines(NOTHING, RawLines(Limited(text, MAX_CONFIG))).value;
    FeedLinesListing(NOTHING, RawLines(Limited(text, MAX_CONFIG)));
    var r := HostsOf(classes, st, st.aliases);
    forall i | 0 <= i < |r| ensures r[i].alias == st.aliases[i] {
      BuiltAlias(classes, st, st.aliases[i]);
    }
    hide HostOf;
  }

  lemma BuiltAlias(classes: Classes, st: Reading, alias: string)
    ensures HostOf(classes, st, alias).alias == alias
  {
    hide Value, Blocked, PortText, Hops, Contains, Avoids;
  }
}
