/**
 What a configuration means, said of its lines: which patterns cover an alias, which line decides a
 keyword, which names become hosts, and what each host is made of.
 */
module Readings {
  import opened Wrappers
  import opened Text
  import opened Records
  import opened Importer
  import opened Tokens
  import opened Parser
  import opened Blocks

  // ---------------------------------------------------------------- patterns

  function Joined(pieces: seq<string>): string {
    if pieces == [] then "" else pieces[0] + Joined(pieces[1..])
  }

  /** The text a single pattern character may stand for. */
  predicate Stands(c: char, piece: string) {
    if c == '*' then '/' !in piece
    else if c == '?' then |piece| == 1 && piece[0] != '/'
    else piece == [c]
  }

  /** The pattern covers the text: the text can be cut into one piece for every pattern character. */
  ghost predicate Covers(p: string, s: string) {
    exists pieces: seq<string> :: |pieces| == |p| && Joined(pieces) == s && forall i :: 0 <= i < |p| ==> Stands(p[i], pieces[i])
  }

  lemma CoversSplit(p: string, s: string, piece: string, rest: string)
    requires p != "" && Stands(p[0], piece) && s == piece + rest && Covers(p[1..], rest)
    ensures Covers(p, s)
  {
    var pieces: seq<string> :| |pieces| == |p| - 1 && Joined(pieces) == rest && forall i :: 0 <= i < |p| - 1 ==> Stands(p[1..][i], pieces[i]);
    var all := [piece] + pieces;
    assert all[1..] == pieces;
    assert forall i :: 0 < i < |p| ==> p[i] == p[1..][i - 1];
  }

  lemma SplitCovers(p: string, s: string) returns (piece: string, rest: string)
    requires p != "" && Covers(p, s)
    ensures Stands(p[0], piece) && s == piece + rest && Covers(p[1..], rest)
  {
    var pieces: seq<string> :| |pieces| == |p| && Joined(pieces) == s && forall i :: 0 <= i < |p| ==> Stands(p[i], pieces[i]);
    piece, rest := pieces[0], Joined(pieces[1..]);
    assert forall i :: 0 <= i < |p| - 1 ==> Stands(p[1..][i], pieces[1..][i]);
  }

  lemma CoversEmpty(s: string)
    ensures Covers("", s) <==> s == ""
  {
    assert Joined([]) == "";
    if s == "" {
      var none: seq<string> := [];
      assert |none| == |""| && Joined(none) == s;
    }
  }

  /** A star that takes one character more. */
  lemma StarLonger(p: string, s: string)
    requires p != "" && p[0] == '*' && s != "" && s[0] != '/' && Covers(p, s[1..])
    ensures Covers(p, s)
  {
    var piece, rest := SplitCovers(p, s[1..]);
    assert s == [s[0]] + piece + rest;
    CoversSplit(p, s, [s[0]] + piece, rest);
  }

  /** Pattern matching is covering. */
  lemma {:induction false} GlobExact(p: string, s: string)
    ensures Glob(p, s) <==> Covers(p, s)
    decreases |p| + |s|
  {
    hide Covers;
    if p == "" {
      CoversEmpty(s);
    } else if p[0] == '*' {
      GlobExact(p[1..], s);
      if Glob(p[1..], s) { CoversSplit(p, s, "", s); }
      if s != "" {
        GlobExact(p, s[1..]);
        if s[0] != '/' && Glob(p, s[1..]) { StarLonger(p, s); }
      }
      if Covers(p, s) {
        var piece, rest := SplitCovers(p, s);
        if piece == "" {
          assert rest == s;
        } else {
          assert s[0] == piece[0] && s[1..] == piece[1..] + rest;
          CoversSplit(p, s[1..], piece[1..], rest);
        }
      }
    } else {
      if s != "" { GlobExact(p[1..], s[1..]); }
      if Glob(p, s) {
        assert s == [s[0]] + s[1..];
        CoversSplit(p, s, [s[0]], s[1..]);
      }
      if Covers(p, s) {
        var piece, rest := SplitCovers(p, s);
        assert |piece| == 1 && s[1..] == rest;
      }
    }
  }

  /** A name pattern covers an alias, whatever the case of their letters. */
  ghost predicate Hits(classes: Classes, name: string, alias: string) {
    if '[' in Lower(name) || '\\' in Lower(name) then classes(Lower(name), Lower(alias)) else Covers(Lower(name), Lower(alias))
  }

  /** A Host line is about an alias: one of its patterns covers it, and none of those after a `!`. */
  ghost predicate About(classes: Classes, names: seq<string>, alias: string) {
    && (exists p <- names :: (p == "" || p[0] != '!') && Hits(classes, p, alias))
    && (forall p <- names :: p != "" && p[0] == '!' ==> !Hits(classes, p[1..], alias))
  }

  lemma SelectsHits(classes: Classes, p: string, alias: string)
    ensures Selects(classes, p, alias) <==> Hits(classes, if p != "" && p[0] == '!' then p[1..] else p, alias)
  {
    var bare := if p != "" && p[0] == '!' then p[1..] else p;
    GlobExact(Lower(bare), Lower(alias));
    hide Covers, Glob, Lower;
    assert Avoids(Lower(bare), "[\\") <==> '[' !in Lower(bare) && '\\' !in Lower(bare);
  }

  lemma MatchingAbout(classes: Classes, names: seq<string>, alias: string)
    ensures Matching(classes, names, alias) <==> About(classes, names, alias)
  {
    hide Selects, Hits;
    forall p | p in names ensures Selects(classes, p, alias) <==> Hits(classes, if p != "" && p[0] == '!' then p[1..] else p, alias) {
      SelectsHits(classes, p, alias);
    }
  }

  /** A name excludes itself: a Host line with `!a` is never about `a`. */
  lemma NegatedExcludes(classes: Classes, names: seq<string>, a: string)
    requires AliasWord(a) && ("!" + a) in names
    ensures !About(classes, names, a) && !Matching(classes, names, a)
  {
    MatchingAbout(classes, names, a);
    var p := "!" + a;
    assert p[0] == '!' && p[1..] == a;
    AliasLower(a);
    GlobLiteral(a, a);
    AliasLiteral(a);
    GlobExact(a, a);
    assert Hits(classes, a, a) by {
      hide Covers, Glob;
      assert '[' !in a && '\\' !in a;
    }
    hide Hits, Matching, AliasWord, Lower;
  }

  /** Its directives are as good as absent for that name. */
  lemma NegatedIgnored(classes: Classes, d: Directive, rest: seq<Directive>, a: string, key: string)
    requires AliasWord(a) && ("!" + a) in d.patterns
    ensures Value(classes, [d] + rest, a, key) == Value(classes, rest, a, key)
  {
    NegatedExcludes(classes, d.patterns, a);
    hide Matching, About, AliasWord, Join;
    assert ([d] + rest)[1..] == rest;
  }

  lemma StarCovers(alias: string)
    ensures Covers("*", alias) <==> '/' !in alias
  {
    if '/' !in alias {
      assert alias == alias + "";
      CoversEmpty("");
      CoversSplit("*", alias, alias, "");
    }
    if Covers("*", alias) {
      var piece, rest := SplitCovers("*", alias);
      CoversEmpty(rest);
      assert piece + "" == piece;
    }
  }

  lemma EverythingAbout(classes: Classes, alias: string)
    ensures About(classes, ["*"], alias) <==> '/' !in alias
  {
    StarCovers(Lower(alias));
    assert Lower("*") == "*";
    assert '/' in Lower(alias) <==> '/' in alias by {
      if i :| 0 <= i < |alias| && alias[i] == '/' { assert Lower(alias)[i] == '/'; }
      if i :| 0 <= i < |alias| && Lower(alias)[i] == '/' { assert alias[i] == '/'; }
    }
    hide Covers, Lower;
  }

  // ---------------------------------------------------------------- lines

  predicate Keyword(w: seq<string>, key: string) { |w| >= 2 && Lower(w[0]) == key }

  /** The Host or Match line a line stands under. */
  function Section(words: seq<seq<string>>, k: nat): Option<nat>
    requires k <= |words|
  {
    if k == 0 then None
    else if Keyword(words[k - 1], "host") || Keyword(words[k - 1], "match") then Some(k - 1)
    else Section(words, k - 1)
  }

  /** Line `k` gives this keyword to this alias: it stands before every Host line, or under one that is
      about the alias. */
  ghost predicate InForce(classes: Classes, words: seq<seq<string>>, k: nat, alias: string, key: string)
    requires k < |words|
  {
    && Keyword(words[k], key) && key != "host" && key != "match"
    && match Section(words, k)
       case None => '/' !in alias
       case Some(j) => j < |words| && Keyword(words[j], "host") && About(classes, words[j][1..], alias)
  }

  /** The first such line. */
  ghost function Deciding(classes: Classes, words: seq<seq<string>>, n: nat, alias: string, key: string): (r: Option<nat>)
    requires n <= |words|
    ensures r.Some? ==> r.value < n && InForce(classes, words, r.value, alias, key)
    ensures forall j :: 0 <= j < (if r.Some? then r.value else n) ==> !InForce(classes, words, j, alias, key)
  {
    if n == 0 then None
    else
      match Deciding(classes, words, n - 1, alias, key)
      case Some(k) => Some(k)
      case None => if InForce(classes, words, n - 1, alias, key) then Some(n - 1) else None
  }

  /** The value a configuration gives to a keyword under an alias. */
  ghost function Given(classes: Classes, words: seq<seq<string>>, alias: string, key: string): string {
    ValueOf(words, Deciding(classes, words, |words|, alias, key))
  }

  function ValueOf(words: seq<seq<string>>, line: Option<nat>): string {
    match line
    case None => ""
    case Some(k) => if k < |words| && words[k] != [] then Join(words[k][1..], " ") else ""
  }

  lemma {:induction false} SectionAt(words: seq<seq<string>>, n: nat)
    requires n <= |words|
    ensures var st := FeedAll(NOTHING, words[..n]);
      match Section(words, n) {
        case None => st.patterns == ["*"] && !st.inMatch
        case Some(j) => j < n && st.inMatch == Keyword(words[j], "match") && (!st.inMatch ==> Keyword(words[j], "host") && st.patterns == words[j][1..])
      }
    ensures FeedAll(NOTHING, words[..n]).matchSeen <==> exists j :: 0 <= j < n && Keyword(words[j], "match")
  {
    HostLower();
    hide Lower;
    assert "host"[0] != "match"[0];
    if n > 0 {
      SectionAt(words, n - 1);
      assert words[..n][..n - 1] == words[..n - 1];
    }
  }

  /** What one more line does to the directives, and when its directive applies. */
  lemma DirectiveAt(classes: Classes, words: seq<seq<string>>, n: nat, alias: string, key: string)
    requires 0 < n <= |words| && key != "host" && key != "match"
    ensures var st, w := FeedAll(NOTHING, words[..n - 1]), words[n - 1];
      var after := FeedAll(NOTHING, words[..n]).directives;
      if |w| >= 2 && Lower(w[0]) != "host" && Lower(w[0]) != "match" && !st.inMatch then
        var d := Directive(st.patterns, Lower(w[0]), w[1..]);
        after == st.directives + [d] && (Applies(classes, d, alias, key) <==> InForce(classes, words, n - 1, alias, key))
      else
        after == st.directives && !InForce(classes, words, n - 1, alias, key)
  {
    SectionAt(words, n - 1);
    FeedLast(words, n);
    var st := FeedAll(NOTHING, words[..n - 1]);
    MatchingAbout(classes, st.patterns, alias);
    EverythingAbout(classes, alias);
    hide FeedAll, Lower, Matching, About, AddAliases, Section;
  }

  lemma {:induction false} ValueAt(classes: Classes, words: seq<seq<string>>, n: nat, alias: string, key: string)
    requires n <= |words| && key != "host" && key != "match"
    ensures Parser.Given(classes, FeedAll(NOTHING, words[..n]).directives, alias, key) <==> Deciding(classes, words, n, alias, key).Some?
    ensures Value(classes, FeedAll(NOTHING, words[..n]).directives, alias, key) == ValueOf(words, Deciding(classes, words, n, alias, key))
  {
    if n == 0 {
      assert FeedAll(NOTHING, words[..0]) == NOTHING;
    } else {
      ValueAt(classes, words, n - 1, alias, key);
      DirectiveAt(classes, words, n, alias, key);
      hide FeedAll, Lower, Value, Applies, Parser.Given, Join, InForce;
      var st, w := FeedAll(NOTHING, words[..n - 1]), words[n - 1];
      if |w| >= 2 && Lower(w[0]) != "host" && Lower(w[0]) != "match" && !st.inMatch {
        ValueAppend(classes, st.directives, Directive(st.patterns, Lower(w[0]), w[1..]), alias, key);
      }
    }
  }

  lemma FeedLast(words: seq<seq<string>>, n: nat)
    requires 0 < n <= |words|
    ensures FeedAll(NOTHING, words[..n]) == Parser.Feed(FeedAll(NOTHING, words[..n - 1]), words[n - 1])
  {
    hide Parser.Feed;
    assert words[..n][..n - 1] == words[..n - 1];
  }

  /** A name without wildcards, brackets and negation. */
  predicate Literal(name: string) {
    '*' !in name && '?' !in name && '!' !in name && '[' !in name && ']' !in name
  }

  lemma LiteralAlias(name: string)
    ensures IsAlias(name) <==> Literal(name)
  {
    var marks := "*?![]";
    assert marks[0] == '*' && marks[1] == '?' && marks[2] == '!' && marks[3] == '[' && marks[4] == ']';
  }

  /** The names that become hosts: every literal name on a Host line. */
  ghost predicate Named(words: seq<seq<string>>, alias: string) {
    Literal(alias) && exists j :: 0 <= j < |words| && Keyword(words[j], "host") && alias in words[j][1..]
  }

  lemma {:induction false} AddAliasesMembers(aliases: seq<string>, names: seq<string>, a: string)
    ensures a in AddAliases(aliases, names) <==> a in aliases || (a in names && IsAlias(a))
  {
    hide IsAlias;
    if names != [] {
      var n := |names| - 1;
      AddAliasesMembers(aliases, names[..n], a);
      assert names == names[..n] + [names[n]];
    }
  }

  lemma {:induction false} AliasesAt(words: seq<seq<string>>, n: nat, a: string)
    requires n <= |words|
    ensures a in FeedAll(NOTHING, words[..n]).aliases <==>
      IsAlias(a) && exists j :: 0 <= j < n && Keyword(words[j], "host") && a in words[j][1..]
  {
    if n == 0 {
      assert FeedAll(NOTHING, words[..0]) == NOTHING;
    } else {
      AliasesAt(words, n - 1, a);
      FeedLast(words, n);
      hide FeedAll, Lower, IsAlias, AddAliases;
      var st, w := FeedAll(NOTHING, words[..n - 1]), words[n - 1];
      if Keyword(w, "host") {
        AddAliasesMembers(st.aliases, w[1..], a);
      }
    }
  }

  // ---------------------------------------------------------------- whole texts

  /** The words of a line of the text; `raws` are its lines. */
  function LineWords(raws: seq<string>, i: nat): Option<seq<string>>
    requires i < |raws|
  {
    Words(Clean(raws[i], i == 0))
  }

  /** Every line can be read: it is shorter than 128 KiB and leaves no quote open. */
  predicate Readable(raws: seq<string>) {
    forall i :: 0 <= i < |raws| ==> ByteLen(raws[i]) < 131072 && LineWords(raws, i).Some?
  }

  function AllLineWords(raws: seq<string>): (r: seq<seq<string>>)
    requires Readable(raws)
    ensures |r| == |raws| && forall i :: 0 <= i < |r| ==> r[i] == LineWords(raws, i).value
  {
    seq(|raws|, i requires 0 <= i < |raws| => LineWords(raws, i).value)
  }

  lemma ReadablePrefix(raws: seq<string>)
    requires raws != []
    ensures var n := |raws| - 1;
      Readable(raws) <==> Readable(raws[..n]) && ByteLen(raws[n]) < 131072 && LineWords(raws, n).Some?
    ensures forall i :: 0 <= i < |raws| - 1 ==> LineWords(raws[..|raws| - 1], i) == LineWords(raws, i)
  {
    hide Words, Clean, ByteLen;
    var n := |raws| - 1;
    assert forall i :: 0 <= i < n ==> raws[..n][i] == raws[i];
  }

  lemma {:induction false} LinesFed(raws: seq<string>)
    ensures FeedLines(NOTHING, raws) == if Readable(raws) then Some(FeedAll(NOTHING, AllLineWords(raws))) else None
  {
    if raws == [] {
      assert Readable(raws) && AllLineWords(raws) == [];
    } else {
      var n := |raws| - 1;
      LinesFed(raws[..n]);
      ReadablePrefix(raws);
      hide Words, Clean, ByteLen, Parser.Feed, Readable;
      if Readable(raws) {
        var words := AllLineWords(raws);
        assert words[..n] == AllLineWords(raws[..n]);
        assert words[..|words|] == words;
        FeedLast(words, n + 1);
      }
    }
  }

  /** The host of an alias with these values, and whether nothing in it would have to be ignored. */
  ghost predicate MadeOf(c: Candidate, name: string, port: string, user: string, file: string, jump: string, blocked: bool) {
    var number := Atoi(port).Some? && 1 <= Atoi(port).value <= 65535;
    && c.address == (if name == "" then c.alias else name)
    && c.port == (if port != "" && number then Atoi(port).value else 22)
    && c.username == user && c.identityFile == file
    && (jump == "" || jump == "none" ==> c.jumps == [])
    && (jump != "" && jump != "none" ==> |c.jumps| == |Split(jump, ',')| && forall i :: 0 <= i < |c.jumps| ==> c.jumps[i] == Trim(Split(jump, ',')[i]))
    && (c.valid <==>
          && (port == "" || number) && user != "" && file != "" && '%' !in file && '%' !in c.address && !Contains(file, "${")
          && (forall hop <- c.jumps :: hop != "" && '@' !in hop && ':' !in hop && ' ' !in hop && '/' !in hop && '\\' !in hop)
          && !blocked)
  }

  predicate IsSet(value: string) { value != "" && value != "none" }

  /** Keywords the import cannot honour. */
  ghost predicate Unusable(classes: Classes, words: seq<seq<string>>, alias: string) {
    || IsSet(Given(classes, words, alias, "proxycommand")) || IsSet(Given(classes, words, alias, "certificatefile"))
    || IsSet(Given(classes, words, alias, "identityagent")) || IsSet(Given(classes, words, alias, "include"))
    || exists j :: 0 <= j < |words| && Keyword(words[j], "match")
  }

  /** The candidate a configuration describes under its alias. */
  ghost predicate Describes(classes: Classes, words: seq<seq<string>>, c: Candidate) {
    MadeOf(c, Given(classes, words, c.alias, "hostname"), Given(classes, words, c.alias, "port"), Given(classes, words, c.alias, "user"),
           Given(classes, words, c.alias, "identityfile"), Given(classes, words, c.alias, "proxyjump"), Unusable(classes, words, c.alias))
  }

  lemma AvoidsOne(s: string, c: char)
    ensures Avoids(s, [c]) <==> c !in s
  {
  }

  lemma GoodHopIs(hop: string)
    ensures GoodHop(hop) <==> hop != "" && '@' !in hop && ':' !in hop && ' ' !in hop && '/' !in hop && '\\' !in hop
  {
    forall x | x in "@: /\\" ensures Avoids(hop, "@: /\\") ==> x !in hop {
      assert forall i :: 0 <= i < |hop| && hop[i] == x ==> hop[i] in "@: /\\";
    }
  }

  lemma BuiltMade(alias: string, name: string, port: string, user: string, file: string, jump: string, blocked: bool)
    ensures var c := Built(alias, name, port, user, file, jump, blocked); c.alias == alias && MadeOf(c, name, port, user, file, jump, blocked)
  {
    var c := Built(alias, name, port, user, file, jump, blocked);
    AvoidsOne(file, '%');
    AvoidsOne(c.address, '%');
    forall hop | hop in c.jumps
      ensures GoodHop(hop) <==> hop != "" && '@' !in hop && ':' !in hop && ' ' !in hop && '/' !in hop && '\\' !in hop
    {
      GoodHopIs(hop);
    }
    hide Avoids, Contains, GoodHop, Split, Trim, NatOf;
    assert ['%'] == "%";
    assert Atoi("").None?;
  }

  lemma ValueGiven(classes: Classes, words: seq<seq<string>>, alias: string, key: string)
    requires key != "host" && key != "match"
    ensures Value(classes, FeedAll(NOTHING, words).directives, alias, key) == Given(classes, words, alias, key)
  {
    assert words[..|words|] == words;
    ValueAt(classes, words, |words|, alias, key);
    hide Value, FeedAll, Deciding, Join;
  }

  lemma NotSections()
    ensures "hostname" != "host" && "port" != "host" && "user" != "host" && "identityfile" != "host" && "proxyjump" != "host"
    ensures "proxycommand" != "host" && "certificatefile" != "host" && "identityagent" != "host" && "include" != "host"
    ensures "hostname" != "match" && "port" != "match" && "user" != "match" && "identityfile" != "match" && "proxyjump" != "match"
    ensures "proxycommand" != "match" && "certificatefile" != "match" && "identityagent" != "match" && "include" != "match"
  {
    assert |"hostname"| == 8 && |"identityfile"| == 12 && |"proxyjump"| == 9 && |"proxycommand"| == 12 && |"include"| == 7;
    assert |"certificatefile"| == 15 && |"identityagent"| == 13;
    assert "port"[0] == 'p' && "user"[0] == 'u';
  }

  lemma BlockedIs(classes: Classes, ds: seq<Directive>, alias: string)
    ensures Blocked(classes, ds, alias) <==>
      || IsSet(Value(classes, ds, alias, "proxycommand")) || IsSet(Value(classes, ds, alias, "certificatefile"))
      || IsSet(Value(classes, ds, alias, "identityagent")) || IsSet(Value(classes, ds, alias, "include"))
  {
    assert BLOCKING[0] == "proxycommand" && BLOCKING[1] == "certificatefile" && BLOCKING[2] == "identityagent" && BLOCKING[3] == "include";
    hide Value;
  }

  lemma BlockedUnusable(classes: Classes, words: seq<seq<string>>, alias: string)
    ensures Unusable(classes, words, alias) <==>
      Blocked(classes, FeedAll(NOTHING, words).directives, alias) || FeedAll(NOTHING, words).matchSeen
  {
    assert words[..|words|] == words;
    NotSections();
    hide Value, FeedAll, Given, Keyword, Section, IsSet, Blocked;
    SectionAt(words, |words|);
    BlockedIs(classes, FeedAll(NOTHING, words).directives, alias);
    ValueGiven(classes, words, alias, "proxycommand");
    ValueGiven(classes, words, alias, "certificatefile");
    ValueGiven(classes, words, alias, "identityagent");
    ValueGiven(classes, words, alias, "include");
  }

  lemma HostDescribed(classes: Classes, words: seq<seq<string>>, alias: string)
    ensures var c := HostOf(classes, FeedAll(NOTHING, words), alias); c.alias == alias && Describes(classes, words, c)
  {
    NotSections();
    BlockedUnusable(classes, words, alias);
    ValueGiven(classes, words, alias, "hostname");
    ValueGiven(classes, words, alias, "port");
    ValueGiven(classes, words, alias, "user");
    ValueGiven(classes, words, alias, "identityfile");
    ValueGiven(classes, words, alias, "proxyjump");
    hide Value, FeedAll, Given, Unusable, Blocked, MadeOf, Built;
    var ds := FeedAll(NOTHING, words).directives;
    BuiltMade(alias, Given(classes, words, alias, "hostname"), Given(classes, words, alias, "port"), Given(classes, words, alias, "user"),
              Given(classes, words, alias, "identityfile"), Given(classes, words, alias, "proxyjump"), Unusable(classes, words, alias));
  }

  /** What a text means: it is read exactly when its lines can be read, its hosts are the literal names
      of its Host lines, and each is made of the first values in force for its name. */
  lemma ParseMeaning(classes: Classes, text: string)
    ensures var raws := RawLines(Limited(text, 2097152));
      && (Parse(classes, text).Ok? <==> Readable(raws))
      && (Readable(raws) ==>
            && Parse(classes, text).Ok?
            && (forall a :: Has(Parse(classes, text).value, Alias, a) <==> Named(AllLineWords(raws), a))
            && forall c <- Parse(classes, text).value :: Describes(classes, AllLineWords(raws), c))
  {
    var raws := RawLines(Limited(text, 2097152));
    LinesFed(raws);
    hide RawLines, Limited, Readable, FeedAll, HostOf, Describes, Named, FeedLines;
    if Readable(raws) {
      var words := AllLineWords(raws);
      var st := FeedAll(NOTHING, words);
      var r := HostsOf(classes, st, st.aliases);
      forall c | c in r ensures Describes(classes, words, c) {
        var i :| 0 <= i < |r| && r[i] == c;
        HostDescribed(classes, words, st.aliases[i]);
      }
      forall a ensures Has(r, Alias, a) <==> Named(words, a) { ParsedNamed(classes, words, a); }
    }
  }

  lemma ParsedNamed(classes: Classes, words: seq<seq<string>>, a: string)
    ensures var st := FeedAll(NOTHING, words); Has(HostsOf(classes, st, st.aliases), Alias, a) <==> Named(words, a)
  {
    var st := FeedAll(NOTHING, words);
    var r := HostsOf(classes, st, st.aliases);
    assert words[..|words|] == words;
    AliasesAt(words, |words|, a);
    LiteralAlias(a);
    hide FeedAll, HostOf, IsAlias, Literal, Keyword;
    forall i | 0 <= i < |r| ensures r[i].alias == st.aliases[i] { HostDescribed(classes, words, st.aliases[i]); }
    HasWitness(r, Alias, a);
    if a in st.aliases {
      var i :| 0 <= i < |st.aliases| && st.aliases[i] == a;
      HasMember(r, Alias, r[i]);
    }
    if Has(r, Alias, a) {
      var i := IndexOf(r, Alias, a);
      assert r[i].alias == st.aliases[i];
    }
  }

  /** A line under a Host line that excludes a name gives that name nothing. */
  lemma ExcludedLine(classes: Classes, words: seq<seq<string>>, k: nat, a: string, key: string)
    requires k < |words| && AliasWord(a) && Section(words, k).Some?
    requires Section(words, k).value < |words| && |words[Section(words, k).value]| >= 1 && ("!" + a) in words[Section(words, k).value][1..]
    ensures !InForce(classes, words, k, a, key)
  {
    NegatedExcludes(classes, words[Section(words, k).value][1..], a);
    hide About, Section, AliasWord;
  }

  // ---------------------------------------------------------------- characters of a line

  predicate IsSeparator(c: char) { c == ' ' || c == '\t' || c == '=' }

  lemma ScanPair(key: string, value: string, c: char)
    requires Plain(key) && Plain(value) && IsSeparator(c)
    ensures ScanAll(START, key + ([c] + value)) == Scan([key], value, None, false)
  {
    PlainNonEmpty(key);
    hide ScanAll, Plain;
    ScanFirst(key);
    ScanConcat(START, key, [c] + value);
    ScanConcat(Scan([], key, None, false), [c], value);
    ScanOne(Scan([], key, None, false), c);
    ScanPlain2([key], value);
    assert [] + [key] == [key];
  }

  lemma ScanPlain2(out: seq<string>, value: string)
    requires Plain(value)
    ensures ScanAll(Scan(out, "", None, false), value) == Scan(out, value, None, false)
  {
    ScanPlain(out, "", value);
    assert "" + value == value;
  }

  /** Blanks, tabs and equal signs separate alike, and a comment ends the line. */
  lemma PairSeparated(key: string, value: string, c: char, comment: string)
    requires Plain(key) && Plain(value) && IsSeparator(c)
    ensures Words(key + ([c] + value)) == Some([key, value])
    ensures Words(key + ([c] + value) + (" #" + comment)) == Some([key, value])
  {
    PlainNonEmpty(value);
    hide ScanAll, Plain;
    ScanPair(key, value, c);
    ScanConcat(START, key + ([c] + value), " #" + comment);
    CommentEnds(Scan([key], value, None, false), comment);
    assert [key] + [value] == [key, value];
  }

  lemma CommentEnds(s: Scan, comment: string)
    requires !s.ended && s.quote.None?
    ensures ScanAll(s, " #" + comment) == Scan(Flush(s), "", None, true)
  {
    assert " #" + comment == " " + ("#" + comment);
    ScanConcat(s, " ", "#" + comment);
    ScanOne(s, ' ');
    var t := Step(s, ' ');
    ScanConcat(t, "#", comment);
    ScanOne(t, '#');
    EndedAll(Step(t, '#'), comment);
  }

  /** Outside quotes a number sign ends the line, in the middle of a word too. */
  lemma CommentCut(line: string, rest: string)
    requires Words(line).Some?
    ensures Words(line + ("#" + rest)) == Words(line)
  {
    var s := ScanAll(START, line);
    ScanConcat(START, line, "#" + rest);
    ScanConcat(s, "#", rest);
    ScanOne(s, '#');
    EndedAll(Step(s, '#'), rest);
    hide ScanAll;
  }

  /** Either kind of quotes protects everything but itself, in the middle of a word too. */
  lemma QuotedPart(out: seq<string>, word: string, mark: char, body: string)
    requires (mark == '"' || mark == '\'') && mark !in body
    ensures ScanAll(Scan(out, word, None, false), [mark] + (body + [mark])) == Scan(out, word + body, None, false)
  {
    var s := Scan(out, word, None, false);
    ScanConcat(s, [mark], body + [mark]);
    ScanOne(s, mark);
    ScanConcat(Scan(out, word, Some(mark), false), body, [mark]);
    ScanQuoted(out, word, mark, body);
    ScanOne(Scan(out, word + body, Some(mark), false), mark);
  }

  /** A carriage return at the end of a line and a byte order mark at the start of the text mean nothing. */
  lemma LineEnds(line: string, first: bool)
    requires line == "" || (line[|line| - 1] != '\r' && line[0] as int != 0xFEFF)
    ensures Clean(line + "\r", first) == line == Clean(line, first)
    ensures Clean([0xFEFF as char] + line, true) == line
    ensures Clean([0xFEFF as char] + line, false) == [0xFEFF as char] + line
  {
    assert (line + "\r")[..|line|] == line;
    var marked := [0xFEFF as char] + line;
    assert marked[1..] == line;
    assert line != "" ==> marked[|marked| - 1] == line[|line| - 1];
  }

  /** A line break at the end of the text adds no line. */
  lemma FinalBreak(text: string)
    requires text != "" && text[|text| - 1] != '\n'
    ensures RawLines(text + "\n") == RawLines(text) == Split(text, '\n')
  {
    hide Split;
    SplitEnd(text);
    LastPiece(text);
    var pieces := Split(text, '\n');
    assert (pieces + [""])[..|pieces + [""]| - 1] == pieces;
  }

  lemma {:induction false} SplitEnd(text: string)
    ensures Split(text + "\n", '\n') == Split(text, '\n') + [""]
  {
    if text == "" {
      assert text + "\n" == "\n" && "\n"[1..] == "";
    } else {
      assert (text + "\n")[1..] == text[1..] + "\n";
      SplitEnd(text[1..]);
    }
  }

  lemma {:induction false} LastPiece(text: string)
    requires text != "" && text[|text| - 1] != '\n'
    ensures var pieces := Split(text, '\n'); pieces[|pieces| - 1] != ""
  {
    if |text| > 1 {
      LastPiece(text[1..]);
    } else {
      assert text[1..] == "";
    }
  }
}
