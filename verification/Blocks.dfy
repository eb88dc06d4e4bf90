/**
 Reading a configuration that consists of one block per alias, each with its own literal Host line:
 every alias gets exactly the values of its own block.
 */
module Blocks {
  import opened Wrappers
  import opened Text
  import opened Tokens
  import opened Parser
  import opened MacExport

  /** Aliases made of lower-case letters, digits and hyphens stand for themselves everywhere. */
  predicate AliasChar(c: char) { 'a' <= c <= 'z' || '0' <= c <= '9' || c == '-' }

  predicate AliasWord(a: string) { a != "" && forall i :: 0 <= i < |a| ==> AliasChar(a[i]) }

  lemma AliasPlain(a: string)
    requires AliasWord(a)
    ensures Plain(a) && '\n' !in a && '\r' !in a && ',' !in a
  {
  }

  lemma AliasLiteral(a: string)
    requires AliasWord(a)
    ensures IsAlias(a) && !Negated(a) && Avoids(a, "*?") && Avoids(a, "[\\") && GoodHop(a)
  {
    forall i | 0 <= i < |a| ensures a[i] !in "*?![]" && a[i] !in "*?" && a[i] !in "[\\" && a[i] !in "@: /\\" {
      assert AliasChar(a[i]);
    }
  }

  lemma AliasLower(a: string)
    requires AliasWord(a)
    ensures Lower(a) == a
  {
    forall i | 0 <= i < |a| ensures LowerChar(a[i]) == a[i] {
      assert AliasChar(a[i]);
    }
  }

  lemma AliasTrim(a: string)
    requires AliasWord(a)
    ensures Trim(a) == a
  {
    assert AliasChar(a[0]) && AliasChar(a[|a| - 1]);
  }

  /** A literal Host line selects its own alias only. */
  lemma MatchLiteral(classes: Classes, a: string, b: string)
    requires AliasWord(a) && AliasWord(b)
    ensures Matching(classes, [a], b) <==> a == b
  {
    AliasLiteral(a);
    AliasLower(a);
    AliasLower(b);
    GlobLiteral(a, b);
    hide Glob, Lower, AliasWord, Avoids;
    assert a in [a];
    assert Selects(classes, a, b) <==> a == b;
  }

  // ---------------------------------------------------------------- lines

  predicate GoodLine(line: string) {
    '\n' !in line && (line != "" ==> line[|line| - 1] != '\r') && ByteLen(line) < MAX_LINE
  }

  /** The lines are read as these words. */
  ghost predicate ReadAs(lines: seq<string>, words: seq<seq<string>>) {
    |lines| == |words| && forall i :: 0 <= i < |lines| ==> GoodLine(lines[i]) && Words(lines[i]) == Some(words[i])
  }

  lemma ReadAsConcat(a: seq<string>, b: seq<string>, u: seq<seq<string>>, v: seq<seq<string>>)
    requires ReadAs(a, u) && ReadAs(b, v)
    ensures ReadAs(a + b, u + v)
  {
    hide GoodLine, Words;
  }

  function FeedAll(st: Reading, words: seq<seq<string>>): Reading {
    if words == [] then st else Parser.Feed(FeedAll(st, words[..|words| - 1]), words[|words| - 1])
  }

  lemma {:induction false} FeedConcat(st: Reading, a: seq<seq<string>>, b: seq<seq<string>>)
    ensures FeedAll(st, a + b) == FeedAll(FeedAll(st, a), b)
  {
    hide Parser.Feed;
    if b == [] {
      assert a + b == a;
    } else {
      FeedConcat(st, a, b[..|b| - 1]);
      assert (a + b)[..|a + b| - 1] == a + b[..|b| - 1];
    }
  }

  lemma FeedOne(st: Reading, w: seq<string>)
    ensures FeedAll(st, [w]) == Parser.Feed(st, w)
  {
    hide Parser.Feed;
    assert [w][..0] == [];
  }

  /** Reading good lines is feeding their words. */
  lemma {:induction false} FeedGoodLines(lines: seq<string>, words: seq<seq<string>>)
    requires ReadAs(lines, words)
    requires lines != [] && lines[0] != "" ==> lines[0][0] == '#'
    ensures FeedLines(NOTHING, lines) == Some(FeedAll(NOTHING, words))
  {
    hide Parser.Feed, Words, ByteLen;
    if lines != [] {
      var n := |lines| - 1;
      assert forall i :: 0 <= i < n ==> lines[..n][i] == lines[i] && words[..n][i] == words[i];
      FeedGoodLines(lines[..n], words[..n]);
      assert Clean(lines[n], n == 0) == lines[n];
    }
  }

  lemma {:induction false} SplitUnlines(lines: seq<string>, rest: string)
    requires forall l <- lines :: '\n' !in l
    ensures Split(Unlines(lines) + rest, '\n') == lines + Split(rest, '\n')
  {
    if lines == [] {
      assert Unlines(lines) + rest == rest;
    } else {
      var n := |lines| - 1;
      var init := lines[..n];
      assert lines[n] in lines && forall l <- init :: l in lines;
      SplitUnlines(init, lines[n] + "\n" + rest);
      SplitCons(lines[n], '\n', rest);
      hide Split;
      assert Unlines(lines) + rest == Unlines(init) + (lines[n] + "\n" + rest);
      assert lines[n] + ['\n'] + rest == lines[n] + "\n" + rest;
      assert init + ([lines[n]] + Split(rest, '\n')) == lines + Split(rest, '\n');
    }
  }

  /** The text of good lines splits into them again. */
  lemma RawUnlines(lines: seq<string>)
    requires forall l <- lines :: GoodLine(l)
    ensures RawLines(Unlines(lines)) == lines
  {
    SplitUnlines(lines, "");
    assert Unlines(lines) + "" == Unlines(lines);
    assert Split("", '\n') == [""];
    hide Split, Unlines;
    assert (lines + [""])[..|lines + [""]| - 1] == lines;
  }

  // ---------------------------------------------------------------- directives

  /** A line with a keyword that is not `host` or `match` and at least one value. */
  predicate IsDirective(w: seq<string>) {
    |w| >= 2 && Lower(w[0]) != "host" && Lower(w[0]) != "match"
  }

  function DirectiveOf(patterns: seq<string>, w: seq<string>): Directive
    requires |w| >= 2
  {
    Directive(patterns, Lower(w[0]), w[1..])
  }

  predicate AllDirectives(words: seq<seq<string>>) { forall i :: 0 <= i < |words| ==> IsDirective(words[i]) }

  function DirectivesOf(patterns: seq<string>, words: seq<seq<string>>): (r: seq<Directive>)
    requires AllDirectives(words)
    ensures |r| == |words| && forall i :: 0 <= i < |words| ==> r[i] == DirectiveOf(patterns, words[i])
  {
    seq(|words|, i requires 0 <= i < |words| => DirectiveOf(patterns, words[i]))
  }

  lemma {:induction false} FeedDirectives(st: Reading, words: seq<seq<string>>)
    requires AllDirectives(words) && !st.inMatch
    ensures FeedAll(st, words) == st.(directives := st.directives + DirectivesOf(st.patterns, words))
  {
    hide Lower;
    if words == [] {
      assert st.directives + DirectivesOf(st.patterns, words) == st.directives;
    } else {
      var n := |words| - 1;
      FeedDirectives(st, words[..n]);
      assert DirectivesOf(st.patterns, words) == DirectivesOf(st.patterns, words[..n]) + [DirectiveOf(st.patterns, words[n])];
      assert st.directives + DirectivesOf(st.patterns, words[..n]) + [DirectiveOf(st.patterns, words[n])]
        == st.directives + DirectivesOf(st.patterns, words);
    }
  }

  // ---------------------------------------------------------------- blocks

  /** A Host line for one alias and the directives under it. */
  datatype Block = Block(alias: string, words: seq<seq<string>>)

  /** A comment, the Host line, the directives and a blank line. */
  function BlockWords(b: Block): seq<seq<string>> { [[], ["Host", b.alias]] + b.words + [[]] }

  function AllWords(blocks: seq<Block>): seq<seq<string>> {
    if blocks == [] then [[], [], []] else AllWords(blocks[..|blocks| - 1]) + BlockWords(blocks[|blocks| - 1])
  }

  predicate GoodBlock(b: Block) { AliasWord(b.alias) && AllDirectives(b.words) }

  predicate GoodBlocks(blocks: seq<Block>) {
    && (forall i :: 0 <= i < |blocks| ==> GoodBlock(blocks[i]))
    && (forall i, j :: 0 <= i < j < |blocks| ==> blocks[i].alias != blocks[j].alias)
  }

  function BlockDirectives(blocks: seq<Block>): seq<Directive>
    requires forall i :: 0 <= i < |blocks| ==> GoodBlock(blocks[i])
  {
    if blocks == [] then []
    else
      var b := blocks[|blocks| - 1];
      assert GoodBlock(b);
      BlockDirectives(blocks[..|blocks| - 1]) + DirectivesOf([b.alias], b.words)
  }

  function BlockAliases(blocks: seq<Block>): (r: seq<string>)
    ensures |r| == |blocks| && forall i :: 0 <= i < |blocks| ==> r[i] == blocks[i].alias
  {
    seq(|blocks|, i requires 0 <= i < |blocks| => blocks[i].alias)
  }

  lemma HostLower()
    ensures Lower("Host") == "host"
  {
    assert Lower("Host")[0] == 'h' && Lower("Host")[1] == 'o' && Lower("Host")[2] == 's' && Lower("Host")[3] == 't';
  }

  lemma FeedHost(st: Reading, alias: string)
    requires AliasWord(alias) && alias !in st.aliases
    ensures FeedAll(st, [[], ["Host", alias]]) == st.(patterns := [alias], inMatch := false, aliases := st.aliases + [alias])
  {
    HostLower();
    AliasLiteral(alias);
    hide Lower, AliasWord, IsAlias;
    assert [[], ["Host", alias]] == [[]] + [["Host", alias]];
    FeedConcat(st, [[]], [["Host", alias]]);
    FeedOne(st, []);
    FeedOne(st, ["Host", alias]);
    assert ["Host", alias][1..] == [alias];
    assert [alias][..0] == [];
    assert AddAliases(st.aliases, []) == st.aliases;
  }

  lemma FeedBlock(st: Reading, b: Block)
    requires GoodBlock(b) && b.alias !in st.aliases
    ensures FeedAll(st, BlockWords(b)) ==
      st.(patterns := [b.alias], inMatch := false, aliases := st.aliases + [b.alias],
          directives := st.directives + DirectivesOf([b.alias], b.words))
  {
    FeedHost(st, b.alias);
    hide AliasWord, FeedAll;
    var head := [[], ["Host", b.alias]];
    var t := st.(patterns := [b.alias], inMatch := false, aliases := st.aliases + [b.alias]);
    FeedConcat(st, head + b.words, [[]]);
    FeedConcat(st, head, b.words);
    FeedDirectives(t, b.words);
    FeedOne(t.(directives := st.directives + DirectivesOf([b.alias], b.words)), []);
  }

  /** Reading the blocks collects exactly their aliases and directives. */
  lemma {:induction false} FeedBlocks(blocks: seq<Block>) returns (patterns: seq<string>)
    requires GoodBlocks(blocks)
    ensures FeedAll(NOTHING, AllWords(blocks)) == Reading(patterns, false, false, BlockDirectives(blocks), BlockAliases(blocks))
  {
    hide GoodBlock, DirectivesOf;
    if blocks == [] {
      FeedHeader();
      patterns := ["*"];
    } else {
      var n := |blocks| - 1;
      var b := blocks[n];
      patterns := FeedBlocks(blocks[..n]);
      var st := Reading(patterns, false, false, BlockDirectives(blocks[..n]), BlockAliases(blocks[..n]));
      FeedConcat(NOTHING, AllWords(blocks[..n]), BlockWords(b));
      assert b.alias !in BlockAliases(blocks[..n]);
      FeedBlock(st, b);
      assert BlockAliases(blocks) == BlockAliases(blocks[..n]) + [b.alias];
      patterns := [b.alias];
    }
  }

  lemma FeedHeader()
    ensures FeedAll(NOTHING, [[], [], []]) == NOTHING
  {
    var one: seq<seq<string>> := [[]];
    assert one + one + one == [[], [], []];
    FeedConcat(NOTHING, one + one, one);
    FeedConcat(NOTHING, one, one);
    FeedOne(NOTHING, []);
  }

  // ---------------------------------------------------------------- values

  lemma {:induction false} ValueConcat(classes: Classes, a: seq<Directive>, b: seq<Directive>, alias: string, key: string)
    ensures !Given(classes, a, alias, key) ==> Value(classes, a + b, alias, key) == Value(classes, b, alias, key)
    ensures !Given(classes, b, alias, key) ==> Value(classes, a + b, alias, key) == Value(classes, a, alias, key)
  {
    hide Matching, Join;
    if a == [] {
      assert a + b == b;
      if !Given(classes, b, alias, key) { NoValue(classes, b, alias, key); }
    } else {
      assert (a + b)[1..] == a[1..] + b;
      ValueConcat(classes, a[1..], b, alias, key);
      GivenFirst(classes, a, alias, key);
    }
  }

  lemma GivenFirst(classes: Classes, a: seq<Directive>, alias: string, key: string)
    requires a != []
    ensures Given(classes, a, alias, key) <==> Applies(classes, a[0], alias, key) || Given(classes, a[1..], alias, key)
  {
    hide Applies;
    if j :| 0 < j < |a| && Applies(classes, a[j], alias, key) { assert a[1..][j - 1] == a[j]; }
    if j :| 0 <= j < |a| - 1 && Applies(classes, a[1..][j], alias, key) { assert a[j + 1] == a[1..][j]; }
  }

  /** A block of another alias gives nothing. */
  lemma OtherBlock(classes: Classes, b: Block, alias: string, key: string)
    requires GoodBlock(b) && AliasWord(alias) && alias != b.alias
    ensures !Given(classes, DirectivesOf([b.alias], b.words), alias, key)
  {
    MatchLiteral(classes, b.alias, alias);
    hide Matching, AliasWord, IsDirective;
  }

  lemma GivenConcat(classes: Classes, a: seq<Directive>, b: seq<Directive>, alias: string, key: string)
    requires !Given(classes, a, alias, key) && !Given(classes, b, alias, key)
    ensures !Given(classes, a + b, alias, key)
  {
    hide Applies;
  }

  lemma {:induction false} OtherBlocks(classes: Classes, blocks: seq<Block>, alias: string, key: string)
    requires forall i :: 0 <= i < |blocks| ==> GoodBlock(blocks[i]) && blocks[i].alias != alias
    requires AliasWord(alias)
    ensures !Given(classes, BlockDirectives(blocks), alias, key)
  {
    hide GoodBlock, AliasWord, Applies, DirectivesOf;
    if blocks != [] {
      var n := |blocks| - 1;
      var b := blocks[n];
      OtherBlocks(classes, blocks[..n], alias, key);
      OtherBlock(classes, b, alias, key);
      GivenConcat(classes, BlockDirectives(blocks[..n]), OneBlock(b), alias, key);
    }
  }

  function OneBlock(b: Block): seq<Directive>
    requires GoodBlock(b)
  {
    DirectivesOf([b.alias], b.words)
  }

  /** Every alias gets the values of its own block. */
  lemma {:induction false} OwnValues(classes: Classes, blocks: seq<Block>, i: nat, key: string)
    requires GoodBlocks(blocks) && i < |blocks|
    ensures GoodBlock(blocks[i])
    ensures Value(classes, BlockDirectives(blocks), blocks[i].alias, key) == Value(classes, OneBlock(blocks[i]), blocks[i].alias, key)
  {
    hide Applies, DirectivesOf, Given, Value, IsDirective, AliasWord;
    var n := |blocks| - 1;
    var a := blocks[i].alias;
    GoodAlias(blocks[i]);
    if i == n {
      OtherBlocks(classes, blocks[..n], a, key);
      ValueConcat(classes, BlockDirectives(blocks[..n]), OneBlock(blocks[n]), a, key);
    } else {
      OwnValues(classes, blocks[..n], i, key);
      OtherBlock(classes, blocks[n], a, key);
      ValueConcat(classes, BlockDirectives(blocks[..n]), OneBlock(blocks[n]), a, key);
    }
  }

  lemma GoodAlias(b: Block)
    requires GoodBlock(b)
    ensures AliasWord(b.alias)
  {
  }
}
