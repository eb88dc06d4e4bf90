/**
 Which configurations survive being exported and imported: exactly those whose user names are all
 plain. One other name either makes the whole text unreadable or comes back as a different name.
 */
module UserNames {
  import opened Wrappers
  import opened Text
  import opened Records
  import opened M = Model
  import opened Store
  import opened Importer
  import opened ImportSound
  import opened ImportLinks
  import opened ImportRoutes
  import opened Tokens
  import opened Parser
  import opened MacExport
  import opened Blocks
  import opened ExportLines
  import opened ExportBlocks
  import opened ExportText
  import opened ExportParse
  import opened RoundTrip

  // ---------------------------------------------------------------- every line is a line

  predicate AllGood(lines: seq<string>) { forall l <- lines :: GoodLine(l) }

  lemma GoodConcat(a: seq<string>, b: seq<string>)
    requires AllGood(a) && AllGood(b)
    ensures AllGood(a + b)
  {
    hide GoodLine;
  }

  /** The block of a host, whether its user name can be read or not. */
  lemma HostBlockGood(s: State, tag: string, printable: Printable, h: M.Host, alias: string)
    requires Exportable(s, tag, printable) && h in s.hosts && AliasWord(alias) && |alias| <= 100
    ensures HostBlock(s, tag, printable, h, alias).Some?
    ensures var block := HostBlock(s, tag, printable, h, alias).value;
      AllGood(block) && UserLine(printable, h.username) in block
  {
    hide *;
    HostReady(s, tag, printable, h);
    ExportIds(s, tag, printable);
    HopShapes(s, tag, printable, h);
    KeyAt(s, tag, h);
    FileShape(tag, KeyIndex(s, h));
    FileOfIs(s, tag, h);
    HostLinesGood(s, tag, printable, h, alias, HopsOf(s, tag, h));
    HostBlockIs(s, tag, printable, h, alias);
    IsAllGood(HostLines(s, tag, printable, h, alias, HopsOf(s, tag, h)));
  }

  lemma IsAllGood(lines: seq<string>)
    ensures AllGood(lines) <==> forall l <- lines :: GoodLine(l)
  {
    hide GoodLine;
  }

  lemma BlankGood()
    ensures AllGood([""])
  {
    BlankLine();
    hide GoodLine;
  }

  lemma {:induction false} HostBlocksGood(s: State, tag: string, printable: Printable, n: nat)
    requires Exportable(s, tag, printable) && n <= |s.hosts|
    ensures HostBlocks(s, tag, printable, n).Some?
    ensures var lines := HostBlocks(s, tag, printable, n).value;
      AllGood(lines) && forall i :: 0 <= i < n ==> UserLine(printable, s.hosts[i].username) in lines
  {
    hide *;
    if n == 0 {
      IsAllGood([]);
      NoHostBlocks(s, tag, printable);
    } else {
      HostBlocksGood(s, tag, printable, n - 1);
      ExportIds(s, tag, printable);
      ExportSize(s, tag, printable);
      AliasAt(s, tag, n - 1);
      AliasShape(tag, n - 1);
      var h, alias := s.hosts[n - 1], HostAlias(tag, n - 1);
      HostBlockGood(s, tag, printable, h, alias);
      var before, block := HostBlocks(s, tag, printable, n - 1).value, HostBlock(s, tag, printable, h, alias).value;
      BlankGood();
      GoodConcat(before, block);
      GoodConcat(before + block, [""]);
      NextHostBlock(s, tag, printable, n);
      assert forall i :: 0 <= i < n - 1 ==> UserLine(printable, s.hosts[i].username) in before;
    }
  }

  lemma TunnelGood(s: State, tag: string, printable: Printable, i: nat)
    requires Exportable(s, tag, printable) && i < |s.tunnels|
    ensures TunnelBlock(s, tag, printable, i).Some? && AllGood(TunnelBlock(s, tag, printable, i).value)
  {
    ExportIds(s, tag, printable);
    ExportSize(s, tag, printable);
    TunnelReady(s, i);
    AliasShape(tag, i);
    var h, t := TunnelHost(s, i), s.tunnels[i];
    hide Exportable, HostBlock, TunnelAlias, GoodLine, AllGood, TunnelLines, Valid, Unique, M.ValidTunnel, AliasWord, ForwardWords, UserLine;
    HostBlockGood(s, tag, printable, h, TunnelAlias(tag, i));
    ForwardLines(t);
    ReadAsGood(TunnelLines(t), ForwardWords(ForwardFrom(t), ForwardTo(t)) + [[]]);
    IsAllGood(TunnelLines(t));
    GoodConcat(HostBlock(s, tag, printable, h, TunnelAlias(tag, i)).value, TunnelLines(t));
  }

  lemma {:induction false} TunnelBlocksGood(s: State, tag: string, printable: Printable, n: nat)
    requires Exportable(s, tag, printable) && n <= |s.tunnels|
    ensures TunnelBlocks(s, tag, printable, n).Some? && AllGood(TunnelBlocks(s, tag, printable, n).value)
  {
    hide Exportable, TunnelBlock, GoodLine, AllGood;
    if n == 0 {
      IsAllGood([]);
    } else {
      TunnelBlocksGood(s, tag, printable, n - 1);
      TunnelGood(s, tag, printable, n - 1);
      GoodConcat(TunnelBlocks(s, tag, printable, n - 1).value, TunnelBlock(s, tag, printable, n - 1).value);
    }
  }

  /** The exported lines, and the user names among them. */
  lemma ConfigGood(s: State, tag: string, printable: Printable)
    requires Exportable(s, tag, printable)
    ensures ConfigLines(s, tag, printable).Some?
    ensures var lines := ConfigLines(s, tag, printable).value;
      AllGood(lines) && forall h <- s.hosts :: UserLine(printable, h.username) in lines
  {
    hide *;
    HostBlocksGood(s, tag, printable, |s.hosts|);
    TunnelBlocksGood(s, tag, printable, |s.tunnels|);
    HeaderRead();
    ExportIds(s, tag, printable);
    ValidPlaced(s);
    ConfigIs(s, tag, printable);
    var hosts, tunnels := HostBlocks(s, tag, printable, |s.hosts|).value, TunnelBlocks(s, tag, printable, |s.tunnels|).value;
    ReadAsGood(HEADER, [[], [], []]);
    IsAllGood(HEADER);
    GoodConcat(HEADER, hosts);
    GoodConcat(HEADER + hosts, tunnels);
    forall h | h in s.hosts ensures UserLine(printable, h.username) in HEADER + hosts + tunnels {
      var i :| 0 <= i < |s.hosts| && s.hosts[i] == h;
      assert UserLine(printable, s.hosts[i].username) in hosts;
    }
  }

  // ---------------------------------------------------------------- a readable text has readable names

  /** A text is read only if every line is. */
  lemma {:induction false} AllRead(st: Reading, raws: seq<string>, k: nat)
    requires FeedLines(st, raws).Some? && k < |raws|
    ensures Words(Clean(raws[k], k == 0)).Some?
  {
    hide Words, Clean, ByteLen;
    var n := |raws| - 1;
    if k < n {
      AllRead(st, raws[..n], k);
    }
  }

  lemma UserLineClean(printable: Printable, u: string, first: bool)
    requires GoodLine(UserLine(printable, u))
    ensures Clean(UserLine(printable, u), first) == UserLine(printable, u)
  {
    var line := UserLine(printable, u);
    hide Quote, Doubled, ByteLen;
    assert line[0] == ' ';
  }

  lemma ParseReads(classes: Classes, lines: seq<string>, line: string, printable: Printable, u: string)
    requires AllGood(lines) && line in lines && line == UserLine(printable, u)
    requires ByteLen(Unlines(lines)) <= MAX_CONFIG && Parse(classes, Unlines(lines)).Ok?
    ensures Legible(printable, u)
  {
    LimitedWhole(Unlines(lines), MAX_CONFIG);
    IsAllGood(lines);
    hide AllGood, GoodLine, UserLine, Words, FeedLines, HostsOf, ByteLen, Unlines, Limited, RawLines;
    RawUnlines(lines);
    var k :| 0 <= k < |lines| && lines[k] == line;
    AllRead(NOTHING, lines, k);
    UserLineClean(printable, u, k == 0);
  }

  /** If the exported text can be read, so can every user name. */
  lemma ReadableNames(s: State, tag: string, printable: Printable, classes: Classes)
    requires Exportable(s, tag, printable) && Exported(s, tag, printable).Ok?
    requires ByteLen(Exported(s, tag, printable).value) <= MAX_CONFIG
    requires Parse(classes, Exported(s, tag, printable).value).Ok?
    ensures AllLegible(s, printable)
  {
    ConfigGood(s, tag, printable);
    hide Exportable, ConfigLines, AllGood, UserLine, Parse, ByteLen, Unlines, Valid, Legible;
    forall h | h in s.hosts ensures Legible(printable, h.username) {
      ParseReads(classes, ConfigLines(s, tag, printable).value, UserLine(printable, h.username), printable, h.username);
    }
  }

  // ---------------------------------------------------------------- the round trip, exactly

  /** The exported text parses, importing its hosts into an empty store is committed, and they are the
      exported ones. */
  ghost predicate Survives(s: State, tag: string, printable: Printable, classes: Classes, files: Files, newIds: seq<string>) {
    && Exported(s, tag, printable).Ok?
    && var cands := Parse(classes, Exported(s, tag, printable).value);
    && cands.Ok? && 2 * |cands.value| <= |newIds|
    && var r := ApplySelected(EMPTY, cands.value, HostAliases(s, tag), files, newIds);
    && r.Ok? && Valid(r.value) && Rebuilt(s, tag, files, r.value)
  }

  lemma ReadAliased(s: State, tag: string, printable: Printable, cands: seq<Candidate>)
    requires TunnelsPlaced(s) && |cands| == |s.hosts| + |s.tunnels|
    requires forall i :: 0 <= i < |cands| ==> cands[i] == ReadAt(s, tag, printable, i)
    ensures Aliased(s, tag, cands)
    ensures forall i :: 0 <= i < |s.hosts| ==> cands[i].username == ReadUser(printable, s.hosts[i].username)
  {
    hide TunnelsPlaced, AliasNo, FileOf, HopsOf, ReadUser;
  }

  /** An imported host has the user name of its candidate. */
  lemma ImportedUser(s: State, tag: string, cands: seq<Candidate>, files: Files, newIds: seq<string>, i: nat)
    requires Aliased(s, tag, cands) && 2 * |cands| <= |newIds| && Fresh(EMPTY, newIds) && i < |s.hosts|
    requires ApplySelected(EMPTY, cands, HostAliases(s, tag), files, newIds).Ok?
    ensures var r := ApplySelected(EMPTY, cands, HostAliases(s, tag), files, newIds).value;
      |r.hosts| == |s.hosts| && r.hosts[i].username == cands[i].username
  {
    hide *;
    EmptyKnown();
    ImportAccepted(EMPTY, cands, HostAliases(s, tag), files, newIds);
    PicksAliased(s, tag, cands);
    EmptyBase();
    var t, r := AddAll(EMPTY, cands, HostAliases(s, tag), files, newIds).value, ApplySelected(EMPTY, cands, HostAliases(s, tag), files, newIds).value;
    AliasedSize(s, tag, cands);
    MadeUser(t, cands[..|s.hosts|], files, i);
    LinkedAt(t.hosts, Demands(cands, HostAliases(s, tag)), r.hosts, i);
  }

  lemma AliasedSize(s: State, tag: string, cands: seq<Candidate>)
    requires Aliased(s, tag, cands)
    ensures |cands| == |s.hosts| + |s.tunnels|
  {
    hide AliasNo;
  }

  lemma MadeUser(t: State, picks: seq<Candidate>, files: Files, i: nat)
    requires Extended(EMPTY, t, picks, files) && i < |picks|
    ensures |t.hosts| == |picks| && t.hosts[i].username == picks[i].username
  {
    hide WellFormed, OncePerPath, Unique, Has, Find;
    assert MadeFrom(t.hosts[|EMPTY.hosts| + i], picks[i], t.keys, files);
  }

  lemma RebuiltUser(s: State, tag: string, files: Files, r: State, i: nat)
    requires Rebuilt(s, tag, files, r) && i < |s.hosts|
    ensures |r.hosts| == |s.hosts| && r.hosts[i].username == s.hosts[i].username
  {
    hide HostAlias, FileOf, Has, Find, SameJumps, SameSharing;
    assert SameHost(s, tag, files, r, i);
  }

  lemma SurvivorPlain(s: State, tag: string, printable: Printable, classes: Classes, files: Files, newIds: seq<string>)
    requires Exportable(s, tag, printable) && Fresh(EMPTY, newIds) && Survives(s, tag, printable, classes, files, newIds)
    requires ByteLen(Exported(s, tag, printable).value) <= MAX_CONFIG
    ensures PlainUsers(s, printable)
  {
    ExportIds(s, tag, printable);
    var cands := Parse(classes, Exported(s, tag, printable).value).value;
    var r := ApplySelected(EMPTY, cands, HostAliases(s, tag), files, newIds).value;
    assert 2 * |cands| <= |newIds| && Rebuilt(s, tag, files, r);
    hide Exportable, Exported, Parse, ApplySelected, Fresh, Valid, Unique, Rebuilt, HostAliases, ByteLen, Survives, TunnelsPlaced, ReadAt, PlainUser, ReadUser, Tag, PrintsAscii;
    ReadableNames(s, tag, printable, classes);
    ExportParses(s, tag, printable, classes);
    ReadAliased(s, tag, printable, cands);
    forall h | h in s.hosts ensures PlainUser(printable, h.username) {
      var i: nat :| i < |s.hosts| && s.hosts[i] == h;
      ImportedUser(s, tag, cands, files, newIds, i);
      RebuiltUser(s, tag, files, r, i);
      SameUserPlain(s, printable, h);
    }
  }

  lemma SameUserPlain(s: State, printable: Printable, h: M.Host)
    requires Valid(s) && h in s.hosts && AllLegible(s, printable) && ReadUser(printable, h.username) == h.username
    ensures PlainUser(printable, h.username)
  {
    hide Valid, PlainUser, ReadUser, Legible;
    StoredUser(s, h);
    UserRead(printable, h.username);
  }

  /** The round trip, exactly: a checked configuration with unique, non-empty identifiers survives
      being exported and imported if and only if every user name is free of quotes, percent signs and
      unprintable characters. */
  lemma RoundTripExact(s: State, tag: string, printable: Printable, classes: Classes, files: Files, newIds: seq<string>)
    requires Sendable(s, tag, printable) && KeysPlaced(s, tag, files)
    requires Exported(s, tag, printable).Ok? ==> ByteLen(Exported(s, tag, printable).value) <= MAX_CONFIG
    requires 2 * (|s.hosts| + |s.tunnels|) <= |newIds| && Fresh(EMPTY, newIds)
    ensures Survives(s, tag, printable, classes, files, newIds) <==> PlainUsers(s, printable)
  {
    hide Sendable, KeysPlaced, Exported, Parse, ApplySelected, Valid, Rebuilt, HostAliases, ByteLen, PlainUsers, Fresh;
    SendableExportable(s, tag, printable);
    if PlainUsers(s, printable) {
      ExportImport(s, tag, printable, classes, files, newIds);
    }
    if Survives(s, tag, printable, classes, files, newIds) {
      hide Survives;
      SurvivorPlain(s, tag, printable, classes, files, newIds);
    }
  }
}
