/**
 Parsing an export: one host per exported host, in order, with the exported values and the route as
 its ProxyJump list, followed by one per tunnel.
 */
module ExportParse {
  import opened Wrappers
  import opened Text
  import opened Records
  import opened M = Model
  import opened Store
  import opened Tokens
  import opened Importer
  import opened Parser
  import opened MacExport
  import opened ExportLines
  import opened Blocks
  import opened ExportBlocks
  import opened ExportText

  // ---------------------------------------------------------------- names

  /** Twelve hexadecimal digits. */
  predicate Tag(tag: string) {
    |tag| == 12 && forall i :: 0 <= i < 12 ==> IsDigit(tag[i]) || 'a' <= tag[i] <= 'f'
  }

  /** No list is longer: a list's length is a signed 64-bit number. */
  const MANY := 0x8000_0000_0000_0000

  lemma TensSteps()
    ensures Tens(19) == 10000000000000000000
  {
    assert Tens(4) == 10000;
    assert Tens(8) == 100000000;
    assert Tens(12) == 1000000000000;
    assert Tens(16) == 10000000000000000;
  }

  lemma PaddedShort(n: nat)
    requires n <= MANY
    ensures |Padded(n)| <= 19 && AliasWord(Padded(n))
  {
    TensSteps();
    DigitsShort(n, 10000000000000000000, 19);
    DigitsPlain(Padded(n));
  }

  lemma AliasConcat(a: string, b: string)
    requires AliasWord(a) && AliasWord(b)
    ensures AliasWord(a + b)
  {
  }

  lemma TagWord(tag: string)
    requires Tag(tag)
    ensures AliasWord(tag)
  {
  }

  lemma Marks()
    ensures AliasWord("sshdesk-") && AliasWord("-host-") && AliasWord("-tunnel-")
  {
  }

  /** Generated aliases are plain, short words. */
  lemma AliasShape(tag: string, i: nat)
    requires Tag(tag) && i < MANY
    ensures AliasWord(HostAlias(tag, i)) && 4 < |HostAlias(tag, i)| <= 100
    ensures AliasWord(TunnelAlias(tag, i)) && 4 < |TunnelAlias(tag, i)| <= 100
  {
    TagWord(tag);
    Marks();
    PaddedShort(i + 1);
    hide AliasWord, Padded;
    AliasConcat("sshdesk-", tag);
    AliasConcat("sshdesk-" + tag, "-host-");
    AliasConcat("sshdesk-" + tag + "-host-", Padded(i + 1));
    AliasConcat("sshdesk-" + tag, "-tunnel-");
    AliasConcat("sshdesk-" + tag + "-tunnel-", Padded(i + 1));
  }

  lemma SuffixInjective(head: string, a: string, b: string)
    requires head + a == head + b
    ensures a == b
  {
    assert (head + a)[|head|..] == a && (head + b)[|head|..] == b;
  }

  lemma HostAliasInjective(tag: string, i: nat, j: nat)
    requires HostAlias(tag, i) == HostAlias(tag, j)
    ensures i == j
  {
    hide Padded;
    SuffixInjective("sshdesk-" + tag + "-host-", Padded(i + 1), Padded(j + 1));
    PaddedInjective(i + 1, j + 1);
  }

  lemma TunnelAliasInjective(tag: string, i: nat, j: nat)
    requires TunnelAlias(tag, i) == TunnelAlias(tag, j)
    ensures i == j
  {
    hide Padded;
    SuffixInjective("sshdesk-" + tag + "-tunnel-", Padded(i + 1), Padded(j + 1));
    PaddedInjective(i + 1, j + 1);
  }

  lemma AliasKindsDiffer(tag: string, i: nat, j: nat)
    ensures HostAlias(tag, i) != TunnelAlias(tag, j)
  {
    hide Padded;
    var a, b := HostAlias(tag, i), TunnelAlias(tag, j);
    assert a[8 + |tag| + 1] == 'h' && b[8 + |tag| + 1] == 't';
  }

  lemma {:induction false} TableAt<T>(xs: seq<T>, id: T -> string, name: nat -> string, i: nat)
    requires Unique(xs, id) && i < |xs|
    ensures TableName(xs, id, name, id(xs[i])) == name(i)
  {
    var n := |xs| - 1;
    if i < n {
      assert id(xs[i]) != id(xs[n]);
      assert Unique(xs[..n], id) && xs[..n][i] == xs[i];
      TableAt(xs[..n], id, name, i);
    }
  }

  lemma AliasAt(s: State, tag: string, i: nat)
    requires Unique(s.hosts, HostId) && i < |s.hosts|
    ensures AliasOf(s, tag, s.hosts[i].id) == HostAlias(tag, i)
  {
    TableAt(s.hosts, HostId, (k: nat) => HostAlias(tag, k), i);
  }

  /** Position of a host's key. */
  function KeyIndex(s: State, h: M.Host): nat { IndexOf(s.keys, KeyId, h.keyId) }

  /** The file a host's key is exported as. */
  function FileOf(s: State, tag: string, h: M.Host): string { KeyFile(tag, KeyName(KeyIndex(s, h))) }

  lemma KeyAt(s: State, tag: string, h: M.Host)
    requires Unique(s.keys, KeyId) && Has(s.keys, KeyId, h.keyId)
    ensures KeyFile(tag, KeyNameOf(s, h.keyId)) == FileOf(s, tag, h)
  {
    TableAt(s.keys, KeyId, KeyName, KeyIndex(s, h));
  }

  lemma FileShape(tag: string, i: nat)
    requires Tag(tag) && i < MANY
    ensures var f := KeyFile(tag, KeyName(i)); FileText(f) && Avoids(f, "%") && Avoids(f, "$")
  {
    hide *;
    PaddedShort(i + 1);
    FileParts(tag, Padded(i + 1));
    FileCharsConcat("~/.ssh/sshdesk/", tag);
    FileCharsConcat("~/.ssh/sshdesk/" + tag, "/");
    FileCharsConcat("key-", Padded(i + 1));
    FileCharsConcat("~/.ssh/sshdesk/" + tag + "/", "key-" + Padded(i + 1));
    FileIs(tag, i);
    FileTextOf(KeyFile(tag, KeyName(i)));
  }

  lemma FileIs(tag: string, i: nat)
    requires |tag| == 12 && |Padded(i + 1)| <= 19
    ensures KeyFile(tag, KeyName(i)) == "~/.ssh/sshdesk/" + tag + "/" + ("key-" + Padded(i + 1))
    ensures 0 < |KeyFile(tag, KeyName(i))| < 1000
  {
    hide Padded;
  }

  lemma FileParts(tag: string, digits: string)
    requires Tag(tag) && AliasWord(digits)
    ensures FileChars("~/.ssh/sshdesk/") && FileChars(tag) && FileChars("/") && FileChars("key-") && FileChars(digits)
    ensures |tag| == 12
  {
    assert forall i :: 0 <= i < |digits| ==> AliasChar(digits[i]);
  }

  lemma FileTextOf(f: string)
    requires FileChars(f) && 0 < |f| < 1000
    ensures FileText(f) && Avoids(f, "%") && Avoids(f, "$")
  {
  }

  /** Characters of key file names. */
  predicate FileChars(s: string) {
    forall i :: 0 <= i < |s| ==> 'a' <= s[i] <= 'z' || IsDigit(s[i]) || s[i] in "~/.-"
  }

  lemma FileCharsConcat(a: string, b: string)
    requires FileChars(a) && FileChars(b)
    ensures FileChars(a + b)
  {
  }

  // ---------------------------------------------------------------- the blocks

  /** Every user name can be read. */
  predicate AllLegible(s: State, printable: Printable) { forall h <- s.hosts :: Legible(printable, h.username) }

  /** What an export needs: a checked state with unique, non-empty identifiers. */
  ghost predicate Exportable(s: State, tag: string, printable: Printable) {
    && Valid(s) && WellFormed(s) && Tag(tag) && PrintsAscii(printable)
    && |s.hosts| < MANY && |s.tunnels| < MANY && |s.keys| < MANY
  }

  /** The route of a host. */
  function StoredRoute(s: State, h: M.Host): seq<M.Host> { M.Route(s.hosts, h.id).UnwrapOr([]) }

  /** The aliases a host is reached through. */
  function HopsOf(s: State, tag: string, h: M.Host): seq<string> {
    var route := StoredRoute(s, h);
    if route == [] then [] else HopAliases(s, tag, route[..|route| - 1])
  }

  function HostBlockOf(s: State, tag: string, printable: Printable, h: M.Host, alias: string): Block {
    Block(alias, HostWords(h.address, Itoa(h.port), UserWords(printable, h.username), FileOf(s, tag, h), HopsOf(s, tag, h)))
  }

  function ForwardFrom(t: M.Tunnel): string { "127.0.0.1:" + Itoa(t.localPort) }
  function ForwardTo(t: M.Tunnel): string { HostPort(t.remoteHost, t.remotePort) }

  function TunnelHost(s: State, i: nat): M.Host
    requires i < |s.tunnels| && Has(s.hosts, HostId, s.tunnels[i].hostId)
  {
    Find(s.hosts, HostId, s.tunnels[i].hostId).value
  }

  function TunnelBlockOf(s: State, tag: string, printable: Printable, i: nat): Block
    requires i < |s.tunnels| && Has(s.hosts, HostId, s.tunnels[i].hostId)
  {
    var b := HostBlockOf(s, tag, printable, TunnelHost(s, i), TunnelAlias(tag, i));
    b.(words := b.words + ForwardWords(ForwardFrom(s.tunnels[i]), ForwardTo(s.tunnels[i])))
  }

  /** What a valid state says about a host that is exported. */
  lemma HostReady(s: State, tag: string, printable: Printable, h: M.Host)
    requires Exportable(s, tag, printable) && h in s.hosts
    ensures M.ValidHost(h) && (AllLegible(s, printable) ==> Writable(printable, h))
    ensures Has(s.keys, KeyId, h.keyId) && KeyIndex(s, h) < MANY
    ensures M.Route(s.hosts, h.id).Some? && StoredRoute(s, h) != [] && |StoredRoute(s, h)| <= M.MAX_HOPS
    ensures M.IsRoute(s.hosts, h.id, StoredRoute(s, h)) && h.id != ""
  {
    assert HostOk(s.keys, s.hosts, h);
    var i :| 0 <= i < |s.hosts| && s.hosts[i] == h;
    hide Valid, M.Route, M.Walk, IndexOf, M.ValidHost, Legible, Unique;
    M.RouteExact(s.hosts, h.id, M.Route(s.hosts, h.id).value);
    NonEmptyHost(s, i);
  }

  lemma NonEmptyHost(s: State, i: nat)
    requires WellFormed(s) && i < |s.hosts|
    ensures s.hosts[i].id != ""
  {
    assert HostId(s.hosts[i]) != "";
  }

  lemma ExportIds(s: State, tag: string, printable: Printable)
    requires Exportable(s, tag, printable)
    ensures Unique(s.hosts, HostId) && Unique(s.keys, KeyId) && Tag(tag) && PrintsAscii(printable) && Valid(s)
  {
    hide Valid, Unique;
  }

  /** A member of a route is a stored host with a proper alias. */
  lemma RouteAlias(s: State, tag: string, printable: Printable, h: M.Host, k: nat)
    requires Exportable(s, tag, printable) && h in s.hosts && k < |StoredRoute(s, h)|
    ensures var g := StoredRoute(s, h)[k];
      && g in s.hosts && IndexOf(s.hosts, HostId, g.id) < MANY
      && AliasOf(s, tag, g.id) == HostAlias(tag, IndexOf(s.hosts, HostId, g.id))
      && AliasWord(AliasOf(s, tag, g.id)) && 4 < |AliasOf(s, tag, g.id)| <= 100
  {
    HostReady(s, tag, printable, h);
    ExportIds(s, tag, printable);
    var g := StoredRoute(s, h)[k];
    assert Find(s.hosts, HostId, g.id) == Some(g);
    hide Valid, AliasWord, HostAlias, Unique, M.Route;
    var i := IndexOf(s.hosts, HostId, g.id);
    AliasAt(s, tag, i);
    AliasShape(tag, i);
  }

  lemma HopShapes(s: State, tag: string, printable: Printable, h: M.Host)
    requires Exportable(s, tag, printable) && h in s.hosts
    ensures |HopsOf(s, tag, h)| <= 16 && forall a <- HopsOf(s, tag, h) :: AliasWord(a) && 4 < |a| <= 100
  {
    HostReady(s, tag, printable, h);
    var hops := HopsOf(s, tag, h);
    hide Exportable, AliasWord, AliasOf, StoredRoute, Writable;
    forall a | a in hops ensures AliasWord(a) && 4 < |a| <= 100 {
      var k :| 0 <= k < |hops| && hops[k] == a;
      RouteAlias(s, tag, printable, h, k);
    }
  }

  /** One exported host block is read as its words. */
  lemma HostBlockRead(s: State, tag: string, printable: Printable, h: M.Host, alias: string)
    requires Exportable(s, tag, printable) && AllLegible(s, printable) && h in s.hosts && AliasWord(alias) && |alias| <= 100
    ensures HostBlock(s, tag, printable, h, alias).Some?
    ensures ReadAs(HostBlock(s, tag, printable, h, alias).value, [[], ["Host", alias]] + HostBlockOf(s, tag, printable, h, alias).words)
  {
    hide *;
    HostReady(s, tag, printable, h);
    ExportIds(s, tag, printable);
    HopShapes(s, tag, printable, h);
    KeyAt(s, tag, h);
    FileShape(tag, KeyIndex(s, h));
    FileOfIs(s, tag, h);
    HostLinesRead(s, tag, printable, h, alias, HopsOf(s, tag, h));
    HostBlockIs(s, tag, printable, h, alias);
  }

  lemma FileOfIs(s: State, tag: string, h: M.Host)
    ensures FileOf(s, tag, h) == KeyFile(tag, KeyName(KeyIndex(s, h)))
  {
    hide KeyFile, KeyName, KeyIndex;
  }

  lemma HostBlockIs(s: State, tag: string, printable: Printable, h: M.Host, alias: string)
    requires M.Route(s.hosts, h.id).Some? && StoredRoute(s, h) != []
    ensures HostBlock(s, tag, printable, h, alias) == Some(HostLines(s, tag, printable, h, alias, HopsOf(s, tag, h)))
    ensures HostBlockOf(s, tag, printable, h, alias).words == HostWords(h.address, Itoa(h.port), UserWords(printable, h.username), FileOf(s, tag, h), HopsOf(s, tag, h))
  {
    hide HostLines, HostWords, FileOf, Itoa, HopAliases, M.Route;
  }

  function FirstBlocks(s: State, tag: string, printable: Printable, n: nat): (r: seq<Block>)
    requires n <= |s.hosts|
    ensures |r| == n && forall i :: 0 <= i < n ==> r[i] == HostBlockOf(s, tag, printable, s.hosts[i], HostAlias(tag, i))
  {
    seq(n, i requires 0 <= i < n => HostBlockOf(s, tag, printable, s.hosts[i], HostAlias(tag, i)))
  }

  /** The tunnels' hosts are stored. */
  predicate TunnelsPlaced(s: State) { forall i :: 0 <= i < |s.tunnels| ==> Has(s.hosts, HostId, s.tunnels[i].hostId) }

  function TunnelBlocksOf(s: State, tag: string, printable: Printable, n: nat): (r: seq<Block>)
    requires n <= |s.tunnels| && TunnelsPlaced(s)
    ensures |r| == n && forall i :: 0 <= i < n ==> r[i] == TunnelBlockOf(s, tag, printable, i)
  {
    seq(n, i requires 0 <= i < n => TunnelBlockOf(s, tag, printable, i))
  }

  lemma TitleBreaks()
    ensures NoBreak(TITLE) && |TITLE| <= 100
  {
  }

  lemma HintBreaks()
    ensures NoBreak(HINT) && |HINT| <= 100
  {
    assert NoBreak(" Use with ssh -F; ") && |" Use with ssh -F; "| == 18;
    assert NoBreak("existing ~/.ssh/config is preserved.") && |"existing ~/.ssh/config is preserved."| == 36;
    NoBreakConcat(" Use with ssh -F; ", "existing ~/.ssh/config is preserved.");
    hide NoBreak;
  }

  lemma HeaderLine(text: string)
    requires NoBreak(text) && |text| <= 100
    ensures GoodLine("#" + text) && Words("#" + text) == Some([])
  {
    WordsComment(text);
    hide Words, ByteLen;
    NoBreakConcat("#", text);
    assert ByteLen("#" + text) <= 404;
    LastChar("#" + text);
  }

  lemma HeaderRead()
    ensures ReadAs(HEADER, [[], [], []])
  {
    hide *;
    TitleBreaks();
    HintBreaks();
    HeaderLine(TITLE);
    HeaderLine(HINT);
    BlankLine();
    ThreeLines("#" + TITLE, "#" + HINT, "");
    HeaderIs();
  }

  lemma HeaderIs()
    ensures HEADER == ["#" + TITLE, "#" + HINT, ""]
  {
  }

  lemma ThreeLines(a: string, b: string, c: string)
    requires GoodLine(a) && GoodLine(b) && GoodLine(c)
    requires Words(a) == Words(b) == Words(c) == Some([])
    ensures ReadAs([a, b, c], [[], [], []])
  {
    hide GoodLine, Words;
  }

  lemma BlockRead(before: seq<string>, block: seq<string>, words: seq<seq<string>>, b: Block)
    requires ReadAs(before, words) && ReadAs(block, [[], ["Host", b.alias]] + b.words)
    ensures ReadAs(before + (block + [""]), words + BlockWords(b))
  {
    BlankLine();
    assert ReadAs([""], [[]]) by { hide GoodLine, Words; }
    hide ReadAs;
    ReadAsConcat(block, [""], [[], ["Host", b.alias]] + b.words, [[]]);
    ReadAsConcat(before, block + [""], words, BlockWords(b));
  }

  lemma AllWordsStep(blocks: seq<Block>, b: Block)
    ensures AllWords(blocks + [b]) == AllWords(blocks) + BlockWords(b)
  {
    assert (blocks + [b])[..|blocks|] == blocks;
  }

  /** The host blocks of an export. */
  lemma {:induction false} HostBlocksRead(s: State, tag: string, printable: Printable, n: nat)
    requires Exportable(s, tag, printable) && AllLegible(s, printable) && n <= |s.hosts|
    ensures HostBlocks(s, tag, printable, n).Some?
    ensures ReadAs(HEADER + HostBlocks(s, tag, printable, n).value, AllWords(FirstBlocks(s, tag, printable, n)))
    ensures |HostBlocks(s, tag, printable, n).value| >= n
  {
    hide *;
    if n == 0 {
      HeaderRead();
      NoHostBlocks(s, tag, printable);
    } else {
      HostBlocksRead(s, tag, printable, n - 1);
      ExportIds(s, tag, printable);
      ExportSize(s, tag, printable);
      var h, alias := s.hosts[n - 1], HostAlias(tag, n - 1);
      AliasAt(s, tag, n - 1);
      AliasShape(tag, n - 1);
      HostBlockRead(s, tag, printable, h, alias);
      var before, block := HostBlocks(s, tag, printable, n - 1).value, HostBlock(s, tag, printable, h, alias).value;
      BlockAlias(s, tag, printable, h, alias);
      BlockRead(HEADER + before, block, AllWords(FirstBlocks(s, tag, printable, n - 1)), HostBlockOf(s, tag, printable, h, alias));
      NextHostBlock(s, tag, printable, n);
      GroupLines(HEADER, before, block);
    }
  }

  lemma NoHostBlocks(s: State, tag: string, printable: Printable)
    ensures HostBlocks(s, tag, printable, 0) == Some([]) && HEADER + [] == HEADER
    ensures AllWords(FirstBlocks(s, tag, printable, 0)) == [[], [], []]
  {
  }

  lemma NextHostBlock(s: State, tag: string, printable: Printable, n: nat)
    requires 0 < n <= |s.hosts| && HostBlocks(s, tag, printable, n - 1).Some?
    requires AliasOf(s, tag, s.hosts[n - 1].id) == HostAlias(tag, n - 1)
    requires HostBlock(s, tag, printable, s.hosts[n - 1], HostAlias(tag, n - 1)).Some?
    ensures HostBlocks(s, tag, printable, n) ==
      Some(HostBlocks(s, tag, printable, n - 1).value + HostBlock(s, tag, printable, s.hosts[n - 1], HostAlias(tag, n - 1)).value + [""])
    ensures AllWords(FirstBlocks(s, tag, printable, n)) ==
      AllWords(FirstBlocks(s, tag, printable, n - 1)) + BlockWords(HostBlockOf(s, tag, printable, s.hosts[n - 1], HostAlias(tag, n - 1)))
  {
    hide HostBlock, HostBlockOf, AliasOf, HostAlias, AllWords;
    var b := HostBlockOf(s, tag, printable, s.hosts[n - 1], HostAlias(tag, n - 1));
    AllWordsStep(FirstBlocks(s, tag, printable, n - 1), b);
    assert FirstBlocks(s, tag, printable, n) == FirstBlocks(s, tag, printable, n - 1) + [b];
  }

  lemma GroupLines(a: seq<string>, b: seq<string>, c: seq<string>)
    ensures a + (b + c + [""]) == a + b + (c + [""])
  {
  }

  lemma BlockAlias(s: State, tag: string, printable: Printable, h: M.Host, alias: string)
    ensures HostBlockOf(s, tag, printable, h, alias).alias == alias
  {
  }

  lemma ExportSize(s: State, tag: string, printable: Printable)
    requires Exportable(s, tag, printable)
    ensures |s.hosts| < MANY && |s.tunnels| < MANY && |s.keys| < MANY
  {
    hide Valid, WellFormed;
  }

  // ---------------------------------------------------------------- tunnels

  lemma TextConcat(a: string, b: string)
    requires Plain(a) && Plain(b) && NoBreak(a) && NoBreak(b)
    ensures Plain(a + b) && NoBreak(a + b)
  {
  }

  lemma Punctuation()
    ensures Plain("[") && Plain("]:") && Plain(":") && Plain("127.0.0.1:")
    ensures NoBreak("[") && NoBreak("]:") && NoBreak(":") && NoBreak("127.0.0.1:")
  {
  }

  lemma HostPortPlain(host: string, port: int)
    requires Address(host) && 1 <= port <= 65535
    ensures Plain(HostPort(host, port)) && NoBreak(HostPort(host, port)) && |HostPort(host, port)| <= 261
  {
    hide Plain, NoBreak, ByteLen, Itoa, Address;
    AddressPlain(host);
    PortPlain(port);
    Punctuation();
    assert |host| <= ByteLen(host);
    TextConcat("[", host);
    TextConcat("[" + host, "]:");
    TextConcat("[" + host + "]:", Itoa(port));
    TextConcat(host, ":");
    TextConcat(host + ":", Itoa(port));
  }

  lemma LocalPlain(port: int)
    requires 1 <= port <= 65535
    ensures Plain("127.0.0.1:" + Itoa(port)) && NoBreak("127.0.0.1:" + Itoa(port)) && |"127.0.0.1:" + Itoa(port)| <= 15
  {
    hide Plain, NoBreak, Itoa;
    PortPlain(port);
    Punctuation();
    TextConcat("127.0.0.1:", Itoa(port));
  }

  /** A keyword and two values. */
  lemma ThreeWords(key: string, a: string, b: string)
    requires Simple(key) && Plain(a) && Plain(b) && NoBreak(a) && NoBreak(b) && |a| <= 300 && |b| <= 300
    ensures LineRead(Setting(key, a + " " + b), [key, a, b])
  {
    SimplePlain(key);
    hide Plain, Words, NoBreak, ByteLen, GoodLine;
    var words := [key, a, b];
    WordsSpaced(words);
    assert words[..2] == [key, a] && words[..2][..1] == [key];
    SpacedThree(key, a, b);
    NoBreakConcat(a, " ");
    NoBreakConcat(a + " ", b);
    assert ByteLen(a + " " + b) <= 4 * 601;
    PairBreaks(Setting(key, a + " " + b), key, a + " " + b);
    PairBytes(Setting(key, a + " " + b), key, a + " " + b);
    LastChar(Setting(key, a + " " + b));
  }

  lemma SpacedThree(key: string, a: string, b: string)
    ensures INDENT + Spaced([key, a, b]) == Setting(key, a + " " + b)
  {
    assert [key, a, b][..2] == [key, a] && [key, a][..1] == [key];
    assert Spaced([key]) == key;
    assert Spaced([key, a]) == key + " " + a;
    assert Spaced([key, a, b]) == key + " " + a + " " + b;
    assert INDENT + (key + " " + a + " " + b) == INDENT + key + " " + (a + " " + b);
  }

  lemma ForwardWord()
    ensures Simple("LocalForward")
  {
  }

  lemma ForwardLines(t: M.Tunnel)
    requires M.ValidTunnel(t)
    ensures ReadAs(TunnelLines(t), ForwardWords(ForwardFrom(t), ForwardTo(t)) + [[]])
  {
    assert 1 <= t.localPort <= 65535 && 1 <= t.remotePort <= 65535 && Address(t.remoteHost);
    hide Plain, Words, NoBreak, ByteLen, GoodLine, Setting, Address, Itoa, Simple, HostPort, LineRead;
    LocalPlain(t.localPort);
    HostPortPlain(t.remoteHost, t.remotePort);
    ForwardWord();
    ThreeWords("LocalForward", ForwardFrom(t), ForwardTo(t));
    ExitLine();
    BlankLine();
    BlankRead();
    ReadAsThree(Setting("LocalForward", ForwardFrom(t) + " " + ForwardTo(t)), Setting("ExitOnForwardFailure", "yes"), "",
                ["LocalForward", ForwardFrom(t), ForwardTo(t)], ["ExitOnForwardFailure", "yes"], []);
    assert ForwardWords(ForwardFrom(t), ForwardTo(t)) + [[]]
      == [["LocalForward", ForwardFrom(t), ForwardTo(t)], ["ExitOnForwardFailure", "yes"], []];
  }

  lemma BlankRead()
    ensures LineRead("", [])
  {
    BlankLine();
  }

  lemma TunnelReady(s: State, i: nat)
    requires Valid(s) && i < |s.tunnels|
    ensures M.ValidTunnel(s.tunnels[i]) && TunnelsPlaced(s) && TunnelHost(s, i) in s.hosts
  {
    hide M.ValidTunnel, IndexOf;
    assert TunnelOk(s.hosts, s.tunnels[i]);
    forall j | 0 <= j < |s.tunnels| ensures Has(s.hosts, HostId, s.tunnels[j].hostId) {
      assert TunnelOk(s.hosts, s.tunnels[j]);
    }
    HasWitness(s.hosts, HostId, s.tunnels[i].hostId);
  }

  lemma ValidPlaced(s: State)
    requires Valid(s)
    ensures TunnelsPlaced(s)
  {
    forall j | 0 <= j < |s.tunnels| ensures Has(s.hosts, HostId, s.tunnels[j].hostId) {
      TunnelReady(s, j);
    }
  }

  /** A tunnel's block is that of its host with the forwarding behind it. */
  lemma TunnelBlockRead(s: State, tag: string, printable: Printable, i: nat)
    requires Exportable(s, tag, printable) && AllLegible(s, printable) && i < |s.tunnels| && TunnelsPlaced(s)
    ensures TunnelBlock(s, tag, printable, i).Some?
    ensures ReadAs(TunnelBlock(s, tag, printable, i).value, BlockWords(TunnelBlockOf(s, tag, printable, i)))
  {
    ExportIds(s, tag, printable);
    TunnelReady(s, i);
    ExportSize(s, tag, printable);
    AliasShape(tag, i);
    var h, alias, t := TunnelHost(s, i), TunnelAlias(tag, i), s.tunnels[i];
    hide Valid, Exportable, ReadAs, HostBlock, HostWords, FileOf, HopsOf, TunnelAlias, AliasWord, M.ValidTunnel, TunnelLines, ForwardWords, Unique;
    HostBlockRead(s, tag, printable, h, alias);
    ForwardLines(t);
    var b := HostBlockOf(s, tag, printable, h, alias);
    BlockAlias(s, tag, printable, h, alias);
    var forwards := ForwardWords(ForwardFrom(t), ForwardTo(t));
    ReadAsConcat(HostBlock(s, tag, printable, h, alias).value, TunnelLines(t), [[], ["Host", alias]] + b.words, forwards + [[]]);
    GroupWords([[], ["Host", alias]], b.words, forwards);
  }

  lemma GroupWords(a: seq<seq<string>>, b: seq<seq<string>>, c: seq<seq<string>>)
    ensures a + b + (c + [[]]) == a + (b + c) + [[]]
  {
  }

  lemma {:induction false} TunnelBlocksRead(s: State, tag: string, printable: Printable, above: seq<string>, blocks: seq<Block>, n: nat)
    requires Exportable(s, tag, printable) && AllLegible(s, printable) && n <= |s.tunnels| && TunnelsPlaced(s)
    requires ReadAs(above, AllWords(blocks))
    ensures TunnelBlocks(s, tag, printable, n).Some?
    ensures ReadAs(above + TunnelBlocks(s, tag, printable, n).value, AllWords(blocks + TunnelBlocksOf(s, tag, printable, n)))
  {
    hide *;
    if n == 0 {
      NoTunnelBlocks(s, tag, printable, above, blocks);
    } else {
      TunnelBlocksRead(s, tag, printable, above, blocks, n - 1);
      TunnelBlockRead(s, tag, printable, n - 1);
      var before, block := TunnelBlocks(s, tag, printable, n - 1).value, TunnelBlock(s, tag, printable, n - 1).value;
      var bs := blocks + TunnelBlocksOf(s, tag, printable, n - 1);
      PlacedAt(s, n - 1);
      ReadAsConcat(above + before, block, AllWords(bs), BlockWords(TunnelBlockOf(s, tag, printable, n - 1)));
      NextTunnelBlock(s, tag, printable, above, blocks, n);
    }
  }

  lemma NoTunnelBlocks(s: State, tag: string, printable: Printable, above: seq<string>, blocks: seq<Block>)
    requires TunnelsPlaced(s)
    ensures TunnelBlocks(s, tag, printable, 0) == Some([])
    ensures above + [] == above && blocks + TunnelBlocksOf(s, tag, printable, 0) == blocks
  {
  }

  lemma NextTunnelBlock(s: State, tag: string, printable: Printable, above: seq<string>, blocks: seq<Block>, n: nat)
    requires 0 < n <= |s.tunnels| && TunnelsPlaced(s) && Has(s.hosts, HostId, s.tunnels[n - 1].hostId)
    requires TunnelBlocks(s, tag, printable, n - 1).Some? && TunnelBlock(s, tag, printable, n - 1).Some?
    ensures TunnelBlocks(s, tag, printable, n).Some?
    ensures above + TunnelBlocks(s, tag, printable, n).value ==
      above + TunnelBlocks(s, tag, printable, n - 1).value + TunnelBlock(s, tag, printable, n - 1).value
    ensures AllWords(blocks + TunnelBlocksOf(s, tag, printable, n)) ==
      AllWords(blocks + TunnelBlocksOf(s, tag, printable, n - 1)) + BlockWords(TunnelBlockOf(s, tag, printable, n - 1))
  {
    hide TunnelBlock, TunnelBlockOf, AllWords, BlockWords, TunnelsPlaced;
    var b, bs := TunnelBlockOf(s, tag, printable, n - 1), blocks + TunnelBlocksOf(s, tag, printable, n - 1);
    AllWordsStep(bs, b);
    assert blocks + TunnelBlocksOf(s, tag, printable, n) == bs + [b];
  }

  lemma PlacedAt(s: State, i: nat)
    requires TunnelsPlaced(s) && i < |s.tunnels|
    ensures Has(s.hosts, HostId, s.tunnels[i].hostId)
  {
  }

  /** All blocks of an export, hosts first. */
  function ExportBlocksOf(s: State, tag: string, printable: Printable): seq<Block>
    requires TunnelsPlaced(s)
  {
    FirstBlocks(s, tag, printable, |s.hosts|) + TunnelBlocksOf(s, tag, printable, |s.tunnels|)
  }

  /** The lines of an export are read as the words of its blocks. */
  lemma ConfigRead(s: State, tag: string, printable: Printable)
    requires Exportable(s, tag, printable) && AllLegible(s, printable)
    ensures TunnelsPlaced(s) && ConfigLines(s, tag, printable).Some?
    ensures ReadAs(ConfigLines(s, tag, printable).value, AllWords(ExportBlocksOf(s, tag, printable)))
    ensures var lines := ConfigLines(s, tag, printable).value; lines != [] && lines[0] != "" && lines[0][0] == '#'
  {
    hide *;
    ExportIds(s, tag, printable);
    ValidPlaced(s);
    HostBlocksRead(s, tag, printable, |s.hosts|);
    var hosts := HostBlocks(s, tag, printable, |s.hosts|).value;
    TunnelBlocksRead(s, tag, printable, HEADER + hosts, FirstBlocks(s, tag, printable, |s.hosts|), |s.tunnels|);
    ConfigIs(s, tag, printable);
  }

  lemma ConfigIs(s: State, tag: string, printable: Printable)
    requires HostBlocks(s, tag, printable, |s.hosts|).Some? && TunnelBlocks(s, tag, printable, |s.tunnels|).Some?
    requires TunnelsPlaced(s)
    ensures ConfigLines(s, tag, printable) ==
      Some(HEADER + HostBlocks(s, tag, printable, |s.hosts|).value + TunnelBlocks(s, tag, printable, |s.tunnels|).value)
    ensures var lines := ConfigLines(s, tag, printable).value; lines != [] && lines[0] != "" && lines[0][0] == '#'
    ensures ExportBlocksOf(s, tag, printable) == FirstBlocks(s, tag, printable, |s.hosts|) + TunnelBlocksOf(s, tag, printable, |s.tunnels|)
  {
    hide HostBlocks, TunnelBlocks, FirstBlocks, TunnelBlocksOf, TunnelsPlaced;
  }

  // ---------------------------------------------------------------- the parsed hosts

  lemma BlockGood(s: State, tag: string, printable: Printable, h: M.Host, alias: string, extra: seq<seq<string>>)
    requires AliasWord(alias) && Extra(extra) && UserWords(printable, h.username) != []
    ensures GoodBlock(HostBlockOf(s, tag, printable, h, alias).(words := HostBlockOf(s, tag, printable, h, alias).words + extra))
  {
    hide KeyWords, IsDirective, HopsOf, FileOf, HostWords, Tail;
    BlockKeys(h.address, Itoa(h.port), UserWords(printable, h.username), FileOf(s, tag, h), HopsOf(s, tag, h), extra);
  }

  /** The alias of the i-th block. */
  function AliasNo(s: State, tag: string, i: nat): string {
    if i < |s.hosts| then HostAlias(tag, i) else TunnelAlias(tag, i - |s.hosts|)
  }

  lemma AliasNoInjective(s: State, tag: string, i: nat, j: nat)
    requires i < j
    ensures AliasNo(s, tag, i) != AliasNo(s, tag, j)
  {
    hide HostAlias, TunnelAlias;
    var n := |s.hosts|;
    if j < n {
      if HostAlias(tag, i) == HostAlias(tag, j) { HostAliasInjective(tag, i, j); }
    } else if i < n {
      AliasKindsDiffer(tag, i, j - n);
    } else {
      if TunnelAlias(tag, i - n) == TunnelAlias(tag, j - n) { TunnelAliasInjective(tag, i - n, j - n); }
    }
  }

  /** The host and the forwarding of the i-th block. */
  function BlockHost(s: State, i: nat): M.Host
    requires TunnelsPlaced(s) && i < |s.hosts| + |s.tunnels|
  {
    if i < |s.hosts| then s.hosts[i] else TunnelHost(s, i - |s.hosts|)
  }

  function BlockExtra(s: State, i: nat): seq<seq<string>>
    requires i < |s.hosts| + |s.tunnels|
  {
    if i < |s.hosts| then [] else ForwardWords(ForwardFrom(s.tunnels[i - |s.hosts|]), ForwardTo(s.tunnels[i - |s.hosts|]))
  }

  lemma BlockNo(s: State, tag: string, printable: Printable, i: nat)
    requires TunnelsPlaced(s) && i < |s.hosts| + |s.tunnels|
    ensures |ExportBlocksOf(s, tag, printable)| == |s.hosts| + |s.tunnels|
    ensures var b := ExportBlocksOf(s, tag, printable)[i];
      && b.alias == AliasNo(s, tag, i)
      && b.words == HostBlockOf(s, tag, printable, BlockHost(s, i), b.alias).words + BlockExtra(s, i)
    ensures Extra(BlockExtra(s, i))
  {
    hide HostWords, FileOf, HopsOf, HostAlias, TunnelAlias, ForwardFrom, ForwardTo;
  }

  lemma BlockNoGood(s: State, tag: string, printable: Printable, i: nat)
    requires Exportable(s, tag, printable) && AllLegible(s, printable) && TunnelsPlaced(s) && i < |s.hosts| + |s.tunnels|
    ensures |ExportBlocksOf(s, tag, printable)| == |s.hosts| + |s.tunnels|
    ensures GoodBlock(ExportBlocksOf(s, tag, printable)[i])
  {
    ExportSize(s, tag, printable);
    ExportIds(s, tag, printable);
    if i < |s.hosts| { AliasShape(tag, i); } else { AliasShape(tag, i - |s.hosts|); }
    assert AliasWord(AliasNo(s, tag, i)) by { hide AliasWord, HostAlias, TunnelAlias; }
    hide *;
    BlockNo(s, tag, printable, i);
    BlockHostStored(s, i);
    HostReady(s, tag, printable, BlockHost(s, i));
    UserLineRead(printable, BlockHost(s, i));
    var b := ExportBlocksOf(s, tag, printable)[i];
    BlockGood(s, tag, printable, BlockHost(s, i), b.alias, BlockExtra(s, i));
    BlockAlias(s, tag, printable, BlockHost(s, i), b.alias);
  }

  /** The blocks are proper and their aliases all different. */
  lemma ExportBlocksGood(s: State, tag: string, printable: Printable)
    requires Exportable(s, tag, printable) && AllLegible(s, printable) && TunnelsPlaced(s)
    ensures GoodBlocks(ExportBlocksOf(s, tag, printable)) && |ExportBlocksOf(s, tag, printable)| == |s.hosts| + |s.tunnels|
  {
    hide Exportable, GoodBlock, ExportBlocksOf, TunnelsPlaced, AliasNo;
    var blocks := ExportBlocksOf(s, tag, printable);
    BlockCount(s, tag, printable);
    forall i | 0 <= i < |blocks| ensures GoodBlock(blocks[i]) && blocks[i].alias == AliasNo(s, tag, i) {
      BlockNoGood(s, tag, printable, i);
      BlockNo(s, tag, printable, i);
    }
    forall i, j | 0 <= i < j < |blocks| ensures blocks[i].alias != blocks[j].alias {
      AliasNoInjective(s, tag, i, j);
    }
  }

  lemma BlockCount(s: State, tag: string, printable: Printable)
    requires TunnelsPlaced(s)
    ensures |ExportBlocksOf(s, tag, printable)| == |s.hosts| + |s.tunnels|
  {
  }

  /** The candidate an exported host should come back as. */
  function BackAs(s: State, tag: string, h: M.Host, alias: string): Candidate {
    Candidate(alias, h.address, h.port, h.username, FileOf(s, tag, h), HopsOf(s, tag, h), true)
  }

  /** The candidate it does come back as: its user name is what the reader makes of it. */
  function ReadBack(s: State, tag: string, printable: Printable, h: M.Host, alias: string): Candidate {
    BackAs(s, tag, h, alias).(username := ReadUser(printable, h.username))
  }

  /** The host these directives make. */
  function HostFrom(classes: Classes, ds: seq<Directive>, alias: string): Candidate {
    Built(alias, Value(classes, ds, alias, "hostname"), Value(classes, ds, alias, "port"), Value(classes, ds, alias, "user"),
          Value(classes, ds, alias, "identityfile"), Value(classes, ds, alias, "proxyjump"), Blocked(classes, ds, alias))
  }

  lemma FileOfShape(s: State, tag: string, h: M.Host)
    requires Tag(tag) && KeyIndex(s, h) < MANY
    ensures var f := FileOf(s, tag, h); f != "" && Avoids(f, "%") && Avoids(f, "$")
  {
    hide KeyFile, KeyName, KeyIndex, Tag, Avoids;
    FileShape(tag, KeyIndex(s, h));
  }

  lemma HostBlockWords(s: State, tag: string, printable: Printable, h: M.Host, alias: string)
    ensures HostBlockOf(s, tag, printable, h, alias).words ==
      HostWords(h.address, Itoa(h.port), UserWords(printable, h.username), FileOf(s, tag, h), HopsOf(s, tag, h))
  {
    hide HostWords, FileOf, HopsOf, Itoa, UserWords;
  }

  lemma FromValues(classes: Classes, b: Block, address: string, port: string, user: string, file: string, jump: string)
    requires GoodBlock(b) && !Blocked(classes, OneBlock(b), b.alias)
    requires Value(classes, OneBlock(b), b.alias, "hostname") == address && Value(classes, OneBlock(b), b.alias, "port") == port
    requires Value(classes, OneBlock(b), b.alias, "user") == user && Value(classes, OneBlock(b), b.alias, "identityfile") == file
    requires Value(classes, OneBlock(b), b.alias, "proxyjump") == jump
    ensures HostFrom(classes, OneBlock(b), b.alias) == Built(b.alias, address, port, user, file, jump, false)
  {
    hide Value, Built, Blocked, OneBlock, GoodBlock;
  }

  lemma ReadBackIs(s: State, tag: string, printable: Printable, h: M.Host, alias: string)
    ensures ReadBack(s, tag, printable, h, alias) ==
      Candidate(alias, h.address, h.port, ReadUser(printable, h.username), FileOf(s, tag, h), HopsOf(s, tag, h), true)
    ensures Join(UserWords(printable, h.username), " ") == ReadUser(printable, h.username)
  {
    hide FileOf, HopsOf, UserWords, Join;
  }

  lemma PortOf(h: M.Host)
    requires M.ValidHost(h)
    ensures 1 <= h.port <= 65535 && Address(h.address)
  {
    hide Address;
  }

  /** One block read back as a host. */
  lemma BlockBack(s: State, tag: string, printable: Printable, classes: Classes, b: Block, h: M.Host, extra: seq<seq<string>>)
    requires Exportable(s, tag, printable) && AllLegible(s, printable) && h in s.hosts && GoodBlock(b) && Extra(extra)
    requires b.words == HostBlockOf(s, tag, printable, h, b.alias).words + extra
    ensures HostFrom(classes, OneBlock(b), b.alias) == ReadBack(s, tag, printable, h, b.alias)
  {
    hide *;
    var file, hops, user, port := FileOf(s, tag, h), HopsOf(s, tag, h), UserWords(printable, h.username), Itoa(h.port);
    HostReady(s, tag, printable, h);
    ExportIds(s, tag, printable);
    PortOf(h);
    AddressPlain(h.address);
    FileOfShape(s, tag, h);
    HopShapes(s, tag, printable, h);
    UserLineRead(printable, h);
    HostBlockWords(s, tag, printable, h, b.alias);
    ReadBackIs(s, tag, printable, h, b.alias);
    BlockKeys(h.address, port, user, file, hops, extra);
    SplitWords(h.address, port, user, file, hops, extra);
    HostValues(classes, b, h.address, port, user, file, JumpWords(hops) + extra);
    JumpValue(classes, b, h.address, port, user, file, hops, extra);
    NotBlocked(classes, b);
    FromValues(classes, b, h.address, port, ReadUser(printable, h.username), file, Join(hops, ","));
    BuiltExported(b.alias, h.address, h.port, ReadUser(printable, h.username), file, hops);
  }

  function JumpWords(hops: seq<string>): seq<seq<string>> {
    if hops == [] then [] else [["ProxyJump", Join(hops, ",")]]
  }

  lemma SplitWords(address: string, port: string, user: seq<string>, file: string, hops: seq<string>, extra: seq<seq<string>>)
    ensures HostWords(address, port, user, file, hops) + extra == HostWords(address, port, user, file, []) + (JumpWords(hops) + extra)
  {
    hide Join;
  }

  lemma NotBlocked(classes: Classes, b: Block)
    requires GoodBlock(b) && forall key <- BLOCKING :: Value(classes, OneBlock(b), b.alias, key) == ""
    ensures !Blocked(classes, OneBlock(b), b.alias)
  {
    hide Value, OneBlock, GoodBlock;
  }

  lemma HostFromSame(classes: Classes, a: seq<Directive>, b: seq<Directive>, alias: string)
    requires forall key :: Value(classes, a, alias, key) == Value(classes, b, alias, key)
    ensures HostFrom(classes, a, alias) == HostFrom(classes, b, alias)
  {
    hide Value, Built, Off;
  }

  lemma HostOfFrom(classes: Classes, patterns: seq<string>, ds: seq<Directive>, aliases: seq<string>, alias: string)
    ensures HostOf(classes, Reading(patterns, false, false, ds, aliases), alias) == HostFrom(classes, ds, alias)
  {
    hide Value, Built, Blocked;
  }

  /** The whole reading gives each alias what its own block gives it. */
  lemma HostOfBlock(classes: Classes, blocks: seq<Block>, i: nat)
    requires GoodBlocks(blocks) && i < |blocks|
    ensures GoodBlock(blocks[i])
    ensures HostFrom(classes, BlockDirectives(blocks), blocks[i].alias) == HostFrom(classes, OneBlock(blocks[i]), blocks[i].alias)
  {
    assert GoodBlock(blocks[i]);
    hide Value, HostFrom, GoodBlock, OneBlock, BlockDirectives;
    forall key
      ensures Value(classes, BlockDirectives(blocks), blocks[i].alias, key) == Value(classes, OneBlock(blocks[i]), blocks[i].alias, key)
    {
      OwnValues(classes, blocks, i, key);
    }
    HostFromSame(classes, BlockDirectives(blocks), OneBlock(blocks[i]), blocks[i].alias);
  }

  lemma MaskedValid(s: State)
    requires Valid(s)
    ensures Valid(Masked(s))
  {
    var m := Masked(s);
    assert forall i :: 0 <= i < |s.keys| ==> m.keys[i] == s.keys[i].(path := "recipient-key");
    forall k | k in m.keys ensures M.ValidKey(k) {
      var i :| 0 <= i < |m.keys| && m.keys[i] == k;
      assert M.ValidKey(s.keys[i]);
    }
    hide M.ValidKey, M.ValidHost, M.Route, M.ValidTunnel, M.ValidService;
    forall h | h in m.hosts ensures HostOk(m.keys, m.hosts, h) {
      assert HostOk(s.keys, s.hosts, h);
      SameIndex(s.keys, m.keys, KeyId, h.keyId);
    }
  }

  /** The candidate at a position of the parsed export. */
  function ReadAt(s: State, tag: string, printable: Printable, i: nat): Candidate
    requires TunnelsPlaced(s) && i < |s.hosts| + |s.tunnels|
  {
    ReadBack(s, tag, printable, BlockHost(s, i), AliasNo(s, tag, i))
  }

  /** The candidate that stands for the exported host itself. */
  function ExpectedAt(s: State, tag: string, i: nat): Candidate
    requires TunnelsPlaced(s) && i < |s.hosts| + |s.tunnels|
  {
    BackAs(s, tag, BlockHost(s, i), AliasNo(s, tag, i))
  }

  lemma BlockHostStored(s: State, i: nat)
    requires Valid(s) && TunnelsPlaced(s) && i < |s.hosts| + |s.tunnels|
    ensures BlockHost(s, i) in s.hosts
  {
    hide Valid;
    if i >= |s.hosts| { TunnelReady(s, i - |s.hosts|); }
  }

  lemma BackAt(s: State, tag: string, printable: Printable, classes: Classes, patterns: seq<string>, i: nat)
    requires Exportable(s, tag, printable) && AllLegible(s, printable) && TunnelsPlaced(s) && i < |s.hosts| + |s.tunnels|
    requires GoodBlocks(ExportBlocksOf(s, tag, printable))
    ensures |ExportBlocksOf(s, tag, printable)| == |s.hosts| + |s.tunnels|
    ensures var blocks := ExportBlocksOf(s, tag, printable);
      HostOf(classes, Reading(patterns, false, false, BlockDirectives(blocks), BlockAliases(blocks)), blocks[i].alias) == ReadAt(s, tag, printable, i)
  {
    var blocks := ExportBlocksOf(s, tag, printable);
    BlockCount(s, tag, printable);
    BlocksAllGood(blocks);
    hide *;
    ExportIds(s, tag, printable);
    BlockNo(s, tag, printable, i);
    BlockHostStored(s, i);
    HostOfBlock(classes, blocks, i);
    HostOfFrom(classes, patterns, BlockDirectives(blocks), BlockAliases(blocks), blocks[i].alias);
    BlockBack(s, tag, printable, classes, blocks[i], BlockHost(s, i), BlockExtra(s, i));
    ReadIs(s, tag, printable, i);
  }

  lemma BlocksAllGood(blocks: seq<Block>)
    requires GoodBlocks(blocks)
    ensures forall i :: 0 <= i < |blocks| ==> GoodBlock(blocks[i])
  {
    hide GoodBlock;
  }

  lemma ReadIs(s: State, tag: string, printable: Printable, i: nat)
    requires TunnelsPlaced(s) && i < |s.hosts| + |s.tunnels|
    ensures ReadAt(s, tag, printable, i) == ReadBack(s, tag, printable, BlockHost(s, i), AliasNo(s, tag, i))
  {
    hide ReadBack, AliasNo, BlockHost;
  }

  lemma ReadAsGood(lines: seq<string>, words: seq<seq<string>>)
    requires ReadAs(lines, words)
    ensures forall l <- lines :: GoodLine(l)
  {
    hide GoodLine, Words;
  }

  lemma ParsedBlocks(s: State, tag: string, printable: Printable, classes: Classes, lines: seq<string>)
    requires Exportable(s, tag, printable) && AllLegible(s, printable) && TunnelsPlaced(s)
    requires ReadAs(lines, AllWords(ExportBlocksOf(s, tag, printable))) && lines != [] && lines[0] != "" && lines[0][0] == '#'
    requires ByteLen(Unlines(lines)) <= MAX_CONFIG
    ensures var r := Parse(classes, Unlines(lines));
      && r.Ok? && |r.value| == |s.hosts| + |s.tunnels|
      && forall i :: 0 <= i < |r.value| ==> r.value[i] == ReadAt(s, tag, printable, i)
  {
    hide *;
    var blocks := ExportBlocksOf(s, tag, printable);
    ExportBlocksGood(s, tag, printable);
    BlocksAllGood(blocks);
    ReadAsGood(lines, AllWords(blocks));
    RawUnlines(lines);
    FeedGoodLines(lines, AllWords(blocks));
    var patterns := FeedBlocks(blocks);
    var st := Reading(patterns, false, false, BlockDirectives(blocks), BlockAliases(blocks));
    ParseIs(classes, Unlines(lines), st);
    forall i | 0 <= i < |blocks| ensures HostOf(classes, st, blocks[i].alias) == ReadAt(s, tag, printable, i) {
      BackAt(s, tag, printable, classes, patterns, i);
    }
  }

  lemma ParseIs(classes: Classes, text: string, st: Reading)
    requires FeedLines(NOTHING, RawLines(text)) == Some(st) && ByteLen(text) <= MAX_CONFIG
    ensures Parse(classes, text) == Ok(HostsOf(classes, st, st.aliases))
  {
    LimitedWhole(text, MAX_CONFIG);
    hide HostOf, FeedLines, RawLines, ByteLen, Limited;
  }

  /** Exporting never fails on such a state, and parsing the export gives one host per exported host,
      in order and with its values and route, then one per tunnel. The user name is what the reader
      makes of it. */
  lemma ExportParses(s: State, tag: string, printable: Printable, classes: Classes)
    requires Exportable(s, tag, printable) && AllLegible(s, printable)
    requires Exported(s, tag, printable).Ok? ==> ByteLen(Exported(s, tag, printable).value) <= MAX_CONFIG
    ensures Exported(s, tag, printable).Ok? && TunnelsPlaced(s)
    ensures var r := Parse(classes, Exported(s, tag, printable).value);
      && r.Ok? && |r.value| == |s.hosts| + |s.tunnels|
      && forall i :: 0 <= i < |r.value| ==> r.value[i] == ReadAt(s, tag, printable, i)
  {
    hide *;
    ExportIds(s, tag, printable);
    MaskedValid(s);
    ConfigRead(s, tag, printable);
    ExportedIs(s, tag, printable);
    ParsedBlocks(s, tag, printable, classes, ConfigLines(s, tag, printable).value);
  }

  lemma ExportedIs(s: State, tag: string, printable: Printable)
    requires Valid(Masked(s)) && ConfigLines(s, tag, printable).Some?
    ensures Exported(s, tag, printable) == Ok(Unlines(ConfigLines(s, tag, printable).value))
  {
    hide Valid, Masked, ConfigLines, Unlines;
  }
}
