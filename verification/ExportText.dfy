/**
 The exported text read back: every line is a good line and splits into the words it was written from.
 */
module ExportText {
  import opened Wrappers
  import opened Text
  import opened Records
  import opened M = Model
  import opened Tokens
  import opened Parser
  import opened MacExport
  import opened ExportLines
  import opened Blocks
  import opened ExportBlocks

  predicate NoBreak(s: string) { '\n' !in s && '\r' !in s }

  /** ASCII letters, digits and punctuation are printable. */
  ghost predicate PrintsAscii(printable: Printable) {
    forall c: char :: ' ' <= c <= '~' ==> printable(c)
  }

  // ---------------------------------------------------------------- single lines

  lemma LastChar(s: string)
    requires NoBreak(s) && ByteLen(s) < MAX_LINE
    ensures GoodLine(s)
  {
    hide ByteLen;
  }

  lemma NoBreakConcat(a: string, b: string)
    requires NoBreak(a) && NoBreak(b)
    ensures NoBreak(a + b)
  {
  }

  lemma PairBreaks(line: string, key: string, value: string)
    requires line == Setting(key, value) || line == key + " " + value
    requires NoBreak(key) && NoBreak(value)
    ensures NoBreak(line)
  {
    NoBreakConcat(INDENT, key);
    NoBreakConcat(INDENT + key, " ");
    NoBreakConcat(key, " ");
    NoBreakConcat(INDENT + key + " ", value);
    NoBreakConcat(key + " ", value);
    hide NoBreak;
  }

  lemma PairWords(line: string, key: string, value: string)
    requires line == Setting(key, value) || line == key + " " + value
    requires Plain(key) && Plain(value)
    ensures Words(line) == Some([key, value])
  {
    hide Words, Plain;
    var words := [key, value];
    assert words[..1] == [key];
    assert Spaced(words) == key + " " + value;
    Prepended(INDENT, key, value);
    WordsSpaced(words);
  }

  lemma Prepended(a: string, b: string, c: string)
    ensures a + (b + " " + c) == a + b + " " + c
  {
  }

  /** A keyword and one value. */
  lemma PairLine(line: string, key: string, value: string)
    requires line == Setting(key, value) || line == key + " " + value
    requires Plain(key) && Plain(value) && NoBreak(key) && NoBreak(value)
    requires |key| < 100 && ByteLen(value) < 100000
    ensures GoodLine(line) && Words(line) == Some([key, value])
  {
    hide *;
    PairBytes(line, key, value);
    PairWords(line, key, value);
    PairBreaks(line, key, value);
    LastChar(line);
  }

  lemma PairBytes(line: string, key: string, value: string)
    requires line == Setting(key, value) || line == key + " " + value
    requires |key| < 100 && ByteLen(value) < 100000
    ensures ByteLen(line) < MAX_LINE
  {
    hide Plain;
    ByteLenAppend(INDENT + key + " ", value);
    ByteLenAppend(key + " ", value);
    assert |INDENT + key + " "| < 103;
    assert ByteLen(INDENT + key + " ") <= 412;
    assert ByteLen(key + " ") <= 412;
  }

  lemma {:induction false} CommentBreaks(s: string)
    ensures NoBreak(Comment(s)) && |Comment(s)| <= |s|
  {
    if s != "" { CommentBreaks(s[..|s| - 1]); }
  }

  lemma CommentLine(name: string)
    requires ByteLen(name) <= 160
    ensures GoodLine("# " + Comment(name)) && Words("# " + Comment(name)) == Some([])
  {
    hide *;
    CommentBreaks(name);
    CommentStart(Comment(name));
    WordsComment(" " + Comment(name));
    CommentBytes(Comment(name));
    LastChar("# " + Comment(name));
  }

  lemma CommentStart(c: string)
    requires NoBreak(c)
    ensures "# " + c == "#" + (" " + c) && NoBreak("# " + c)
  {
    assert "# " == "#" + " ";
    NoBreakConcat("# ", c);
  }

  lemma CommentBytes(c: string)
    requires |c| <= 160
    ensures ByteLen("# " + c) < MAX_LINE
  {
    hide ByteLen;
    assert |"# " + c| <= 162;
  }

  lemma BlankLine()
    ensures GoodLine("") && Words("") == Some([])
  {
    WordsBlank();
  }

  /** A quoted value without quotes and backslashes. */
  lemma QuotedGood(key: string, body: string)
    requires NoBreak(key) && NoBreak(body) && |key| < 100 && |body| < 10000
    ensures GoodLine(QuotedLine(key, body))
  {
    var line := QuotedLine(key, body);
    NoBreakConcat(INDENT, key);
    NoBreakConcat(INDENT + key, " \"");
    NoBreakConcat(body, "\"");
    NoBreakConcat(INDENT + key + " \"", body + "\"");
    hide NoBreak, ByteLen;
    assert |line| <= 10110;
    assert ByteLen(line) <= 40440;
    LastChar(line);
  }

  lemma {:induction false} DoubledText(u: string)
    requires NoBreak(u)
    ensures NoBreak(Doubled(u)) && |Doubled(u)| <= 2 * |u|
  {
    if u != "" {
      DoubledText(u[..|u| - 1]);
    }
  }

  lemma {:induction false} HexText(n: nat, width: nat)
    ensures NoBreak(Hex(n, width)) && |Hex(n, width)| == width
  {
    if width > 0 {
      HexText(n / 16, width - 1);
    }
  }

  lemma EscapeText(c: char)
    ensures NoBreak(Escape(c)) && |Escape(c)| <= 10
  {
    HexText(c as int, 2);
    HexText(c as int, 4);
    HexText(c as int, 8);
    NoBreakConcat("\\x", Hex(c as int, 2));
    NoBreakConcat("\\u", Hex(c as int, 4));
    NoBreakConcat("\\U", Hex(c as int, 8));
    hide Hex;
  }

  lemma {:induction false} QuotedText(printable: Printable, s: string)
    requires NoBreak(s)
    ensures NoBreak(QuoteBody(printable, s)) && |QuoteBody(printable, s)| <= 10 * |s|
  {
    hide Escape;
    if s != "" {
      QuotedText(printable, s[..|s| - 1]);
      EscapeText(s[|s| - 1]);
    }
  }

  /** The line of a user name is always a good line. */
  lemma UserLineGood(printable: Printable, u: string)
    requires NoBreak(u) && ByteLen(u) <= 160
    ensures GoodLine(UserLine(printable, u))
  {
    assert |u| <= 160 by { hide NoBreak; }
    hide *;
    DoubledText(u);
    QuotedText(printable, Doubled(u));
    UserLineQuoted(printable, u);
    UserWord();
    QuotedGood("User", QuoteBody(printable, Doubled(u)));
  }

  lemma UserWord()
    ensures NoBreak("User") && |"User"| < 100
  {
  }

  lemma FileLine(printable: Printable, file: string)
    requires PrintsAscii(printable) && file != "" && |file| < 1000
    requires forall i :: 0 <= i < |file| ==> ' ' <= file[i] <= '~' && file[i] != '"' && file[i] != '\\'
    ensures var line := Setting("IdentityFile", Quote(printable, file)); GoodLine(line) && Words(line) == Some(["IdentityFile", file])
  {
    QuotePlain(printable, file);
    IdentityFileLiteral();
    assert NoBreak(file) && '"' !in file;
    hide Words, QuoteBody, NoBreak, GoodLine, Plain;
    QuotedSetting("IdentityFile", file);
    WordsQuoted("IdentityFile", file);
    QuotedGood("IdentityFile", file);
  }

  lemma IdentityFileLiteral()
    ensures Plain("IdentityFile") && NoBreak("IdentityFile")
  {
  }

  lemma AddressPlain(a: string)
    requires Address(a)
    ensures Plain(a) && NoBreak(a) && Avoids(a, "%") && a != "" && ByteLen(a) <= 253
  {
    hide ByteLen, GroupCount, Elided;
    forall i | 0 <= i < |a| ensures PlainChar(a[i]) && a[i] != '\n' && a[i] != '\r' && a[i] !in "%" {
      assert IsHex(a[i]) || a[i] in ":." || HostChar(a[i]);
      assert a[i] !in " \t\r\n/\\@?#%";
    }
  }

  lemma {:induction false} DigitsShort(n: nat, bound: nat, k: nat)
    requires 1 <= k && n < bound && bound == Tens(k)
    ensures |Digits(n)| <= k
    decreases k
  {
    if n >= 10 {
      DigitsShort(n / 10, Tens(k - 1), k - 1);
    }
  }

  function Tens(k: nat): nat { if k == 0 then 1 else 10 * Tens(k - 1) }

  lemma DigitsPlain(s: string)
    requires s != "" && AllDigits(s)
    ensures Plain(s) && NoBreak(s) && AliasWord(s)
  {
  }

  lemma PortPlain(p: int)
    requires 1 <= p <= 65535
    ensures Plain(Itoa(p)) && NoBreak(Itoa(p)) && |Itoa(p)| <= 5
  {
    assert Tens(5) == 100000;
    DigitsShort(p, 100000, 5);
    DigitsPlain(Digits(p));
    hide Digits;
  }

  lemma {:induction false} JoinPlain(hops: seq<string>)
    requires hops != [] && forall h <- hops :: AliasWord(h) && |h| <= 100
    ensures Plain(Join(hops, ",")) && NoBreak(Join(hops, ",")) && |Join(hops, ",")| <= 101 * |hops|
  {
    var n := |hops| - 1;
    assert hops[n] in hops;
    AliasPlain(hops[n]);
    if n > 0 {
      assert forall h <- hops[..n] :: h in hops;
      JoinPlain(hops[..n]);
      hide AliasWord;
    }
  }

  // ---------------------------------------------------------------- the lines of a block

  /** Letters and digits stand for themselves. */
  predicate Simple(w: string) { w != "" && |w| < 50 && forall i :: 0 <= i < |w| ==> 'a' <= w[i] <= 'z' || 'A' <= w[i] <= 'Z' || IsDigit(w[i]) }

  lemma SimplePlain(w: string)
    requires Simple(w)
    ensures Plain(w) && NoBreak(w) && ByteLen(w) <= 200
  {
    hide ByteLen;
  }

  /** A line that is read as these words. */
  predicate LineRead(line: string, words: seq<string>) { GoodLine(line) && Words(line) == Some(words) }

  lemma SettingRead(key: string, value: string)
    requires Simple(key) && Plain(value) && NoBreak(value) && ByteLen(value) < 100000
    ensures LineRead(Setting(key, value), [key, value])
  {
    hide ByteLen, Words, GoodLine, Plain, NoBreak, Setting;
    SimplePlain(key);
    PairLine(Setting(key, value), key, value);
  }

  lemma AliasBreaks(alias: string)
    requires AliasWord(alias)
    ensures NoBreak(alias)
  {
    AliasPlain(alias);
  }

  lemma HostWord()
    ensures Simple("Host") && Simple("HostName") && Simple("Port")
  {
  }

  lemma NamedLine(alias: string)
    requires AliasWord(alias) && |alias| <= 100
    ensures LineRead("Host" + " " + alias, ["Host", alias])
  {
    hide ByteLen, Words, GoodLine, Plain, AliasWord, NoBreak, Setting, Simple;
    AliasPlain(alias);
    AliasBreaks(alias);
    HostWord();
    SimplePlain("Host");
    assert ByteLen(alias) <= 400;
    PairLine("Host" + " " + alias, "Host", alias);
  }

  lemma AddressLine(a: string)
    requires Address(a)
    ensures LineRead(Setting("HostName", a), ["HostName", a])
  {
    hide *;
    HostWord();
    AddressPlain(a);
    SettingRead("HostName", a);
  }

  lemma PortLine(p: int)
    requires 1 <= p <= 65535
    ensures LineRead(Setting("Port", Itoa(p)), ["Port", Itoa(p)])
  {
    hide *;
    HostWord();
    PortPlain(p);
    assert ByteLen(Itoa(p)) <= 20;
    SettingRead("Port", Itoa(p));
  }

  lemma SimpleLine(key: string, value: string)
    requires Simple(key) && Simple(value)
    ensures LineRead(Setting(key, value), [key, value])
  {
    hide ByteLen, Words, GoodLine, Plain, NoBreak, Setting, LineRead;
    SimplePlain(value);
    SettingRead(key, value);
  }

  lemma OnlyLine()
    ensures LineRead(Setting("IdentitiesOnly", "yes"), ["IdentitiesOnly", "yes"])
  {
    hide LineRead;
    SimpleLine("IdentitiesOnly", "yes");
  }

  lemma IntervalLine()
    ensures LineRead(Setting("ServerAliveInterval", "30"), ["ServerAliveInterval", "30"])
  {
    hide LineRead;
    SimpleLine("ServerAliveInterval", "30");
  }

  lemma CountLine()
    ensures LineRead(Setting("ServerAliveCountMax", "3"), ["ServerAliveCountMax", "3"])
  {
    hide LineRead;
    SimpleLine("ServerAliveCountMax", "3");
  }

  lemma ExitLine()
    ensures LineRead(Setting("ExitOnForwardFailure", "yes"), ["ExitOnForwardFailure", "yes"])
  {
    hide LineRead;
    SimpleLine("ExitOnForwardFailure", "yes");
  }

  lemma JumpLine(hops: seq<string>)
    requires hops != [] && |hops| <= 16 && forall h <- hops :: AliasWord(h) && |h| <= 100
    ensures LineRead(Setting("ProxyJump", Join(hops, ",")), ["ProxyJump", Join(hops, ",")])
  {
    hide *;
    JumpWord();
    JoinPlain(hops);
    JoinBytes(hops);
    SettingRead("ProxyJump", Join(hops, ","));
  }

  lemma JumpWord()
    ensures Simple("ProxyJump")
  {
  }

  lemma JoinBytes(hops: seq<string>)
    requires |hops| <= 16 && |Join(hops, ",")| <= 101 * |hops|
    ensures ByteLen(Join(hops, ",")) < 100000
  {
    hide ByteLen, Join;
    assert ByteLen(Join(hops, ",")) <= 4 * |Join(hops, ",")|;
  }

  /** A host whose block can be read. */
  ghost predicate Writable(printable: Printable, h: M.Host) {
    M.ValidHost(h) && Legible(printable, h.username)
  }

  predicate FileText(file: string) {
    && file != "" && |file| < 1000
    && forall i :: 0 <= i < |file| ==> ' ' <= file[i] <= '~' && file[i] != '"' && file[i] != '\\'
  }

  lemma ValidHostParts(h: M.Host)
    requires M.ValidHost(h)
    ensures ByteLen(h.name) <= 160 && Address(h.address) && 1 <= h.port <= 65535
    ensures h.username != "" && '\\' !in h.username && NoBreak(h.username) && ByteLen(h.username) <= 160
  {
    hide ByteLen, Address, Ip6;
    forall i | 0 <= i < |h.username| ensures h.username[i] != '\\' && h.username[i] != '\n' && h.username[i] != '\r' {
      assert h.username[i] !in " \t@/\\" && h.username[i] !in "\0\r\n";
    }
  }

  /** The lines of a block that depend on the host. */
  lemma HeadLines(printable: Printable, h: M.Host, alias: string, file: string)
    requires M.ValidHost(h) && PrintsAscii(printable) && FileText(file)
    requires AliasWord(alias) && |alias| <= 100
    ensures LineRead("# " + Comment(h.name), [])
    ensures LineRead("Host" + " " + alias, ["Host", alias])
    ensures LineRead(Setting("HostName", h.address), ["HostName", h.address])
    ensures LineRead(Setting("Port", Itoa(h.port)), ["Port", Itoa(h.port)])
    ensures GoodLine(UserLine(printable, h.username))
    ensures LineRead(Setting("IdentityFile", Quote(printable, file)), ["IdentityFile", file])
  {
    hide ByteLen, Words, GoodLine, NoBreak, Address, AliasWord, Comment, Quote, M.ValidHost, Itoa, Avoids, Setting, UserLine;
    ValidHostParts(h);
    CommentLine(h.name);
    NamedLine(alias);
    AddressLine(h.address);
    PortLine(h.port);
    UserLineGood(printable, h.username);
    FileLine(printable, file);
  }

  /** The user line is read as the keyword and what the reader makes of the name. */
  lemma UserLineRead(printable: Printable, h: M.Host)
    requires Writable(printable, h)
    ensures LineRead(Setting("User", Quote(printable, Doubled(h.username))), ["User"] + UserWords(printable, h.username))
    ensures UserWords(printable, h.username) != [] && ReadUser(printable, h.username) != ""
  {
    hide ByteLen, Words, GoodLine, NoBreak, M.ValidHost, Legible, UserWords;
    ValidHostParts(h);
    UserLineGood(printable, h.username);
    UserRead(printable, h.username);
    hide Setting, Quote, Doubled;
  }

  lemma ReadAsOne(line: string, words: seq<string>)
    requires LineRead(line, words)
    ensures ReadAs([line], [words])
  {
    hide GoodLine, Words;
  }

  lemma ReadAsThree(a: string, b: string, c: string, u: seq<string>, v: seq<string>, w: seq<string>)
    requires LineRead(a, u) && LineRead(b, v) && LineRead(c, w)
    ensures ReadAs([a, b, c], [u, v, w])
  {
    hide GoodLine, Words;
  }

  lemma WritableHost(printable: Printable, h: M.Host)
    requires Writable(printable, h)
    ensures M.ValidHost(h)
  {
  }

  /** The lines that every block has. */
  lemma FixedLinesRead(s: M.State, tag: string, printable: Printable, h: M.Host, alias: string)
    requires Writable(printable, h) && PrintsAscii(printable) && FileText(KeyFile(tag, KeyNameOf(s, h.keyId)))
    requires AliasWord(alias) && |alias| <= 100
    ensures ReadAs(HostLines(s, tag, printable, h, alias, []),
                   [[], ["Host", alias]] + HostWords(h.address, Itoa(h.port), UserWords(printable, h.username), KeyFile(tag, KeyNameOf(s, h.keyId)), []))
  {
    hide *;
    var file, user := KeyFile(tag, KeyNameOf(s, h.keyId)), UserWords(printable, h.username);
    WritableHost(printable, h);
    HeadLines(printable, h, alias, file);
    UserLineRead(printable, h);
    OnlyLine();
    IntervalLine();
    CountLine();
    var a, b, c := "# " + Comment(h.name), "Host" + " " + alias, Setting("HostName", h.address);
    var d, e, f := Setting("Port", Itoa(h.port)), Setting("User", Quote(printable, Doubled(h.username))), Setting("IdentityFile", Quote(printable, file));
    var g, i, j := Setting("IdentitiesOnly", "yes"), Setting("ServerAliveInterval", "30"), Setting("ServerAliveCountMax", "3");
    ReadAsThree(a, b, c, [], ["Host", alias], ["HostName", h.address]);
    ReadAsThree(d, e, f, ["Port", Itoa(h.port)], ["User"] + user, ["IdentityFile", file]);
    ReadAsThree(g, i, j, ["IdentitiesOnly", "yes"], ["ServerAliveInterval", "30"], ["ServerAliveCountMax", "3"]);
    NineLines(a, b, c, d, e, f, g, i, j, alias, h.address, Itoa(h.port), user, file);
    FixedLines(s, tag, printable, h, alias);
  }

  lemma FixedLines(s: M.State, tag: string, printable: Printable, h: M.Host, alias: string)
    ensures HostLines(s, tag, printable, h, alias, []) ==
      ["# " + Comment(h.name), "Host" + " " + alias, Setting("HostName", h.address), Setting("Port", Itoa(h.port)),
       Setting("User", Quote(printable, Doubled(h.username))), Setting("IdentityFile", Quote(printable, KeyFile(tag, KeyNameOf(s, h.keyId)))),
       Setting("IdentitiesOnly", "yes"), Setting("ServerAliveInterval", "30"), Setting("ServerAliveCountMax", "3")]
  {
    hide Comment, Quote, Doubled, KeyFile, KeyNameOf, Itoa, Setting;
  }

  lemma RoutedLines(s: M.State, tag: string, printable: Printable, h: M.Host, alias: string, hops: seq<string>)
    requires hops != []
    ensures HostLines(s, tag, printable, h, alias, hops) ==
      HostLines(s, tag, printable, h, alias, []) + [Setting("ProxyJump", Join(hops, ","))]
  {
    hide Comment, Quote, Doubled, KeyFile, KeyNameOf, Itoa, Setting, Join;
  }

  lemma RoutedWords(alias: string, address: string, port: string, user: seq<string>, file: string, hops: seq<string>)
    requires hops != []
    ensures [[], ["Host", alias]] + HostWords(address, port, user, file, hops) ==
      [[], ["Host", alias]] + HostWords(address, port, user, file, []) + [["ProxyJump", Join(hops, ",")]]
  {
    hide Join;
  }

  /** The lines of one exported host. */
  lemma HostLinesRead(s: M.State, tag: string, printable: Printable, h: M.Host, alias: string, hops: seq<string>)
    requires Writable(printable, h) && PrintsAscii(printable) && FileText(KeyFile(tag, KeyNameOf(s, h.keyId)))
    requires AliasWord(alias) && |alias| <= 100
    requires |hops| <= 16 && forall a <- hops :: AliasWord(a) && |a| <= 100
    ensures ReadAs(HostLines(s, tag, printable, h, alias, hops),
                   [[], ["Host", alias]] + HostWords(h.address, Itoa(h.port), UserWords(printable, h.username), KeyFile(tag, KeyNameOf(s, h.keyId)), hops))
  {
    hide *;
    FixedLinesRead(s, tag, printable, h, alias);
    if hops != [] {
      var port, user, file := Itoa(h.port), UserWords(printable, h.username), KeyFile(tag, KeyNameOf(s, h.keyId));
      JumpLine(hops);
      ReadAsOne(Setting("ProxyJump", Join(hops, ",")), ["ProxyJump", Join(hops, ",")]);
      ReadAsConcat(HostLines(s, tag, printable, h, alias, []), [Setting("ProxyJump", Join(hops, ","))],
                   [[], ["Host", alias]] + HostWords(h.address, port, user, file, []), [["ProxyJump", Join(hops, ",")]]);
      RoutedLines(s, tag, printable, h, alias, hops);
      RoutedWords(alias, h.address, port, user, file, hops);
    }
  }

  lemma NineLines(a: string, b: string, c: string, d: string, e: string, f: string, g: string, i: string, j: string,
                  alias: string, address: string, port: string, user: seq<string>, file: string)
    requires ReadAs([a, b, c], [[], ["Host", alias], ["HostName", address]])
    requires ReadAs([d, e, f], [["Port", port], ["User"] + user, ["IdentityFile", file]])
    requires ReadAs([g, i, j], [["IdentitiesOnly", "yes"], ["ServerAliveInterval", "30"], ["ServerAliveCountMax", "3"]])
    ensures ReadAs([a, b, c, d, e, f, g, i, j], [[], ["Host", alias]] + HostWords(address, port, user, file, []))
  {
    hide ReadAs;
    var u: seq<seq<string>> := [[], ["Host", alias], ["HostName", address]];
    var v := [["Port", port], ["User"] + user, ["IdentityFile", file]];
    var w := [["IdentitiesOnly", "yes"], ["ServerAliveInterval", "30"], ["ServerAliveCountMax", "3"]];
    ReadAsConcat([a, b, c], [d, e, f], u, v);
    ReadAsConcat([a, b, c] + [d, e, f], [g, i, j], u + v, w);
    assert [a, b, c] + [d, e, f] + [g, i, j] == [a, b, c, d, e, f, g, i, j];
    assert u + v + w == [[], ["Host", alias]] + HostWords(address, port, user, file, []);
  }

  lemma NineGood(a: string, b: string, c: string, d: string, e: string, f: string, g: string, i: string, j: string)
    requires GoodLine(a) && GoodLine(b) && GoodLine(c) && GoodLine(d) && GoodLine(e)
    requires GoodLine(f) && GoodLine(g) && GoodLine(i) && GoodLine(j)
    ensures forall l <- [a, b, c, d, e, f, g, i, j] :: GoodLine(l)
    ensures e in [a, b, c, d, e, f, g, i, j]
  {
    hide GoodLine;
  }

  lemma ReadGood(line: string, words: seq<string>)
    requires LineRead(line, words)
    ensures GoodLine(line)
  {
    hide GoodLine, Words;
  }

  lemma FixedLinesGood(s: M.State, tag: string, printable: Printable, h: M.Host, alias: string)
    requires M.ValidHost(h) && PrintsAscii(printable) && FileText(KeyFile(tag, KeyNameOf(s, h.keyId)))
    requires AliasWord(alias) && |alias| <= 100
    ensures forall l <- HostLines(s, tag, printable, h, alias, []) :: GoodLine(l)
    ensures Setting("User", Quote(printable, Doubled(h.username))) in HostLines(s, tag, printable, h, alias, [])
  {
    assert UserLine(printable, h.username) == Setting("User", Quote(printable, Doubled(h.username)));
    hide *;
    var file := KeyFile(tag, KeyNameOf(s, h.keyId));
    HeadLines(printable, h, alias, file);
    OnlyLine();
    IntervalLine();
    CountLine();
    ReadGood("# " + Comment(h.name), []);
    ReadGood("Host" + " " + alias, ["Host", alias]);
    ReadGood(Setting("HostName", h.address), ["HostName", h.address]);
    ReadGood(Setting("Port", Itoa(h.port)), ["Port", Itoa(h.port)]);
    ReadGood(Setting("IdentityFile", Quote(printable, file)), ["IdentityFile", file]);
    ReadGood(Setting("IdentitiesOnly", "yes"), ["IdentitiesOnly", "yes"]);
    ReadGood(Setting("ServerAliveInterval", "30"), ["ServerAliveInterval", "30"]);
    ReadGood(Setting("ServerAliveCountMax", "3"), ["ServerAliveCountMax", "3"]);
    NineGood("# " + Comment(h.name), "Host" + " " + alias, Setting("HostName", h.address), Setting("Port", Itoa(h.port)),
             Setting("User", Quote(printable, Doubled(h.username))), Setting("IdentityFile", Quote(printable, file)),
             Setting("IdentitiesOnly", "yes"), Setting("ServerAliveInterval", "30"), Setting("ServerAliveCountMax", "3"));
    FixedLines(s, tag, printable, h, alias);
  }

  /** They are good lines even when the user name cannot be read, and that name has a line among them. */
  lemma HostLinesGood(s: M.State, tag: string, printable: Printable, h: M.Host, alias: string, hops: seq<string>)
    requires M.ValidHost(h) && PrintsAscii(printable) && FileText(KeyFile(tag, KeyNameOf(s, h.keyId)))
    requires AliasWord(alias) && |alias| <= 100
    requires |hops| <= 16 && forall a <- hops :: AliasWord(a) && |a| <= 100
    ensures forall l <- HostLines(s, tag, printable, h, alias, hops) :: GoodLine(l)
    ensures UserLine(printable, h.username) in HostLines(s, tag, printable, h, alias, hops)
  {
    hide HostLines, Setting, Quote, Doubled, GoodLine, Join, FileText, AliasWord, M.ValidHost, LineRead;
    FixedLinesGood(s, tag, printable, h, alias);
    if hops != [] {
      JumpLine(hops);
      ReadGood(Setting("ProxyJump", Join(hops, ",")), ["ProxyJump", Join(hops, ",")]);
      RoutedLines(s, tag, printable, h, alias, hops);
    }
  }
}
