/**
 What the exported configuration says about tunnels and names, read back from its text.
 */
module Forwards {
  import opened Wrappers
  import opened Text
  import opened Records
  import opened M = Model
  import opened Store
  import opened Tokens
  import opened Parser
  import opened MacExport
  import opened Blocks
  import opened ExportLines
  import opened ExportBlocks
  import opened ExportText
  import opened ExportParse
  import N = Readings

  // ---------------------------------------------------------------- targets

  /** A host and a port written together can be told apart again: at the last colon, with brackets
      around a host that has colons itself. */
  ghost predicate Target(text: string, host: string, port: int) {
    exists k: nat :: k < |text| && text[k] == ':' && ':' !in text[k + 1..]
      && Atoi(text[k + 1..]) == Some(port)
      && text[..k] == if ':' in host then "[" + host + "]" else host
  }

  lemma DigitsNoColon(s: string)
    requires AllDigits(s)
    ensures ':' !in s
  {
  }

  lemma TargetRead(host: string, port: int)
    requires 0 <= port
    ensures Target(HostPort(host, port), host, port)
  {
    var front := if ':' in host then "[" + host + "]" else host;
    var text := HostPort(host, port);
    DigitsNoColon(Itoa(port));
    AtoiItoa(port);
    assert text == front + ":" + Itoa(port);
    hide Atoi, Digits;
    var k := |front|;
    assert text[k] == ':' && text[k + 1..] == Itoa(port) && text[..k] == front;
  }

  // ---------------------------------------------------------------- forwardings

  lemma ForwardKeys(from: string, to: string)
    ensures AllDirectives(ForwardWords(from, to)) && KeyWords(ForwardWords(from, to)) == ["localforward", "exitonforwardfailure"]
  {
    LowerRoute();
    hide Lower;
    assert "localforward"[0] == 'l' && "exitonforwardfailure"[0] == 'e';
  }

  /** The value of `localforward` in the block of a tunnel. */
  lemma ForwardValue(classes: Classes, b: Block, address: string, port: string, user: seq<string>, file: string, hops: seq<string>, from: string, to: string)
    requires GoodBlock(b) && user != [] && b.words == HostWords(address, port, user, file, hops) + ForwardWords(from, to)
    ensures Value(classes, OneBlock(b), b.alias, "localforward") == from + " " + to
    ensures Value(classes, OneBlock(b), b.alias, "exitonforwardfailure") == "yes"
  {
    hide Lower, Value, GoodBlock, Join, IsDirective;
    var first := HostWords(address, port, user, file, hops);
    HostDirectives(address, port, user, file, hops);
    ForwardKeys(from, to);
    KeysConcat(first, ForwardWords(from, to));
    ForwardApart();
    var keys, n := KeyWords(b.words), |first|;
    assert keys == KeyWords(first) + ["localforward", "exitonforwardfailure"];
    assert forall j :: 0 <= j < n ==> keys[j] == KeyWords(first)[j] && keys[j] in KeyWords(first);
    BlockValue(classes, b, n);
    BlockValue(classes, b, n + 1);
    assert b.words[n][1..] == [from, to] && b.words[n + 1][1..] == ["yes"];
    JoinTwo(from, to);
    JoinOne("yes");
  }

  lemma ForwardApart()
    ensures "localforward" !in HOST_KEYS + ["proxyjump"] && "exitonforwardfailure" !in HOST_KEYS + ["proxyjump"]
    ensures "localforward" !in HOST_KEYS && "exitonforwardfailure" !in HOST_KEYS && "localforward" != "exitonforwardfailure"
  {
    var keys := HOST_KEYS + ["proxyjump"];
    assert forall k <- keys :: k[0] != 'l' && k[0] != 'e';
    assert "localforward"[0] == 'l' && "exitonforwardfailure"[0] == 'e';
  }

  lemma JoinTwo(a: string, b: string)
    ensures Join([a, b], " ") == a + " " + b
  {
    assert [a, b][..1] == [a];
  }

  /** The reading of an exported text. */
  lemma ExportReading(s: State, tag: string, printable: Printable) returns (patterns: seq<string>)
    requires Exportable(s, tag, printable) && AllLegible(s, printable)
    ensures TunnelsPlaced(s) && GoodBlocks(ExportBlocksOf(s, tag, printable)) && Exported(s, tag, printable).Ok?
    ensures var blocks := ExportBlocksOf(s, tag, printable);
      && (forall j :: 0 <= j < |blocks| ==> GoodBlock(blocks[j]))
      && FeedLines(NOTHING, RawLines(Exported(s, tag, printable).value)) ==
           Some(Reading(patterns, false, false, BlockDirectives(blocks), BlockAliases(blocks)))
  {
    hide *;
    ExportIds(s, tag, printable);
    MaskedValid(s);
    ConfigRead(s, tag, printable);
    ExportedIs(s, tag, printable);
    var lines, blocks := ConfigLines(s, tag, printable).value, ExportBlocksOf(s, tag, printable);
    ExportBlocksGood(s, tag, printable);
    BlocksAllGood(blocks);
    ReadAsGood(lines, AllWords(blocks));
    RawUnlines(lines);
    FeedGoodLines(lines, AllWords(blocks));
    patterns := FeedBlocks(blocks);
  }

  lemma TunnelForward(s: State, tag: string, printable: Printable, classes: Classes, i: nat)
    requires Exportable(s, tag, printable) && AllLegible(s, printable) && TunnelsPlaced(s) && i < |s.tunnels|
    requires GoodBlocks(ExportBlocksOf(s, tag, printable)) && |ExportBlocksOf(s, tag, printable)| == |s.hosts| + |s.tunnels|
    ensures var b := ExportBlocksOf(s, tag, printable)[|s.hosts| + i];
      && b.alias == TunnelAlias(tag, i) && GoodBlock(b)
      && Value(classes, OneBlock(b), b.alias, "localforward") == ForwardFrom(s.tunnels[i]) + " " + ForwardTo(s.tunnels[i])
      && Value(classes, OneBlock(b), b.alias, "exitonforwardfailure") == "yes"
  {
    hide *;
    ExportIds(s, tag, printable);
    var k := |s.hosts| + i;
    BlocksAllGood(ExportBlocksOf(s, tag, printable));
    BlockNo(s, tag, printable, k);
    BlockHostStored(s, k);
    var b, h := ExportBlocksOf(s, tag, printable)[k], BlockHost(s, k);
    HostReady(s, tag, printable, h);
    UserLineRead(printable, h);
    HostBlockWords(s, tag, printable, h, b.alias);
    TunnelNo(s, tag, i);
    ForwardValue(classes, b, h.address, Itoa(h.port), UserWords(printable, h.username), FileOf(s, tag, h), HopsOf(s, tag, h),
                 ForwardFrom(s.tunnels[i]), ForwardTo(s.tunnels[i]));
  }

  lemma TunnelNo(s: State, tag: string, i: nat)
    requires i < |s.tunnels|
    ensures AliasNo(s, tag, |s.hosts| + i) == TunnelAlias(tag, i)
    ensures BlockExtra(s, |s.hosts| + i) == ForwardWords(ForwardFrom(s.tunnels[i]), ForwardTo(s.tunnels[i]))
  {
    hide TunnelAlias, HostAlias, ForwardWords, ForwardFrom, ForwardTo;
  }

  /** Every tunnel's forwarding can be read back from the exported text: under the tunnel's alias it
      names the local port on this machine and a target with the remote host and port, and a failing
      forwarding ends the connection. */
  lemma ForwardsExported(s: State, tag: string, printable: Printable, classes: Classes, i: nat)
    requires Exportable(s, tag, printable) && AllLegible(s, printable) && i < |s.tunnels|
    ensures Exported(s, tag, printable).Ok?
    ensures var raws, t := RawLines(Exported(s, tag, printable).value), s.tunnels[i];
      && N.Readable(raws)
      && N.Given(classes, N.AllLineWords(raws), TunnelAlias(tag, i), "exitonforwardfailure") == "yes"
      && exists target ::
           && N.Given(classes, N.AllLineWords(raws), TunnelAlias(tag, i), "localforward") == "127.0.0.1:" + Itoa(t.localPort) + " " + target
           && Target(target, t.remoteHost, t.remotePort)
  {
    hide *;
    var patterns := ExportReading(s, tag, printable);
    var blocks, raws, t := ExportBlocksOf(s, tag, printable), RawLines(Exported(s, tag, printable).value), s.tunnels[i];
    ExportBlocksGood(s, tag, printable);
    TunnelForward(s, tag, printable, classes, i);
    OwnValues(classes, blocks, |s.hosts| + i, "localforward");
    OwnValues(classes, blocks, |s.hosts| + i, "exitonforwardfailure");
    N.LinesFed(raws);
    FedWords(raws);
    SectionKeys();
    N.ValueGiven(classes, N.AllLineWords(raws), TunnelAlias(tag, i), "localforward");
    N.ValueGiven(classes, N.AllLineWords(raws), TunnelAlias(tag, i), "exitonforwardfailure");
    ExportIds(s, tag, printable);
    TunnelPorts(s, i);
    TargetRead(t.remoteHost, t.remotePort);
    FromTo(t);
  }

  lemma FedWords(raws: seq<string>)
    requires FeedLines(NOTHING, raws).Some?
    ensures N.Readable(raws) && FeedLines(NOTHING, raws) == Some(FeedAll(NOTHING, N.AllLineWords(raws)))
  {
    N.LinesFed(raws);
    hide FeedLines, FeedAll, N.Readable;
  }

  lemma SectionKeys()
    ensures "localforward" != "host" && "localforward" != "match" && "exitonforwardfailure" != "host" && "exitonforwardfailure" != "match"
  {
    assert |"localforward"| == 12 && |"exitonforwardfailure"| == 20;
  }

  lemma TunnelPorts(s: State, i: nat)
    requires Valid(s) && i < |s.tunnels|
    ensures 1 <= s.tunnels[i].localPort <= 65535 && 1 <= s.tunnels[i].remotePort <= 65535
  {
    TunnelReady(s, i);
    hide Valid, Address, Name;
  }

  lemma FromTo(t: M.Tunnel)
    ensures ForwardFrom(t) + " " + ForwardTo(t) == "127.0.0.1:" + Itoa(t.localPort) + " " + HostPort(t.remoteHost, t.remotePort)
  {
    hide HostPort, Itoa;
  }

  // ---------------------------------------------------------------- options

  lemma OptionValues(classes: Classes, b: Block, address: string, port: string, user: seq<string>, file: string, hops: seq<string>,
                     extra: seq<seq<string>>)
    requires GoodBlock(b) && user != [] && Extra(extra) && b.words == HostWords(address, port, user, file, hops) + extra
    ensures Value(classes, OneBlock(b), b.alias, "identitiesonly") == "yes"
    ensures Value(classes, OneBlock(b), b.alias, "serveraliveinterval") == "30"
    ensures Value(classes, OneBlock(b), b.alias, "serveralivecountmax") == "3"
  {
    hide Lower, Value, GoodBlock, Join, IsDirective;
    var first := HostWords(address, port, user, file, hops);
    HostDirectives(address, port, user, file, hops);
    ExtraDirectives(extra);
    KeysConcat(first, extra);
    OptionsApart();
    var keys := KeyWords(b.words);
    assert keys[..7] == HOST_KEYS;
    assert forall j :: 0 <= j < 7 ==> keys[j] == HOST_KEYS[j];
    BlockValue(classes, b, 4);
    BlockValue(classes, b, 5);
    BlockValue(classes, b, 6);
    assert b.words[4][1..] == ["yes"] && b.words[5][1..] == ["30"] && b.words[6][1..] == ["3"];
    JoinOne("yes");
    JoinOne("30");
    JoinOne("3");
  }

  lemma OptionsApart()
    ensures forall i, j :: 0 <= j < i < |HOST_KEYS| ==> HOST_KEYS[i] != HOST_KEYS[j]
    ensures HOST_KEYS[4] == "identitiesonly" && HOST_KEYS[5] == "serveraliveinterval" && HOST_KEYS[6] == "serveralivecountmax"
  {
    var lengths := seq(7, i requires 0 <= i < 7 => |HOST_KEYS[i]|);
    assert lengths == [8, 4, 4, 12, 14, 19, 19];
    assert "port"[0] == 'p' && "user"[0] == 'u' && "serveraliveinterval"[11] == 'i' && "serveralivecountmax"[11] == 'c';
  }

  /** Every host and every tunnel of the exported text is reached with its own key alone and with a
      keepalive every 30 seconds, of which three may be missed. */
  lemma OptionsExported(s: State, tag: string, printable: Printable, classes: Classes, i: nat)
    requires Exportable(s, tag, printable) && AllLegible(s, printable) && i < |s.hosts| + |s.tunnels|
    ensures Exported(s, tag, printable).Ok?
    ensures var raws := RawLines(Exported(s, tag, printable).value);
      var alias := if i < |s.hosts| then HostAlias(tag, i) else TunnelAlias(tag, i - |s.hosts|);
      && N.Readable(raws)
      && N.Given(classes, N.AllLineWords(raws), alias, "identitiesonly") == "yes"
      && N.Given(classes, N.AllLineWords(raws), alias, "serveraliveinterval") == "30"
      && N.Given(classes, N.AllLineWords(raws), alias, "serveralivecountmax") == "3"
  {
    hide *;
    AliasIs(s, tag, i);
    Options();
    OptionExported(s, tag, printable, classes, i, "identitiesonly");
    OptionExported(s, tag, printable, classes, i, "serveraliveinterval");
    OptionExported(s, tag, printable, classes, i, "serveralivecountmax");
  }

  predicate IsOption(key: string) { key == "identitiesonly" || key == "serveraliveinterval" || key == "serveralivecountmax" }

  function OptionOf(key: string): string {
    if key == "identitiesonly" then "yes" else if key == "serveraliveinterval" then "30" else "3"
  }

  lemma AliasIs(s: State, tag: string, i: nat)
    ensures AliasNo(s, tag, i) == if i < |s.hosts| then HostAlias(tag, i) else TunnelAlias(tag, i - |s.hosts|)
  {
    hide HostAlias, TunnelAlias;
  }

  lemma OptionExported(s: State, tag: string, printable: Printable, classes: Classes, i: nat, key: string)
    requires Exportable(s, tag, printable) && AllLegible(s, printable) && i < |s.hosts| + |s.tunnels| && IsOption(key)
    ensures Exported(s, tag, printable).Ok?
    ensures var raws := RawLines(Exported(s, tag, printable).value);
      N.Readable(raws) && N.Given(classes, N.AllLineWords(raws), AliasNo(s, tag, i), key) == OptionOf(key)
  {
    hide *;
    var patterns := ExportReading(s, tag, printable);
    var raws, blocks := RawLines(Exported(s, tag, printable).value), ExportBlocksOf(s, tag, printable);
    BlockOptions(s, tag, printable, classes, i, key);
    OwnValues(classes, blocks, i, key);
    FedWords(raws);
    OptionKey(key);
    N.ValueGiven(classes, N.AllLineWords(raws), AliasNo(s, tag, i), key);
  }

  lemma OptionKey(key: string)
    requires IsOption(key)
    ensures key != "host" && key != "match"
  {
    assert key[0] == 'i' || key[0] == 's';
    assert "host"[0] == 'h' && "match"[0] == 'm';
  }

  lemma BlockOptions(s: State, tag: string, printable: Printable, classes: Classes, i: nat, key: string)
    requires Exportable(s, tag, printable) && AllLegible(s, printable) && TunnelsPlaced(s) && i < |s.hosts| + |s.tunnels|
    requires GoodBlocks(ExportBlocksOf(s, tag, printable)) && IsOption(key)
    ensures |ExportBlocksOf(s, tag, printable)| == |s.hosts| + |s.tunnels|
    ensures var b := ExportBlocksOf(s, tag, printable)[i];
      b.alias == AliasNo(s, tag, i) && GoodBlock(b) && Value(classes, OneBlock(b), b.alias, key) == OptionOf(key)
  {
    hide *;
    ExportIds(s, tag, printable);
    BlockNo(s, tag, printable, i);
    BlocksAllGood(ExportBlocksOf(s, tag, printable));
    BlockHostStored(s, i);
    var b, h := ExportBlocksOf(s, tag, printable)[i], BlockHost(s, i);
    HostReady(s, tag, printable, h);
    UserLineRead(printable, h);
    HostBlockWords(s, tag, printable, h, b.alias);
    OptionValues(classes, b, h.address, Itoa(h.port), UserWords(printable, h.username), FileOf(s, tag, h), HopsOf(s, tag, h), BlockExtra(s, i));
    OptionIs(key);
  }

  lemma Options()
    ensures IsOption("identitiesonly") && IsOption("serveraliveinterval") && IsOption("serveralivecountmax")
    ensures OptionOf("identitiesonly") == "yes" && OptionOf("serveraliveinterval") == "30" && OptionOf("serveralivecountmax") == "3"
  {
    OptionIs("identitiesonly");
    OptionIs("serveraliveinterval");
    OptionIs("serveralivecountmax");
  }

  lemma OptionIs(key: string)
    requires IsOption(key)
    ensures key == "identitiesonly" ==> OptionOf(key) == "yes"
    ensures key == "serveraliveinterval" ==> OptionOf(key) == "30"
    ensures key == "serveralivecountmax" ==> OptionOf(key) == "3"
    ensures key == "identitiesonly" || key == "serveraliveinterval" || key == "serveralivecountmax"
  {
    assert "identitiesonly"[0] == 'i' && "serveraliveinterval"[11] == 'i' && "serveralivecountmax"[11] == 'c';
  }

  // ---------------------------------------------------------------- names

  lemma {:induction false} CommentWhole(name: string)
    requires '\r' !in name && '\n' !in name && '\0' !in name
    ensures Comment(name) == name
  {
    if name != "" {
      var n := |name| - 1;
      assert name == name[..n] + [name[n]];
      CommentWhole(name[..n]);
    }
  }

  lemma StoredName(h: M.Host)
    requires M.ValidHost(h)
    ensures Comment(h.name) == h.name
  {
    hide ByteLen, Address, Blank;
    assert "\0\r\n"[0] == '\0' && "\0\r\n"[1] == '\r' && "\0\r\n"[2] == '\n';
    CommentWhole(h.name);
  }

  lemma BlockNames(s: State, tag: string, printable: Printable, h: M.Host, alias: string)
    requires M.ValidHost(h) && HostBlock(s, tag, printable, h, alias).Some?
    ensures ("# " + h.name) in HostBlock(s, tag, printable, h, alias).value
  {
    StoredName(h);
    hide M.ValidHost, Comment, Setting, Quote, Doubled, KeyFile, KeyNameOf, Itoa, M.Route, HopAliases;
    assert HostBlock(s, tag, printable, h, alias).value[0] == "# " + Comment(h.name);
  }

  lemma {:induction false} HostNamesWritten(s: State, tag: string, printable: Printable, n: nat, i: nat)
    requires i < n <= |s.hosts| && M.ValidHost(s.hosts[i]) && HostBlocks(s, tag, printable, n).Some?
    ensures ("# " + s.hosts[i].name) in HostBlocks(s, tag, printable, n).value
  {
    hide HostBlock, M.ValidHost, AliasOf;
    var h := s.hosts[n - 1];
    if i == n - 1 {
      BlockNames(s, tag, printable, h, AliasOf(s, tag, h.id));
    } else {
      HostNamesWritten(s, tag, printable, n - 1, i);
    }
  }

  /** Every host is labelled with its own name in the exported text. */
  lemma NamesShown(s: State, tag: string, printable: Printable, i: nat)
    requires Exportable(s, tag, printable) && AllLegible(s, printable) && i < |s.hosts|
    ensures Exported(s, tag, printable).Ok? && ("# " + s.hosts[i].name) in RawLines(Exported(s, tag, printable).value)
  {
    hide *;
    ExportIds(s, tag, printable);
    MaskedValid(s);
    ConfigRead(s, tag, printable);
    ExportedIs(s, tag, printable);
    var lines, blocks := ConfigLines(s, tag, printable).value, ExportBlocksOf(s, tag, printable);
    ReadAsGood(lines, AllWords(blocks));
    RawUnlines(lines);
    HostReady(s, tag, printable, s.hosts[i]);
    NameWritten(s, tag, printable, i);
  }

  lemma NameWritten(s: State, tag: string, printable: Printable, i: nat)
    requires i < |s.hosts| && M.ValidHost(s.hosts[i]) && ConfigLines(s, tag, printable).Some?
    ensures ("# " + s.hosts[i].name) in ConfigLines(s, tag, printable).value
  {
    hide HostBlocks, TunnelBlocks, M.ValidHost;
    HostNamesWritten(s, tag, printable, |s.hosts|, i);
  }

  /** Numbers have two digits at least. */
  lemma ExportNames(tag: string, i: nat)
    ensures i < 9 ==> KeyFile(tag, KeyName(i)) == "~/.ssh/sshdesk/" + tag + "/" + ("key-" + ("0" + Itoa(i + 1)))
    ensures i >= 9 ==> KeyFile(tag, KeyName(i)) == "~/.ssh/sshdesk/" + tag + "/" + ("key-" + Itoa(i + 1))
    ensures i < 9 ==> HostAlias(tag, i) == "sshdesk-" + tag + "-host-" + ("0" + Itoa(i + 1))
    ensures i >= 9 ==> HostAlias(tag, i) == "sshdesk-" + tag + "-host-" + Itoa(i + 1)
    ensures i < 9 ==> TunnelAlias(tag, i) == "sshdesk-" + tag + "-tunnel-" + ("0" + Itoa(i + 1))
    ensures i >= 9 ==> TunnelAlias(tag, i) == "sshdesk-" + tag + "-tunnel-" + Itoa(i + 1)
  {
    hide Digits;
  }
}
