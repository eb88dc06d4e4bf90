/**
 Writing the stored hosts and tunnels as an OpenSSH configuration for another machine. Key files get
 neutral names, hosts get generated aliases, and routes become ProxyJump lists. The tag is derived
 from a digest of the exported state. The archive, guide and installer are not part of this model.
 */
module MacExport {
  import opened Wrappers
  import opened Text
  import opened Records
  import opened Model
  import opened Store
  import opened Tokens
  import opened Parser

  // ---------------------------------------------------------------- quoting

  function HexDigit(n: nat): char { if n % 16 < 10 then (('0' as int) + n % 16) as char else (('a' as int) + n % 16 - 10) as char }

  function Hex(n: nat, width: nat): string {
    if width == 0 then "" else Hex(n / 16, width - 1) + [HexDigit(n)]
  }

  /** The escape of a character that cannot be printed. */
  function Escape(c: char): (s: string)
    ensures s != "" && s[0] == '\\'
  {
    var n := c as int;
    if n == 7 then "\\a" else if n == 8 then "\\b" else if n == 12 then "\\f" else if n == 10 then "\\n"
    else if n == 13 then "\\r" else if n == 9 then "\\t" else if n == 11 then "\\v"
    else if n < 0x20 || n == 0x7F then "\\x" + Hex(n, 2)
    else if n < 0x1_0000 then "\\u" + Hex(n, 4)
    else "\\U" + Hex(n, 8)
  }

  /** Which characters count as printable is taken from the Unicode tables. */
  type Printable = char -> bool

  function QuoteChar(printable: Printable, c: char): string {
    if c == '"' || c == '\\' then ['\\', c] else if printable(c) then [c] else Escape(c)
  }

  function QuoteBody(printable: Printable, s: string): string {
    if s == "" then "" else QuoteBody(printable, s[..|s| - 1]) + QuoteChar(printable, s[|s| - 1])
  }

  /** The text in double quotes, with escapes. */
  function Quote(printable: Printable, s: string): string { "\"" + QuoteBody(printable, s) + "\"" }

  /** Percent signs are doubled. */
  function Doubled(s: string): string {
    if s == "" then "" else Doubled(s[..|s| - 1]) + if s[|s| - 1] == '%' then "%%" else [s[|s| - 1]]
  }

  /** Names are written into comment lines without line breaks. */
  function Comment(s: string): string {
    if s == "" then ""
    else
      var c := s[|s| - 1];
      Comment(s[..|s| - 1]) + if c == '\r' || c == '\n' then " " else if c == '\0' then "" else [c]
  }

  function HostPort(host: string, port: int): string {
    if ':' in host then "[" + host + "]:" + Itoa(port) else host + ":" + Itoa(port)
  }

  // ---------------------------------------------------------------- names

  function KeyName(i: nat): string { "key-" + Padded(i + 1) }
  function HostAlias(tag: string, i: nat): string { "sshdesk-" + tag + "-host-" + Padded(i + 1) }
  function TunnelAlias(tag: string, i: nat): string { "sshdesk-" + tag + "-tunnel-" + Padded(i + 1) }
  function KeyFile(tag: string, name: string): string { "~/.ssh/sshdesk/" + tag + "/" + name }

  /** The name a table filled in order gives to an identifier: that of the last such record, or "". */
  function TableName<T>(xs: seq<T>, id: T -> string, name: nat -> string, key: string): string {
    if xs == [] then ""
    else if id(xs[|xs| - 1]) == key then name(|xs| - 1)
    else TableName(xs[..|xs| - 1], id, name, key)
  }

  function AliasOf(s: State, tag: string, id: string): string { TableName(s.hosts, HostId, (i: nat) => HostAlias(tag, i), id) }

  function KeyNameOf(s: State, id: string): string { TableName(s.keys, KeyId, KeyName, id) }

  // ---------------------------------------------------------------- the text

  function Unlines(lines: seq<string>): string {
    if lines == [] then "" else Unlines(lines[..|lines| - 1]) + lines[|lines| - 1] + "\n"
  }

  const TITLE := " SSHDesk macOS OpenSSH configuration"
  const HINT := " Use with ssh -F; " + "existing ~/.ssh/config is preserved."
  const HEADER := ["#" + TITLE, "#" + HINT, ""]

  /** A keyword line of a block. */
  function Setting(key: string, value: string): string { INDENT + key + " " + value }

  /** The aliases of the hosts on the way, in connection order. */
  function HopAliases(s: State, tag: string, route: seq<Host>): (r: seq<string>)
    ensures |r| == |route|
  {
    seq(|route|, i requires 0 <= i < |route| => AliasOf(s, tag, route[i].id))
  }

  function HostLines(s: State, tag: string, printable: Printable, h: Host, alias: string, hops: seq<string>): seq<string> {
    ["# " + Comment(h.name), "Host" + " " + alias, Setting("HostName", h.address), Setting("Port", Itoa(h.port)),
     Setting("User", Quote(printable, Doubled(h.username))),
     Setting("IdentityFile", Quote(printable, KeyFile(tag, KeyNameOf(s, h.keyId)))),
     Setting("IdentitiesOnly", "yes"), Setting("ServerAliveInterval", "30"), Setting("ServerAliveCountMax", "3")]
    + if hops == [] then [] else [Setting("ProxyJump", Join(hops, ","))]
  }

  /** One host under an alias; None when its route does not resolve. */
  function HostBlock(s: State, tag: string, printable: Printable, h: Host, alias: string): Option<seq<string>> {
    match Route(s.hosts, h.id)
    case None => None
    case Some(route) =>
      if route == [] then None
      else Some(HostLines(s, tag, printable, h, alias, HopAliases(s, tag, route[..|route| - 1])))
  }

  function HostBlocks(s: State, tag: string, printable: Printable, n: nat): Option<seq<string>>
    requires n <= |s.hosts|
  {
    if n == 0 then Some([])
    else
      match (HostBlocks(s, tag, printable, n - 1), HostBlock(s, tag, printable, s.hosts[n - 1], AliasOf(s, tag, s.hosts[n - 1].id)))
      case (Some(before), Some(block)) => Some(before + block + [""])
      case _ => None
  }

  function TunnelLines(t: Tunnel): seq<string> {
    [Setting("LocalForward", "127.0.0.1:" + Itoa(t.localPort) + " " + HostPort(t.remoteHost, t.remotePort)),
     Setting("ExitOnForwardFailure", "yes"), ""]
  }

  function TunnelBlock(s: State, tag: string, printable: Printable, i: nat): Option<seq<string>>
    requires i < |s.tunnels|
  {
    match Find(s.hosts, HostId, s.tunnels[i].hostId)
    case None => None
    case Some(h) =>
      match HostBlock(s, tag, printable, h, TunnelAlias(tag, i))
      case None => None
      case Some(block) => Some(block + TunnelLines(s.tunnels[i]))
  }

  function TunnelBlocks(s: State, tag: string, printable: Printable, n: nat): Option<seq<string>>
    requires n <= |s.tunnels|
  {
    if n == 0 then Some([])
    else
      match (TunnelBlocks(s, tag, printable, n - 1), TunnelBlock(s, tag, printable, n - 1))
      case (Some(before), Some(block)) => Some(before + block)
      case _ => None
  }

  /** The state that is checked: without the sender's key paths and settings. */
  function Masked(s: State): State {
    s.(keys := seq(|s.keys|, i requires 0 <= i < |s.keys| => s.keys[i].(path := "recipient-key")), settings := NO_SETTINGS)
  }

  function ConfigLines(s: State, tag: string, printable: Printable): Option<seq<string>> {
    match (HostBlocks(s, tag, printable, |s.hosts|), TunnelBlocks(s, tag, printable, |s.tunnels|))
    case (Some(hosts), Some(tunnels)) => Some(HEADER + hosts + tunnels)
    case _ => None
  }

  /** The exported configuration. */
  function Exported(s: State, tag: string, printable: Printable): Result<string> {
    if !Valid(Masked(s)) then Err
    else
      match ConfigLines(s, tag, printable)
      case None => Err
      case Some(lines) => Ok(Unlines(lines))
  }

  // ---------------------------------------------------------------- the export as the program runs it

  lemma {:induction false} UnlinesConcat(a: seq<string>, b: seq<string>)
    ensures Unlines(a + b) == Unlines(a) + Unlines(b)
  {
    if b == [] {
      assert a + b == a;
    } else {
      var n := |b| - 1;
      UnlinesConcat(a, b[..n]);
      LastLine(a, b);
      RegroupLine(Unlines(a), Unlines(b[..n]), b[n]);
    }
  }

  lemma LastLine(a: seq<string>, b: seq<string>)
    requires b != []
    ensures (a + b)[..|a + b| - 1] == a + b[..|b| - 1] && (a + b)[|a + b| - 1] == b[|b| - 1]
  {
  }

  lemma RegroupLine(a: string, b: string, line: string)
    ensures a + b + line + "\n" == a + (b + line + "\n")
  {
  }

  lemma UnlinesOne(line: string)
    ensures Unlines([line]) == line + "\n"
  {
    assert [line][..0] == [];
  }

  method TableOf<T>(xs: seq<T>, id: T -> string, name: nat -> string) returns (table: map<string, string>)
    ensures forall key :: Get(table, key) == TableName(xs, id, name, key)
  {
    table := map[];
    for i := 0 to |xs|
      invariant forall key :: Get(table, key) == TableName(xs[..i], id, name, key)
    {
      assert xs[..i + 1][..i] == xs[..i];
      table := table[id(xs[i]) := name(i)];
    }
    assert xs[..|xs|] == xs;
  }

  /** The lines of one host, appended to the text. */
  method WriteHost(text: string, s: State, tag: string, printable: Printable, names: map<string, string>,
                   aliases: map<string, string>, h: Host, alias: string) returns (r: Option<string>, aborted: bool)
    requires forall key :: Get(names, key) == KeyNameOf(s, key)
    requires forall key :: Get(aliases, key) == AliasOf(s, tag, key)
    ensures r == match HostBlock(s, tag, printable, h, alias) { case None => None case Some(block) => Some(text + Unlines(block)) }
    ensures aborted <==> Route(s.hosts, h.id) == Some([])
  {
    hide Get, KeyNameOf, AliasOf, Quote, Comment, Doubled, Route, IsRoute, Unlines, Setting;
    var head := ["# " + Comment(h.name), "Host" + " " + alias, Setting("HostName", h.address), Setting("Port", Itoa(h.port)),
                 Setting("User", Quote(printable, Doubled(h.username))),
                 Setting("IdentityFile", Quote(printable, KeyFile(tag, Get(names, h.keyId)))),
                 Setting("IdentitiesOnly", "yes"), Setting("ServerAliveInterval", "30"), Setting("ServerAliveCountMax", "3")];
    var out := text + Unlines(head);
    var chain := Chain(s.hosts, h.id);
    if chain.None? {
      return None, false;
    }
    if chain.value == [] {
      return None, true;
    }
    var route := chain.value[..|chain.value| - 1];
    var hops: seq<string> := [];
    for i := 0 to |route|
      invariant |hops| == i && forall j :: 0 <= j < i ==> hops[j] == AliasOf(s, tag, route[j].id)
    {
      hops := hops + [Get(aliases, route[i].id)];
    }
    assert hops == HopAliases(s, tag, route);
    var tail := if |hops| > 0 then [Setting("ProxyJump", Join(hops, ","))] else [];
    UnlinesConcat(head, tail);
    out := out + Unlines(tail);
    assert text + (Unlines(head) + Unlines(tail)) == out;
    r, aborted := Some(out), false;
  }

  lemma HostBlocksFail(s: State, tag: string, printable: Printable, n: nat, m: nat)
    requires n <= m <= |s.hosts| && HostBlocks(s, tag, printable, n).None?
    ensures HostBlocks(s, tag, printable, m).None?
  {
    hide HostBlock, AliasOf;
    if n < m { HostBlocksFail(s, tag, printable, n, m - 1); }
  }

  lemma TunnelBlocksFail(s: State, tag: string, printable: Printable, n: nat, m: nat)
    requires n <= m <= |s.tunnels| && TunnelBlocks(s, tag, printable, n).None?
    ensures TunnelBlocks(s, tag, printable, m).None?
  {
    hide TunnelBlock;
    if n < m { TunnelBlocksFail(s, tag, printable, n, m - 1); }
  }

  method WriteHosts(s: State, tag: string, printable: Printable, names: map<string, string>, aliases: map<string, string>)
    returns (r: Option<string>, aborted: bool)
    requires forall key :: Get(names, key) == KeyNameOf(s, key)
    requires forall key :: Get(aliases, key) == AliasOf(s, tag, key)
    requires forall h <- s.hosts :: Route(s.hosts, h.id).Some?
    ensures aborted <==> r.None?
    ensures r == match HostBlocks(s, tag, printable, |s.hosts|) { case None => None case Some(b) => Some(Unlines(HEADER + b)) }
  {
    hide Get, KeyNameOf, AliasOf, HostBlock, Unlines, Route, HEADER;
    var text := Unlines(HEADER);
    assert HEADER + [] == HEADER;
    for i := 0 to |s.hosts|
      invariant HostBlocks(s, tag, printable, i).Some? && text == Unlines(HEADER + HostBlocks(s, tag, printable, i).value)
    {
      var h := s.hosts[i];
      ghost var before := HostBlocks(s, tag, printable, i).value;
      var more, stop := WriteHost(text, s, tag, printable, names, aliases, h, Get(aliases, h.id));
      if more.None? {
        HostBlocksFail(s, tag, printable, i + 1, |s.hosts|);
        assert h in s.hosts;
        NoBlock(s, tag, printable, h, AliasOf(s, tag, h.id));
        return None, stop;
      }
      ghost var block := HostBlock(s, tag, printable, h, AliasOf(s, tag, h.id)).value;
      AppendBlock(HEADER + before, block);
      assert HEADER + (before + block + [""]) == (HEADER + before) + block + [""];
      text := more.value + "\n";
    }
    r, aborted := Some(text), false;
  }

  /** With a route, only an empty one keeps a host from being written. */
  lemma NoBlock(s: State, tag: string, printable: Printable, h: Host, alias: string)
    requires Route(s.hosts, h.id).Some? && HostBlock(s, tag, printable, h, alias).None?
    ensures Route(s.hosts, h.id) == Some([])
  {
    hide Route, HostLines, HopAliases;
  }

  lemma AppendBlock(before: seq<string>, block: seq<string>)
    ensures Unlines(before + block + [""]) == Unlines(before) + Unlines(block) + "\n"
  {
    UnlinesConcat(before, block);
    UnlinesConcat(before + block, [""]);
    UnlinesOne("");
  }

  lemma AppendLines(above: seq<string>, before: seq<string>, block: seq<string>, tail: seq<string>)
    ensures Unlines(above + (before + (block + tail))) == Unlines(above + before) + Unlines(block) + Unlines(tail)
  {
    hide Unlines;
    UnlinesConcat(above + before, block);
    UnlinesConcat(above + before + block, tail);
    assert above + (before + (block + tail)) == (above + before) + block + tail;
  }

  method WriteTunnels(start: string, ghost above: seq<string>, s: State, tag: string, printable: Printable,
                      names: map<string, string>, aliases: map<string, string>) returns (r: Option<string>, aborted: bool)
    requires start == Unlines(above)
    requires forall h <- s.hosts :: Route(s.hosts, h.id).Some?
    ensures aborted ==> r.None?
    ensures r.None? ==> aborted || exists t <- s.tunnels :: !Has(s.hosts, HostId, t.hostId)
    requires forall key :: Get(names, key) == KeyNameOf(s, key)
    requires forall key :: Get(aliases, key) == AliasOf(s, tag, key)
    ensures r == match TunnelBlocks(s, tag, printable, |s.tunnels|) { case None => None case Some(b) => Some(Unlines(above + b)) }
  {
    hide Get, KeyNameOf, AliasOf, HostBlock, Unlines, IndexOf, TunnelLines, TunnelAlias, Route;
    var text := start;
    assert above + [] == above;
    for i := 0 to |s.tunnels|
      invariant TunnelBlocks(s, tag, printable, i).Some? && text == Unlines(above + TunnelBlocks(s, tag, printable, i).value)
    {
      var t := s.tunnels[i];
      ghost var before := TunnelBlocks(s, tag, printable, i).value;
      var h := Find(s.hosts, HostId, t.hostId);
      assert t in s.tunnels;
      if h.None? {
        TunnelBlocksFail(s, tag, printable, i + 1, |s.tunnels|);
        return None, false;
      }
      var more, stop := WriteHost(text, s, tag, printable, names, aliases, h.value, TunnelAlias(tag, i));
      if more.None? {
        TunnelBlocksFail(s, tag, printable, i + 1, |s.tunnels|);
        HasWitness(s.hosts, HostId, t.hostId);
        NoBlock(s, tag, printable, h.value, TunnelAlias(tag, i));
        return None, stop;
      }
      ghost var block := HostBlock(s, tag, printable, h.value, TunnelAlias(tag, i)).value;
      AppendLines(above, before, block, TunnelLines(t));
      text := more.value + Unlines(TunnelLines(t));
    }
    r, aborted := Some(text), false;
  }

  lemma CheckedExport(s: State)
    requires Valid(Masked(s))
    ensures forall h <- s.hosts :: Route(s.hosts, h.id).Some?
    ensures forall t <- s.tunnels :: Has(s.hosts, HostId, t.hostId)
  {
    hide ValidHost, ValidTunnel, ValidService, Route, IndexOf, ValidKey;
    forall h | h in s.hosts ensures Route(s.hosts, h.id).Some? { assert HostOk(Masked(s).keys, s.hosts, h); }
    forall t | t in s.tunnels ensures Has(s.hosts, HostId, t.hostId) { assert TunnelOk(s.hosts, t); }
  }

  /** The export as the program runs it. On a configuration that passes the check it can only fail by
      aborting the request, at a host whose route is empty. */
  method Export(s: State, tag: string, printable: Printable) returns (r: Result<string>, aborted: bool)
    ensures r == Exported(s, tag, printable)
    ensures aborted <==> Valid(Masked(s)) && r.Err?
  {
    hide Valid, HostBlocks, TunnelBlocks, Unlines, TableName, Get;
    var ok := Validate(Masked(s));
    if !ok {
      return Err, false;
    }
    CheckedExport(s);
    var names := TableOf(s.keys, KeyId, KeyName);
    var aliases := TableOf(s.hosts, HostId, (i: nat) => HostAlias(tag, i));
    assert forall key :: Get(aliases, key) == AliasOf(s, tag, key);
    var hosts, stop := WriteHosts(s, tag, printable, names, aliases);
    if hosts.None? {
      return Err, stop;
    }
    ghost var above := HEADER + HostBlocks(s, tag, printable, |s.hosts|).value;
    var text;
    text, stop := WriteTunnels(hosts.value, above, s, tag, printable, names, aliases);
    if text.None? {
      return Err, stop;
    }
    r, aborted := Ok(text.value), false;
  }
}
