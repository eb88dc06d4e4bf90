/**
 One exported block read back: its lines are the words they were written from, and the host they
 describe is the exported one.
 */
module ExportBlocks {
  import opened Wrappers
  import opened Text
  import opened Tokens
  import opened Importer
  import opened Parser
  import opened MacExport
  import opened ExportLines
  import opened Blocks

  function HostWords(address: string, port: string, user: seq<string>, file: string, hops: seq<string>): seq<seq<string>> {
    [["HostName", address], ["Port", port], ["User"] + user, ["IdentityFile", file], ["IdentitiesOnly", "yes"],
     ["ServerAliveInterval", "30"], ["ServerAliveCountMax", "3"]]
    + if hops == [] then [] else [["ProxyJump", Join(hops, ",")]]
  }

  function ForwardWords(from: string, to: string): seq<seq<string>> {
    [["LocalForward", from, to], ["ExitOnForwardFailure", "yes"]]
  }

  // ---------------------------------------------------------------- keywords

  lemma LowerWord(w: string, l: string)
    requires |w| == |l| && forall i :: 0 <= i < |w| ==> LowerChar(w[i]) == l[i]
    ensures Lower(w) == l
  {
  }

  lemma LowerShort()
    ensures Lower("HostName") == "hostname" && Lower("Port") == "port" && Lower("User") == "user"
  {
    LowerWord("HostName", "hostname");
    LowerWord("Port", "port");
    LowerWord("User", "user");
  }

  lemma LowerIdentity()
    ensures Lower("IdentityFile") == "identityfile" && Lower("IdentitiesOnly") == "identitiesonly"
  {
    LowerWord("IdentityFile", "identityfile");
    LowerWord("IdentitiesOnly", "identitiesonly");
  }

  lemma LowerAlive()
    ensures Lower("ServerAliveInterval") == "serveraliveinterval" && Lower("ServerAliveCountMax") == "serveralivecountmax"
  {
    LowerWord("ServerAliveInterval", "serveraliveinterval");
    LowerWord("ServerAliveCountMax", "serveralivecountmax");
  }

  lemma LowerRoute()
    ensures Lower("ProxyJump") == "proxyjump" && Lower("LocalForward") == "localforward"
    ensures Lower("ExitOnForwardFailure") == "exitonforwardfailure"
  {
    LowerWord("ProxyJump", "proxyjump");
    LowerWord("LocalForward", "localforward");
    LowerWord("ExitOnForwardFailure", "exitonforwardfailure");
  }

  /** The keywords of a block, in order. */
  function KeyWords(words: seq<seq<string>>): (r: seq<string>)
    requires AllDirectives(words)
    ensures |r| == |words| && forall i :: 0 <= i < |r| ==> r[i] == Lower(words[i][0])
  {
    seq(|words|, i requires 0 <= i < |words| => Lower(words[i][0]))
  }

  /** The value of a keyword in a block is that of its first line. */
  lemma BlockValue(classes: Classes, b: Block, i: nat)
    requires GoodBlock(b) && i < |b.words| && forall j :: 0 <= j < i ==> KeyWords(b.words)[j] != KeyWords(b.words)[i]
    ensures Value(classes, OneBlock(b), b.alias, KeyWords(b.words)[i]) == Join(b.words[i][1..], " ")
  {
    MatchLiteral(classes, b.alias, b.alias);
    hide Matching, AliasWord, Join, Lower, Value;
    FirstValueWins(classes, OneBlock(b), b.alias, KeyWords(b.words)[i], i);
  }

  lemma BlockNoValue(classes: Classes, b: Block, key: string)
    requires GoodBlock(b) && key !in KeyWords(b.words)
    ensures Value(classes, OneBlock(b), b.alias, key) == ""
  {
    hide Matching, AliasWord, Join, Lower, Value;
    NoValue(classes, OneBlock(b), b.alias, key);
  }

  const HOST_KEYS := ["hostname", "port", "user", "identityfile", "identitiesonly", "serveraliveinterval", "serveralivecountmax"]

  predicate Tail(keys: seq<string>) {
    forall k <- keys :: k == "proxyjump" || k == "localforward" || k == "exitonforwardfailure"
  }

  lemma TailApart(keys: seq<string>, key: string)
    requires Tail(keys)
    requires key == "hostname" || key == "port" || key == "user" || key == "identityfile"
      || key == "proxycommand" || key == "certificatefile" || key == "identityagent" || key == "include"
    ensures key !in keys
  {
    assert "localforward"[0] == 'l' && "identityfile"[0] == 'i' && "proxycommand"[0] == 'p';
  }

  lemma BlockingApart(key: string)
    requires key in BLOCKING
    ensures key == "proxycommand" || key == "certificatefile" || key == "identityagent" || key == "include"
    ensures key !in HOST_KEYS
  {
    assert "proxycommand"[0] == 'p' && "identityfile"[0] == 'i';
  }

  lemma HostKeysDistinct()
    ensures HOST_KEYS[1] != HOST_KEYS[0] && HOST_KEYS[2] != HOST_KEYS[0] && HOST_KEYS[2] != HOST_KEYS[1]
    ensures forall j :: 0 <= j < 3 ==> HOST_KEYS[j] != HOST_KEYS[3]
    ensures "proxyjump" !in HOST_KEYS
  {
    assert HOST_KEYS[1][0] == 'p' && HOST_KEYS[2][0] == 'u';
  }

  /** What one exported block says about its alias. */
  lemma HostValues(classes: Classes, b: Block, address: string, port: string, user: seq<string>, file: string, rest: seq<seq<string>>)
    requires GoodBlock(b) && b.words == HostWords(address, port, user, file, []) + rest && Tail(KeyWords(b.words)[7..])
    ensures Value(classes, OneBlock(b), b.alias, "hostname") == address
    ensures Value(classes, OneBlock(b), b.alias, "port") == port
    ensures Value(classes, OneBlock(b), b.alias, "user") == Join(user, " ")
    ensures Value(classes, OneBlock(b), b.alias, "identityfile") == file
    ensures forall key <- BLOCKING :: Value(classes, OneBlock(b), b.alias, key) == ""
  {
    LowerShort();
    LowerIdentity();
    LowerAlive();
    HostKeysDistinct();
    assert AllDirectives(b.words);
    hide Lower, Value, GoodBlock, Join, Tail;
    var keys := KeyWords(b.words);
    assert keys[..7] == HOST_KEYS;
    assert forall j :: 0 <= j < 7 ==> keys[j] == HOST_KEYS[j];
    BlockValue(classes, b, 0);
    BlockValue(classes, b, 1);
    BlockValue(classes, b, 2);
    BlockValue(classes, b, 3);
    assert b.words[0][1..] == [address] && b.words[1][1..] == [port] && b.words[2][1..] == user && b.words[3][1..] == [file];
    JoinOne(address);
    JoinOne(port);
    JoinOne(file);
    forall key | key in BLOCKING ensures Value(classes, OneBlock(b), b.alias, key) == "" {
      BlockingApart(key);
      TailApart(keys[7..], key);
      assert keys == keys[..7] + keys[7..];
      BlockNoValue(classes, b, key);
    }
  }

  lemma JoinOne(a: string)
    ensures Join([a], " ") == a
  {
  }

  /** The rest of a block after the fixed lines: the route, and for a tunnel its forwarding. */
  predicate Extra(extra: seq<seq<string>>) {
    extra == [] || (|extra| == 2 && |extra[0]| == 3 && extra == ForwardWords(extra[0][1], extra[0][2]))
  }

  lemma ExtraDirectives(extra: seq<seq<string>>)
    requires Extra(extra)
    ensures AllDirectives(extra) && Tail(KeyWords(extra)) && "proxyjump" !in KeyWords(extra)
  {
    LowerRoute();
    hide Lower;
    assert "localforward"[0] == 'l' && "exitonforwardfailure"[0] == 'e';
  }

  lemma HostDirectives(address: string, port: string, user: seq<string>, file: string, hops: seq<string>)
    requires user != []
    ensures var words := HostWords(address, port, user, file, hops);
      && AllDirectives(words)
      && KeyWords(words) == HOST_KEYS + if hops == [] then [] else ["proxyjump"]
  {
    LowerShort();
    LowerIdentity();
    LowerAlive();
    LowerRoute();
    hide Lower, Join;
    var words := HostWords(address, port, user, file, hops);
    assert "hostname"[1] == 'o' && "port"[0] == 'p' && "user"[0] == 'u';
    assert AllDirectives(words);
    assert KeyWords(words)[..7] == HOST_KEYS;
  }

  lemma KeysConcat(a: seq<seq<string>>, b: seq<seq<string>>)
    requires AllDirectives(a) && AllDirectives(b)
    ensures AllDirectives(a + b) && KeyWords(a + b) == KeyWords(a) + KeyWords(b)
  {
    hide IsDirective, Lower;
  }

  /** A block with these words is one the reader understands. */
  lemma BlockKeys(address: string, port: string, user: seq<string>, file: string, hops: seq<string>, extra: seq<seq<string>>)
    requires Extra(extra) && user != []
    ensures var words := HostWords(address, port, user, file, hops) + extra;
      && AllDirectives(words) && |words| >= 7 && Tail(KeyWords(words)[7..])
      && (hops == [] ==> "proxyjump" !in KeyWords(words))
      && (hops != [] ==> KeyWords(words)[7] == "proxyjump" && forall j :: 0 <= j < 7 ==> KeyWords(words)[j] != "proxyjump")
  {
    hide Lower, Join, IsDirective;
    ExtraDirectives(extra);
    HostDirectives(address, port, user, file, hops);
    KeysConcat(HostWords(address, port, user, file, hops), extra);
    HostKeysDistinct();
    var keys := KeyWords(HostWords(address, port, user, file, hops) + extra);
    assert keys[..7] == HOST_KEYS;
    assert forall j :: 0 <= j < 7 ==> keys[j] == HOST_KEYS[j];
    if hops == [] {
      assert keys == HOST_KEYS + KeyWords(extra);
      assert keys[7..] == KeyWords(extra);
    } else {
      assert keys == HOST_KEYS + (["proxyjump"] + KeyWords(extra));
      assert keys[7..] == ["proxyjump"] + KeyWords(extra);
    }
  }

  lemma JumpValue(classes: Classes, b: Block, address: string, port: string, user: seq<string>, file: string, hops: seq<string>, extra: seq<seq<string>>)
    requires GoodBlock(b) && b.words == HostWords(address, port, user, file, hops) + extra && Extra(extra) && user != []
    ensures Value(classes, OneBlock(b), b.alias, "proxyjump") == Join(hops, ",")
  {
    BlockKeys(address, port, user, file, hops, extra);
    assert Join([], ",") == "";
    hide Lower, Value, GoodBlock, Join, Tail, IsDirective;
    if hops == [] {
      BlockNoValue(classes, b, "proxyjump");
    } else {
      BlockValue(classes, b, 7);
      assert b.words[7][1..] == [Join(hops, ",")];
      JoinOne(Join(hops, ","));
    }
  }

  // ---------------------------------------------------------------- the host

  lemma {:induction false} SplitJoin(parts: seq<string>, rest: string)
    requires parts != [] && forall p <- parts :: ',' !in p
    ensures Split(Join(parts, ",") + "," + rest, ',') == parts + Split(rest, ',')
  {
    var n := |parts| - 1;
    var init := parts[..n];
    assert parts[n] in parts && forall p <- init :: p in parts;
    SplitCons(parts[n], ',', rest);
    hide Split;
    assert parts[n] + [','] + rest == parts[n] + "," + rest;
    if n == 0 {
      assert parts == [parts[0]];
    } else {
      SplitJoin(init, parts[n] + "," + rest);
      assert Join(parts, ",") + "," + rest == Join(init, ",") + "," + (parts[n] + "," + rest);
      assert init + ([parts[n]] + Split(rest, ',')) == parts + Split(rest, ',');
    }
  }

  lemma SplitHops(hops: seq<string>)
    requires hops != [] && forall h <- hops :: AliasWord(h)
    ensures Split(Join(hops, ","), ',') == hops
  {
    var n := |hops| - 1;
    forall h | h in hops ensures ',' !in h { AliasPlain(h); }
    assert hops[n] in hops;
    SplitPiece(hops[n], ',');
    if n > 0 {
      assert forall h <- hops[..n] :: h in hops;
      SplitJoin(hops[..n], hops[n]);
      hide Split;
      assert hops == hops[..n] + [hops[n]];
    } else {
      assert hops == [hops[0]];
    }
  }

  lemma HopsJoined(hops: seq<string>)
    requires forall h <- hops :: AliasWord(h) && |h| > 4
    ensures Hops(Join(hops, ",")) == hops
  {
    if hops != [] {
      SplitHops(hops);
      JoinLong(hops);
      hide Split, Join;
      forall i | 0 <= i < |hops| ensures Trim(hops[i]) == hops[i] {
        assert hops[i] in hops;
        AliasTrim(hops[i]);
      }
      assert Trimmed(hops) == hops;
    }
  }

  lemma JoinLong(hops: seq<string>)
    requires hops != [] && forall h <- hops :: |h| > 4
    ensures |Join(hops, ",")| > 4
  {
    assert hops[|hops| - 1] in hops;
  }

  /** The exported values make the exported host. */
  lemma BuiltExported(alias: string, address: string, port: int, user: string, file: string, hops: seq<string>)
    requires address != "" && Avoids(address, "%") && 1 <= port <= 65535 && user != ""
    requires file != "" && Avoids(file, "%") && Avoids(file, "$")
    requires forall h <- hops :: AliasWord(h) && |h| > 4
    ensures Built(alias, address, Itoa(port), user, file, Join(hops, ","), false) ==
            Candidate(alias, address, port, user, file, hops, true)
  {
    HopsJoined(hops);
    AtoiItoa(port);
    NoDollar(file);
    hide Hops, Join, Atoi, Digits, GoodHop, Contains;
    forall h | h in hops ensures GoodHop(h) { AliasLiteral(h); }
    assert Itoa(port) != "";
  }

  lemma NoDollar(s: string)
    requires Avoids(s, "$")
    ensures !Contains(s, "${")
  {
    if i :| 0 <= i <= |s| && StartsAt(s, "${", i) {
      assert s[i..][0] == '$';
      assert s[i] in "$";
    }
  }
}
