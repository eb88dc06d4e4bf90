/**
 What the reader makes of the lines the exporter writes, in particular when a user name survives.
 */
module ExportLines {
  import opened Wrappers
  import opened Text
  import opened Tokens
  import opened Parser
  import opened MacExport

  // ---------------------------------------------------------------- user names

  /** A user name that is written as it is: no quote, no percent sign, only printable characters. */
  predicate PlainUser(printable: Printable, u: string) {
    forall i :: 0 <= i < |u| ==> u[i] != '"' && u[i] != '%' && printable(u[i])
  }

  function UserLine(printable: Printable, u: string): string { Setting("User", Quote(printable, Doubled(u))) }

  lemma {:induction false} DoubledPlain(u: string)
    requires '%' !in u
    ensures Doubled(u) == u
  {
    if u != "" {
      var n := |u| - 1;
      assert u[n] in u;
      DoubledPlain(u[..n]);
      assert u == u[..n] + [u[n]];
    }
  }

  lemma {:induction false} DoubledLonger(u: string)
    ensures |Doubled(u)| >= |u| && ('%' in u ==> |Doubled(u)| > |u|)
    ensures forall c :: c in Doubled(u) <==> c in u
  {
    if u != "" {
      var n := |u| - 1;
      DoubledLonger(u[..n]);
      assert u == u[..n] + [u[n]];
    }
  }

  predicate Kept(printable: Printable, c: char) { c != '"' && c != '\\' && printable(c) }

  predicate AllKept(printable: Printable, s: string) { forall i :: 0 <= i < |s| ==> Kept(printable, s[i]) }

  lemma {:induction false} QuotePlain(printable: Printable, s: string)
    requires AllKept(printable, s)
    ensures QuoteBody(printable, s) == s
  {
    if s != "" {
      var n := |s| - 1;
      QuotePlain(printable, s[..n]);
      assert s == s[..n] + [s[n]];
    }
  }

  lemma UserLineQuoted(printable: Printable, u: string)
    ensures UserLine(printable, u) == QuotedLine("User", QuoteBody(printable, Doubled(u)))
  {
    QuotedSetting("User", QuoteBody(printable, Doubled(u)));
  }

  lemma QuotedSetting(key: string, body: string)
    ensures Setting(key, "\"" + body + "\"") == QuotedLine(key, body)
  {
    assert INDENT + key + " " + ("\"" + body + "\"") == INDENT + key + " \"" + (body + "\"");
  }

  lemma PlainUserWord()
    ensures Plain("User")
  {
  }

  /** Some word read so far holds a backslash. */
  predicate Slashed(s: Scan) { '\\' in s.word || exists w <- s.out :: '\\' in w }

  lemma {:induction false} SlashedStays(s: Scan, text: string)
    requires Slashed(s)
    ensures Slashed(ScanAll(s, text))
  {
    if text != "" {
      var n := |text| - 1;
      SlashedStays(s, text[..n]);
      SlashedStep(ScanAll(s, text[..n]), text[n]);
    }
  }

  lemma SlashedStep(s: Scan, c: char)
    requires Slashed(s)
    ensures Slashed(Step(s, c))
  {
    var t := Step(s, c);
    if w :| w in s.out && '\\' in w { assert w in t.out; }
    if '\\' in s.word && t.word == "" { assert s.word in t.out; }
  }

  lemma QuoteConcat(printable: Printable, a: string, b: string)
    ensures QuoteBody(printable, a + b) == QuoteBody(printable, a) + QuoteBody(printable, b)
  {
    hide QuoteChar;
    if b == "" {
      assert a + b == a;
    } else {
      var n := |b| - 1;
      QuoteConcat(printable, a, b[..n]);
      LastOf(a, b);
      Regroup(QuoteBody(printable, a), QuoteBody(printable, b[..n]), QuoteChar(printable, b[n]));
    }
  }

  lemma LastOf(a: string, b: string)
    requires b != ""
    ensures (a + b)[..|a + b| - 1] == a + b[..|b| - 1] && (a + b)[|a + b| - 1] == b[|b| - 1]
  {
  }

  lemma Regroup(a: string, b: string, c: string)
    ensures (a + b) + c == a + (b + c)
  {
  }

  lemma QuoteOne(printable: Printable, c: char)
    ensures QuoteBody(printable, [c]) == QuoteChar(printable, c)
  {
    hide QuoteChar;
    assert [c][..0] == "";
    assert QuoteBody(printable, "") == "";
  }

  /** The quoted text up to the first character that is not kept. */
  lemma QuoteSplit(printable: Printable, d: string, i: nat) returns (tail: string)
    requires i < |d| && !Kept(printable, d[i]) && AllKept(printable, d[..i])
    ensures QuoteBody(printable, d) == d[..i] + (['\\'] + tail)
  {
    hide *;
    var q, rest := QuoteChar(printable, d[i]), QuoteBody(printable, d[i + 1..]);
    QuoteSlash(printable, d[i]);
    tail := q[1..] + rest;
    Cut(d, i);
    QuoteConcat(printable, d[..i], [d[i]] + d[i + 1..]);
    QuoteConcat(printable, [d[i]], d[i + 1..]);
    QuoteOne(printable, d[i]);
    QuotePlain(printable, d[..i]);
    Reassociate(q, rest);
  }

  lemma Cut(d: string, i: nat)
    requires i < |d|
    ensures d == d[..i] + ([d[i]] + d[i + 1..])
  {
  }

  lemma Reassociate(q: string, rest: string)
    requires q != ""
    ensures q + rest == [q[0]] + (q[1..] + rest)
  {
  }

  lemma QuoteSlash(printable: Printable, c: char)
    requires !Kept(printable, c)
    ensures var q := QuoteChar(printable, c); q != "" && q[0] == '\\'
  {
    hide Escape;
  }

  lemma ScanSlash(p: string, tail: string)
    requires '"' !in p
    ensures Slashed(ScanAll(START, QuotedLine("User", p + (['\\'] + tail))))
  {
    hide ScanAll, Slashed;
    var head, more := INDENT + "User" + " \"", ['\\'] + (tail + "\"");
    assert QuotedLine("User", p + (['\\'] + tail)) == head + (p + more);
    PlainUserWord();
    ScanOpenQuote("User");
    ScanConcat(START, head, p + more);
    var s := Scan(["User"], "", Some('"'), false);
    ScanConcat(s, p, more);
    ScanQuoted(["User"], "", '"', p);
    var s1 := Scan(["User"], "" + p, Some('"'), false);
    ScanConcat(s1, ['\\'], tail + "\"");
    ScanOne(s1, '\\');
    SlashAdded(s1);
    SlashedStays(Step(s1, '\\'), tail + "\"");
  }

  /** The first character that is not kept puts a backslash into the word. */
  lemma EscapedSlashes(printable: Printable, d: string, i: nat)
    requires i < |d| && !Kept(printable, d[i]) && AllKept(printable, d[..i])
    ensures Slashed(ScanAll(START, QuotedLine("User", QuoteBody(printable, d))))
  {
    hide ScanAll, Slashed, QuoteBody;
    var tail := QuoteSplit(printable, d, i);
    assert '"' !in d[..i];
    ScanSlash(d[..i], tail);
  }

  lemma SlashAdded(s: Scan)
    requires !s.ended && s.quote == Some('"')
    ensures Slashed(Step(s, '\\'))
  {
  }

  lemma FlushSlashed(s: Scan)
    requires Slashed(s)
    ensures exists w <- Flush(s) :: '\\' in w
  {
    if w :| w in s.out && '\\' in w { assert w in Flush(s); }
  }

  /** The position of the first character that is not kept, or |s|. */
  function FirstEscaped(printable: Printable, s: string): (i: nat)
    ensures i <= |s| && AllKept(printable, s[..i]) && (i < |s| ==> !Kept(printable, s[i]))
  {
    if s == "" then 0
    else
      var i := FirstEscaped(printable, s[..|s| - 1]);
      assert i < |s| - 1 ==> s[..|s| - 1][..i] == s[..i];
      assert i == |s| - 1 ==> s[..|s| - 1] == s[..|s| - 1][..i];
      if i < |s| - 1 || !Kept(printable, s[|s| - 1]) then i else |s|
  }

  lemma SlashedWords(line: string, u: string)
    requires Slashed(ScanAll(START, line)) && '\\' !in u
    ensures Words(line) != Some(["User", u])
  {
    var s := ScanAll(START, line);
    FlushSlashed(s);
    hide ScanAll, Slashed, Flush;
    var w :| w in Flush(s) && '\\' in w;
    assert '\\' !in "User";
    assert w != "User" && w != u;
    assert w !in ["User", u];
  }

  /** A stored user name (it has no backslash) is read back exactly when it is plain. */
  lemma UsernameExact(printable: Printable, u: string)
    requires u != "" && '\\' !in u
    ensures Words(UserLine(printable, u)) == Some(["User", u]) <==> PlainUser(printable, u)
  {
    hide Words, ScanAll, Slashed, QuoteBody, Doubled;
    var d := Doubled(u);
    UserLineQuoted(printable, u);
    DoubledLonger(u);
    var i := FirstEscaped(printable, d);
    if i < |d| {
      EscapedSlashes(printable, d, i);
      SlashedWords(UserLine(printable, u), u);
      assert d[i] in u;
    } else {
      assert d[..i] == d;
      KeptUser(printable, u);
    }
  }

  lemma KeptUser(printable: Printable, u: string)
    requires u != "" && AllKept(printable, Doubled(u))
    ensures Words(UserLine(printable, u)) == Some(["User", Doubled(u)])
    ensures Doubled(u) == u <==> '%' !in u
    ensures '%' !in u ==> PlainUser(printable, u)
  {
    hide Words, QuoteBody;
    var d := Doubled(u);
    UserLineQuoted(printable, u);
    DoubledLonger(u);
    QuotePlain(printable, d);
    PlainUserWord();
    assert '"' !in d;
    WordsQuoted("User", d);
    if '%' !in u {
      DoubledPlain(u);
    }
  }

  // ---------------------------------------------------------------- any user name

  /** The line of this user name can be read at all: it leaves no quote open. */
  predicate Legible(printable: Printable, u: string) { Words(UserLine(printable, u)).Some? }

  /** The words the reader finds after the keyword. */
  function UserWords(printable: Printable, u: string): seq<string> {
    match Words(UserLine(printable, u))
    case Some(words) => if words == [] then [] else words[1..]
    case None => []
  }

  /** The user name the reader makes of them. */
  function ReadUser(printable: Printable, u: string): string { Join(UserWords(printable, u), " ") }

  lemma {:induction false} OutGrows(s: Scan, text: string)
    ensures s.out <= ScanAll(s, text).out
  {
    if text != "" {
      OutGrows(s, text[..|text| - 1]);
    }
  }

  lemma {:induction false} JoinHolds(parts: seq<string>, w: string, c: char)
    requires w in parts && c in w
    ensures c in Join(parts, " ")
  {
    var n := |parts| - 1;
    if |parts| > 1 && w != parts[n] {
      assert parts == parts[..n] + [parts[n]];
      JoinHolds(parts[..n], w, c);
    }
  }

  /** Quoting opens after the keyword, so the keyword is the first word. */
  lemma UserFirst(body: string)
    ensures ["User"] <= ScanAll(START, QuotedLine("User", body)).out
  {
    var head := INDENT + "User" + " \"";
    assert QuotedLine("User", body) == head + (body + "\"");
    PlainUserWord();
    ScanOpenQuote("User");
    ScanConcat(START, head, body + "\"");
    hide ScanAll;
    OutGrows(Scan(["User"], "", Some('"'), false), body + "\"");
  }

  lemma SlashedUser(line: string)
    requires Words(line).Some? && Slashed(ScanAll(START, line)) && ["User"] <= ScanAll(START, line).out
    ensures var words := Words(line).value;
      words != [] && words == ["User"] + words[1..] && '\\' in Join(words[1..], " ") && words[1..] != []
  {
    var s, words := ScanAll(START, line), Words(line).value;
    FlushSlashed(s);
    hide ScanAll, Slashed, Join;
    var w :| w in words && '\\' in w;
    assert '\\' !in "User";
    var i :| 0 <= i < |words| && words[i] == w;
    assert words[0] == "User" && words == [words[0]] + words[1..];
    assert words[1..][i - 1] == w;
    JoinHolds(words[1..], w, '\\');
  }

  /** What the reader makes of a stored user name: some name, which is the stored one exactly when
      that is plain. */
  lemma UserRead(printable: Printable, u: string)
    requires u != "" && '\\' !in u && Legible(printable, u)
    ensures Words(UserLine(printable, u)) == Some(["User"] + UserWords(printable, u))
    ensures UserWords(printable, u) != [] && ReadUser(printable, u) != ""
    ensures ReadUser(printable, u) == u <==> PlainUser(printable, u)
  {
    hide Words, ScanAll, Slashed, QuoteBody, Doubled, Join, PlainUser;
    UsernameExact(printable, u);
    var d := Doubled(u);
    DoubledLonger(u);
    UserLineQuoted(printable, u);
    var i := FirstEscaped(printable, d);
    if i < |d| {
      UserFirst(QuoteBody(printable, d));
      EscapedSlashes(printable, d, i);
      SlashedUser(UserLine(printable, u));
      NotPlain(printable, u, d[i]);
    } else {
      assert d[..i] == d;
      KeptUser(printable, u);
      assert ["User", d][1..] == [d] && ["User"] + [d] == ["User", d];
      assert Join([d], " ") == d by { OneJoined(d); }
    }
  }

  lemma OneJoined(d: string)
    ensures Join([d], " ") == d
  {
  }

  lemma NotPlain(printable: Printable, u: string, c: char)
    requires c in u && '\\' !in u && !Kept(printable, c)
    ensures !PlainUser(printable, u)
  {
  }

  lemma PlainLegible(printable: Printable, u: string)
    requires u != "" && '\\' !in u && PlainUser(printable, u)
    ensures Legible(printable, u) && UserWords(printable, u) == [u] && ReadUser(printable, u) == u
  {
    hide Words, PlainUser;
    UsernameExact(printable, u);
    OneJoined(u);
  }

  /** One quotation mark between plain characters leaves a quote open at the end of the line. */
  lemma OpenQuote(printable: Printable, a: string, b: string)
    requires AllKept(printable, a) && AllKept(printable, b) && '%' !in a && '%' !in b
    requires forall i :: 0 <= i < |b| ==> PlainChar(b[i])
    ensures !Legible(printable, a + ("\"" + b))
  {
    var u := a + ("\"" + b);
    NoMark(printable, a, b);
    hide ScanAll, QuoteBody, Doubled, AllKept, UserLine, QuotedLine, Flush;
    DoubledPlain(u);
    QuoteMarkText(printable, a, b);
    UserLineQuoted(printable, u);
    OpenScan(a, b);
  }

  lemma NoMark(printable: Printable, a: string, b: string)
    requires AllKept(printable, a) && '%' !in a && '%' !in b
    ensures '"' !in a && '%' !in a + ("\"" + b)
  {
  }

  lemma QuoteMarkText(printable: Printable, a: string, b: string)
    requires AllKept(printable, a) && AllKept(printable, b)
    ensures QuoteBody(printable, a + ("\"" + b)) == a + (['\\'] + (['"'] + b))
  {
    assert QuoteChar(printable, '"') == ['\\'] + ['"'];
    hide *;
    QuoteConcat(printable, a, "\"" + b);
    QuoteConcat(printable, "\"", b);
    QuoteOne(printable, '"');
    QuotePlain(printable, a);
    QuotePlain(printable, b);
    Regroup(['\\'], ['"'], b);
  }

  lemma OpenScan(a: string, b: string)
    requires '"' !in a && forall i :: 0 <= i < |b| ==> PlainChar(b[i])
    ensures ScanAll(START, QuotedLine("User", a + (['\\'] + (['"'] + b)))).quote.Some?
  {
    hide ScanAll;
    var head, tail := INDENT + "User" + " \"", b + "\"";
    var rest := a + (['\\'] + (['"'] + tail));
    assert QuotedLine("User", a + (['\\'] + (['"'] + b))) == head + rest;
    PlainUserWord();
    ScanOpenQuote("User");
    ScanConcat(START, head, rest);
    var s := Scan(["User"], "", Some('"'), false);
    ScanConcat(s, a, ['\\'] + (['"'] + tail));
    ScanQuoted(["User"], "", '"', a);
    var s1 := Scan(["User"], "" + a, Some('"'), false);
    ScanConcat(s1, ['\\'], ['"'] + tail);
    ScanOne(s1, '\\');
    var s2 := Step(s1, '\\');
    ScanConcat(s2, ['"'], tail);
    ScanOne(s2, '"');
    var s3 := Step(s2, '"');
    ScanConcat(s3, b, "\"");
    ScanPlain(s3.out, s3.word, b);
    ScanOne(Scan(s3.out, s3.word + b, None, false), '"');
  }
}
