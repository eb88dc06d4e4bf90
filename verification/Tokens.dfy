/**
 Splitting a configuration line into words: blanks and `=` separate, quotes protect, `#` ends the
 line. There are no escapes inside quotes.
 */
module Tokens {
  import opened Wrappers
  import opened Text

  datatype Scan = Scan(out: seq<string>, word: string, quote: Option<char>, ended: bool)

  const START := Scan([], "", None, false)

  predicate Separator(c: char) { c == ' ' || c == '\t' || c == '=' }

  predicate QuoteMark(c: char) { c == '"' || c == '\'' }

  function Flush(s: Scan): seq<string> {
    if s.word != "" then s.out + [s.word] else s.out
  }

  function Step(s: Scan, c: char): Scan {
    if s.ended then s
    else if s.quote.Some? then (if c == s.quote.value then s.(quote := None) else s.(word := s.word + [c]))
    else if QuoteMark(c) then s.(quote := Some(c))
    else if c == '#' then s.(ended := true)
    else if Separator(c) then s.(out := Flush(s), word := "")
    else s.(word := s.word + [c])
  }

  function ScanAll(s: Scan, text: string): Scan {
    if text == "" then s else Step(ScanAll(s, text[..|text| - 1]), text[|text| - 1])
  }

  /** The words of a line; None for a quote that is not closed. */
  function Words(line: string): Option<seq<string>> {
    var s := ScanAll(START, line);
    if s.quote.Some? then None else Some(Flush(s))
  }

  lemma {:induction false} EndedAll(s: Scan, text: string)
    requires s.ended
    ensures ScanAll(s, text) == s
  {
    if text != "" { EndedAll(s, text[..|text| - 1]); }
  }

  lemma {:induction false} ScanConcat(s: Scan, a: string, b: string)
    ensures ScanAll(s, a + b) == ScanAll(ScanAll(s, a), b)
  {
    hide Step;
    if b == "" {
      assert a + b == a;
    } else {
      ScanConcat(s, a, b[..|b| - 1]);
      assert (a + b)[..|a + b| - 1] == a + b[..|b| - 1];
    }
  }

  lemma ScanPrefix(line: string, i: nat)
    requires i < |line|
    ensures ScanAll(START, line[..i + 1]) == Step(ScanAll(START, line[..i]), line[i])
  {
    assert line[..i + 1][..i] == line[..i];
  }

  /** The program's loop over the characters of a line. */
  method ReadWords(line: string) returns (r: Option<seq<string>>)
    ensures r == Words(line)
  {
    var out: seq<string>, word: string, quote: Option<char> := [], "", None;
    for i := 0 to |line|
      invariant ScanAll(START, line[..i]) == Scan(out, word, quote, false)
    {
      var c := line[i];
      ScanPrefix(line, i);
      if quote.Some? {
        if c == quote.value {
          quote := None;
        } else {
          word := word + [c];
        }
      } else if QuoteMark(c) {
        quote := Some(c);
      } else if c == '#' {
        assert line == line[..i + 1] + line[i + 1..];
        ScanConcat(START, line[..i + 1], line[i + 1..]);
        EndedAll(ScanAll(START, line[..i + 1]), line[i + 1..]);
        return Some(if word != "" then out + [word] else out);
      } else if Separator(c) {
        if word != "" {
          out, word := out + [word], "";
        }
      } else {
        word := word + [c];
      }
    }
    assert line[..|line|] == line;
    if quote.Some? {
      return None;
    }
    r := Some(if word != "" then out + [word] else out);
  }

  // ---------------------------------------------------------------- lines built from words

  /** Characters that stand for themselves outside quotes. */
  predicate PlainChar(c: char) { !QuoteMark(c) && c != '#' && !Separator(c) }

  predicate Plain(s: string) { s != "" && forall i :: 0 <= i < |s| ==> PlainChar(s[i]) }

  lemma {:induction false} ScanPlain(out: seq<string>, word: string, text: string)
    requires forall i :: 0 <= i < |text| ==> PlainChar(text[i])
    ensures ScanAll(Scan(out, word, None, false), text) == Scan(out, word + text, None, false)
  {
    if text == "" {
      assert word + text == word;
    } else {
      var n := |text| - 1;
      ScanPlain(out, word, text[..n]);
      assert word + text[..n] + [text[n]] == word + text;
    }
  }

  lemma {:induction false} ScanQuoted(out: seq<string>, word: string, mark: char, text: string)
    requires mark !in text
    ensures ScanAll(Scan(out, word, Some(mark), false), text) == Scan(out, word + text, Some(mark), false)
  {
    if text == "" {
      assert word + text == word;
    } else {
      var n := |text| - 1;
      ScanQuoted(out, word, mark, text[..n]);
      assert word + text[..n] + [text[n]] == word + text;
    }
  }

  lemma ScanOne(s: Scan, c: char)
    ensures ScanAll(s, [c]) == Step(s, c)
  {
    assert [c][..0] == "";
  }

  /** A plain word and the blank behind it. */
  lemma ScanWord(out: seq<string>, word: string)
    requires Plain(word)
    ensures ScanAll(Scan(out, "", None, false), word + " ") == Scan(out + [word], "", None, false)
  {
    ScanConcat(Scan(out, "", None, false), word, " ");
    ScanPlain(out, "", word);
    ScanOne(Scan(out, word, None, false), ' ');
    assert "" + word == word;
  }

  /** A line whose words are separated by single blanks, with an indent. */
  function Spaced(words: seq<string>): string {
    if words == [] then ""
    else if |words| == 1 then words[0]
    else Spaced(words[..|words| - 1]) + " " + words[|words| - 1]
  }

  const INDENT := "  "

  lemma ScanIndent()
    ensures ScanAll(START, INDENT) == START
  {
    ScanOne(START, ' ');
    ScanConcat(START, " ", " ");
    assert INDENT == " " + " ";
  }

  predicate AllPlain(words: seq<string>) { forall w <- words :: Plain(w) }

  lemma ScanNext(out: seq<string>, word: string, next: string)
    requires word != "" && Plain(next)
    ensures ScanAll(Scan(out, word, None, false), " " + next) == Scan(out + [word], next, None, false)
  {
    ScanConcat(Scan(out, word, None, false), " ", next);
    ScanOne(Scan(out, word, None, false), ' ');
    ScanPlain(out + [word], "", next);
    assert "" + next == next;
    hide ScanAll;
  }

  /** Scanning plain words: the last one is still being read. */
  lemma {:induction false} ScanSpaced(words: seq<string>)
    requires words != [] && AllPlain(words)
    ensures ScanAll(START, Spaced(words)) == Scan(words[..|words| - 1], words[|words| - 1], None, false)
  {
    hide ScanAll, Plain;
    var n := |words| - 1;
    assert words[n] in words;
    if n == 0 {
      ScanFirst(words[0]);
    } else {
      var init := words[..n];
      assert forall w <- init :: w in words;
      ScanSpaced(init);
      PlainNonEmpty(words[n - 1]);
      ScanConcat(START, Spaced(init), " " + words[n]);
      ScanNext(init[..n - 1], init[n - 1], words[n]);
      assert init == init[..n - 1] + [init[n - 1]];
      assert Spaced(words) == Spaced(init) + (" " + words[n]);
    }
  }

  lemma ScanFirst(word: string)
    requires Plain(word)
    ensures ScanAll(START, word) == Scan([], word, None, false)
  {
    ScanPlain([], "", word);
    assert "" + word == word;
  }

  lemma PlainNonEmpty(word: string)
    requires Plain(word)
    ensures word != ""
  {
  }

  /** Plain words come back as they are. */
  lemma WordsSpaced(words: seq<string>)
    requires words != [] && AllPlain(words)
    ensures Words(Spaced(words)) == Some(words) && Words(INDENT + Spaced(words)) == Some(words)
  {
    hide ScanAll, Spaced;
    ScanIndent();
    ScanConcat(START, INDENT, Spaced(words));
    ScanSpaced(words);
    assert words[|words| - 1] in words;
    assert words == words[..|words| - 1] + [words[|words| - 1]];
  }

  /** A keyword and a quoted value. */
  function QuotedLine(key: string, body: string): string {
    INDENT + key + " \"" + (body + "\"")
  }

  /** The quotes keep everything but a quote. */
  lemma WordsQuoted(key: string, body: string)
    requires Plain(key) && body != "" && '"' !in body
    ensures Words(QuotedLine(key, body)) == Some([key, body])
  {
    hide ScanAll;
    var head := INDENT + key + " \"";
    ScanOpenQuote(key);
    ScanConcat(START, head, body + "\"");
    ScanConcat(Scan([key], "", Some('"'), false), body, "\"");
    ScanQuoted([key], "", '"', body);
    assert "" + body == body;
    ScanOne(Scan([key], body, Some('"'), false), '"');
    assert QuotedLine(key, body) == head + (body + "\"");
    assert [key] + [body] == [key, body];
  }

  lemma ScanOpenQuote(key: string)
    requires Plain(key)
    ensures ScanAll(START, INDENT + key + " \"") == Scan([key], "", Some('"'), false)
  {
    var head := INDENT + key + " \"";
    assert head == INDENT + ((key + " ") + "\"");
    ScanConcat(START, INDENT, (key + " ") + "\"");
    ScanIndent();
    ScanConcat(START, key + " ", "\"");
    ScanWord([], key);
    assert [] + [key] == [key];
    ScanOne(Scan([key], "", None, false), '"');
    hide ScanAll;
  }

  lemma WordsComment(text: string)
    ensures Words("#" + text) == Some([])
  {
    ScanConcat(START, "#", text);
    ScanOne(START, '#');
    EndedAll(START.(ended := true), text);
  }

  lemma WordsBlank()
    ensures Words("") == Some([])
  {
  }
}
