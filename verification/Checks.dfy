/**
 What the checks of single values mean: numbers, IPv6 addresses, lengths, and the size of a
 configuration file.
 */
module Checks {
  import opened Wrappers
  import opened Text
  import opened Parser

  // ---------------------------------------------------------------- numbers

  /** Digits are read from the most significant, with at most one sign in front. */
  lemma NumberRead(s: string)
    requires s != "" && AllDigits(s)
    ensures Atoi(s) == Some(NatOf(s)) && Atoi("+" + s) == Some(NatOf(s)) && Atoi("-" + s) == Some(-(NatOf(s) as int))
    ensures forall c: char | IsDigit(c) :: NatOf(s + [c]) == 10 * NatOf(s) + (c as int - '0' as int)
  {
    forall c: char | IsDigit(c) ensures NatOf(s + [c]) == 10 * NatOf(s) + (c as int - '0' as int) { NextDigit(s, c); }
    assert IsDigit(s[0]);
    hide NatOf, IsDigit, AllDigits;
    DigitNoSign(s[0]);
    Signed(s, '+');
    Signed(s, '-');
    assert "+" + s == ['+'] + s && "-" + s == ['-'] + s;
  }

  lemma DigitNoSign(c: char)
    requires IsDigit(c)
    ensures c !in "+-" && c != '-'
  {
  }

  lemma Signed(s: string, sign: char)
    requires s != "" && AllDigits(s) && (sign == '+' || sign == '-')
    ensures Atoi([sign] + s) == Some(if sign == '-' then -(NatOf(s) as int) else NatOf(s))
  {
    hide NatOf, AllDigits;
    var signed := [sign] + s;
    assert signed[0] == sign && signed[1..] == s;
    assert "+-"[0] == '+' && "+-"[1] == '-';
  }

  /** Nothing else is a number. */
  lemma NumberForm(s: string) returns (digits: string)
    requires Atoi(s).Some?
    ensures digits != "" && AllDigits(digits) && (s == digits || s == "+" + digits || s == "-" + digits)
  {
    digits := if s != "" && s[0] in "+-" then s[1..] else s;
    assert s != "" ==> s == [s[0]] + s[1..];
    hide NatOf;
  }

  lemma NextDigit(s: string, c: char)
    requires AllDigits(s) && IsDigit(c)
    ensures NatOf(s + [c]) == 10 * NatOf(s) + (c as int - '0' as int)
  {
    assert (s + [c])[..|s|] == s;
  }

  // ---------------------------------------------------------------- IPv6

  lemma {:induction false} JoinSplit(s: string, sep: char)
    ensures Join(Split(s, sep), [sep]) == s
    ensures forall p <- Split(s, sep) :: sep !in p
  {
    if s != "" {
      JoinSplit(s[1..], sep);
      var rest := Split(s[1..], sep);
      if s[0] == sep {
        JoinFront("", rest, [sep]);
      } else {
        JoinHead([s[0]], rest, [sep]);
      }
    }
  }

  lemma {:induction false} JoinFront(p: string, rest: seq<string>, sep: string)
    requires rest != []
    ensures Join([p] + rest, sep) == p + sep + Join(rest, sep)
  {
    var n := |rest| - 1;
    assert ([p] + rest)[..n + 1] == [p] + rest[..n];
    if n > 0 { JoinFront(p, rest[..n], sep); }
  }

  lemma {:induction false} JoinHead(p: string, parts: seq<string>, sep: string)
    requires parts != []
    ensures Join([p + parts[0]] + parts[1..], sep) == p + Join(parts, sep)
  {
    if |parts| > 1 {
      JoinFront(p + parts[0], parts[1..], sep);
      JoinFront(parts[0], parts[1..], sep);
      assert parts == [parts[0]] + parts[1..];
    }
  }

  lemma {:induction false} SplitJoined(parts: seq<string>, sep: char)
    requires parts != [] && forall p <- parts :: sep !in p
    ensures Split(Join(parts, [sep]), sep) == parts
  {
    assert parts[0] in parts;
    if |parts| == 1 {
      SplitPiece(parts[0], sep);
    } else {
      assert parts == [parts[0]] + parts[1..] && forall p <- parts[1..] :: p in parts;
      JoinFront(parts[0], parts[1..], [sep]);
      SplitJoined(parts[1..], sep);
      SplitCons(parts[0], sep, Join(parts[1..], [sep]));
    }
  }

  /** `s` writes `n` groups of 16 bits with colons between; only at the end of an address may the last
      two be a dotted address. */
  ghost predicate WritesGroups(s: string, n: nat, last: bool) {
    (s == "" && n == 0) || exists parts: seq<string> :: Writes(s, parts, n, last)
  }

  ghost predicate Writes(s: string, parts: seq<string>, n: nat, last: bool) {
    && parts != [] && s == Join(parts, ":")
    && (forall i :: 0 <= i < |parts| - 1 ==> HexGroup(parts[i]))
    && (if HexGroup(parts[|parts| - 1]) then n == |parts|
        else last && DottedQuad(parts[|parts| - 1]) && n == |parts| + 1)
  }

  lemma GroupsExact(s: string, n: nat, last: bool)
    ensures GroupCount(s, last) == Some(n) <==> WritesGroups(s, n, last)
  {
    hide HexGroup, DottedQuad;
    JoinSplit(s, ':');
    if GroupCount(s, last) == Some(n) && s != "" { assert Writes(s, Split(s, ':'), n, last); }
    forall parts: seq<string> | Writes(s, parts, n, last) ensures s != "" && GroupCount(s, last) == Some(n) {
      GroupsRead(s, parts, n, last);
    }
  }

  lemma PiecesNoColon(s: string, parts: seq<string>, n: nat, last: bool)
    requires Writes(s, parts, n, last)
    ensures forall p <- parts :: ':' !in p && p != ""
  {
    hide HexGroup, DottedQuad, Join;
    forall p | p in parts ensures ':' !in p && p != "" {
      var i :| 0 <= i < |parts| && parts[i] == p;
      PieceNoColon(p);
    }
  }

  lemma GroupsRead(s: string, parts: seq<string>, n: nat, last: bool)
    requires Writes(s, parts, n, last)
    ensures s != "" && GroupCount(s, last) == Some(n)
  {
    hide HexGroup, DottedQuad, Split, Join;
    PiecesNoColon(s, parts, n, last);
    SplitJoined(parts, ':');
    assert parts[|parts| - 1] in parts;
    if s == "" { EmptySplit(); }
  }

  lemma EmptySplit()
    ensures Split("", ':') == [""]
  {
  }

  lemma PieceNoColon(p: string)
    requires HexGroup(p) || DottedQuad(p)
    ensures ':' !in p && p != ""
  {
    if DottedQuad(p) { QuadNoColon(p); }
  }

  lemma QuadNoColon(p: string)
    requires DottedQuad(p)
    ensures ':' !in p && p != ""
  {
    JoinSplit(p, '.');
    var parts := Split(p, '.');
    hide Split, NatOf;
    assert parts == [parts[0], parts[1], parts[2], parts[3]];
    assert forall i :: 0 <= i < 4 ==> parts[i] in parts;
    JoinFour(parts[0], parts[1], parts[2], parts[3]);
  }

  lemma JoinFour(a: string, b: string, c: string, d: string)
    ensures Join([a, b, c, d], ".") == a + "." + b + "." + c + "." + d
  {
    assert [a, b, c, d][..3] == [a, b, c] && [a, b, c][..2] == [a, b] && [a, b][..1] == [a];
    assert Join([a], ".") == a && Join([a, b], ".") == a + "." + b && Join([a, b, c], ".") == a + "." + b + "." + c;
  }

  /** An IPv6 address, section 2.2 of RFC 4291: eight groups written out, or at most seven with one double
      colon in place of the others. */
  lemma Ip6Exact(s: string)
    ensures Ip6(s) <==>
      && (forall c <- s :: IsHex(c) || c == ':' || c == '.')
      && (WritesGroups(s, 8, true)
          || exists left: string, right: string, m: nat, n: nat ::
               s == left + "::" + right && WritesGroups(left, m, false) && WritesGroups(right, n, true) && m + n <= 7)
  {
    hide WritesGroups, GroupCount, IsHex;
    GroupsExact(s, 8, true);
    forall i | 0 <= i < |s| - 1 && Elided(s, i)
      ensures exists left: string, right: string, m: nat, n: nat ::
        s == left + "::" + right && WritesGroups(left, m, false) && WritesGroups(right, n, true) && m + n <= 7
    {
      var left, right := s[..i], s[i + 2..];
      GroupsExact(left, GroupCount(left, false).value, false);
      GroupsExact(right, GroupCount(right, true).value, true);
      assert s == left + "::" + right;
    }
    forall left: string, right: string, m: nat, n: nat |
      s == left + "::" + right && WritesGroups(left, m, false) && WritesGroups(right, n, true) && m + n <= 7
      ensures Elided(s, |left|)
    {
      GroupsExact(left, m, false);
      GroupsExact(right, n, true);
      assert s[..|left|] == left && s[|left| + 2..] == right;
    }
  }

  // ---------------------------------------------------------------- lengths

  lemma {:induction false} PlainLength(s: string)
    requires forall c <- s :: 'a' <= c <= 'z'
    ensures ByteLen(s) == |s|
  {
    if s != "" {
      assert s[0] in s && forall c <- s[1..] :: c in s;
      PlainLength(s[1..]);
    }
  }

  /** A word of small letters is a name up to 160, an address up to 253 and an identifier up to 128 letters. */
  lemma LengthLimits(s: string)
    requires forall c <- s :: 'a' <= c <= 'z'
    ensures Name(s) <==> 1 <= |s| <= 160
    ensures Address(s) <==> 1 <= |s| <= 253
    ensures GoodId(s) <==> 1 <= |s| <= 128
  {
    PlainLength(s);
    hide ByteLen, Ip6;
    assert forall i :: 0 <= i < |s| ==> s[i] in s;
    assert |s| > 0 ==> !IsSpace(s[0]);
  }

  // ---------------------------------------------------------------- files

  lemma {:induction false} LimitedWhole(text: string, room: nat)
    requires ByteLen(text) <= room
    ensures Limited(text, room) == text
  {
    if text != "" {
      LimitedWhole(text[1..], room - CharBytes(text[0]));
      assert text == [text[0]] + text[1..];
    }
  }

  /** A configuration file of at most 2 MiB is read to its end, a longer one is refused. */
  lemma FileExact(classes: Classes, text: string)
    ensures ByteLen(text) > 2097152 ==> FileHosts(classes, text).Err?
    ensures ByteLen(text) <= 2097152 ==>
      FileHosts(classes, text) == Parse(classes, text) && Limited(text, 2097152) == text
  {
    if ByteLen(text) <= 2097152 { LimitedWhole(text, 2097152); }
    hide Parse, ByteLen, Limited;
  }
}
