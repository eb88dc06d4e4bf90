/**
 The text rules the program applies to user input. Text is a sequence of Unicode characters;
 lengths are counted in UTF-8 bytes, as the program counts them.
 */
module Text {
  import opened Wrappers

  function CharBytes(c: char): nat {
    var n := c as int;
    if n < 0x80 then 1 else if n < 0x800 then 2 else if n < 0x1_0000 then 3 else 4
  }

  /** Length in UTF-8 bytes. */
  function ByteLen(s: string): (n: nat)
    ensures |s| <= n <= 4 * |s|
  {
    if s == "" then 0 else CharBytes(s[0]) + ByteLen(s[1..])
  }

  lemma ByteLenAppend(a: string, b: string)
    ensures ByteLen(a + b) == ByteLen(a) + ByteLen(b)
  {
    if a == "" {
      assert a + b == b;
    } else {
      assert (a + b)[1..] == a[1..] + b;
      ByteLenAppend(a[1..], b);
    }
  }

  /** The white space that trimming removes. */
  predicate IsSpace(c: char) {
    var n := c as int;
    0x09 <= n <= 0x0D || n == 0x20 || n == 0x85 || n == 0xA0 || n == 0x1680 || 0x2000 <= n <= 0x200A
    || n == 0x2028 || n == 0x2029 || n == 0x202F || n == 0x205F || n == 0x3000
  }

  predicate Blank(s: string) {
    forall i :: 0 <= i < |s| ==> IsSpace(s[i])
  }

  function TrimLeft(s: string): string {
    if s != "" && IsSpace(s[0]) then TrimLeft(s[1..]) else s
  }

  function TrimRight(s: string): string {
    if s != "" && IsSpace(s[|s| - 1]) then TrimRight(s[..|s| - 1]) else s
  }

  function Trim(s: string): string {
    TrimRight(TrimLeft(s))
  }

  predicate Avoids(s: string, chars: string) {
    forall i :: 0 <= i < |s| ==> s[i] !in chars
  }

  /** Lower case of the ASCII letters; other characters are kept. */
  function LowerChar(c: char): char {
    if 'A' <= c <= 'Z' then (c as int + 32) as char else c
  }

  function Lower(s: string): (r: string)
    ensures |r| == |s|
  {
    seq(|s|, i requires 0 <= i < |s| => LowerChar(s[i]))
  }

  /** The pieces of `s` between the separators; a text without one is a single piece. */
  function Split(s: string, sep: char): (r: seq<string>)
    ensures |r| >= 1
  {
    if s == "" then [""]
    else
      var rest := Split(s[1..], sep);
      if s[0] == sep then [""] + rest else [[s[0]] + rest[0]] + rest[1..]
  }

  lemma SplitPiece(a: string, sep: char)
    requires sep !in a
    ensures Split(a, sep) == [a]
  {
    if a != "" {
      SplitPiece(a[1..], sep);
      assert a == [a[0]] + a[1..];
    }
  }

  lemma SplitCons(a: string, sep: char, b: string)
    requires sep !in a
    ensures Split(a + [sep] + b, sep) == [a] + Split(b, sep)
  {
    if a == "" {
      assert (a + [sep] + b)[1..] == b;
    } else {
      assert (a + [sep] + b)[1..] == a[1..] + [sep] + b;
      SplitCons(a[1..], sep, b);
      assert a == [a[0]] + a[1..];
    }
  }

  // ---------------------------------------------------------------- decimal numbers

  predicate IsDigit(c: char) { '0' <= c <= '9' }

  predicate AllDigits(s: string) {
    forall i :: 0 <= i < |s| ==> IsDigit(s[i])
  }

  function DigitChar(d: nat): (c: char)
    requires d < 10
    ensures IsDigit(c) && c as int - '0' as int == d
  {
    ('0' as int + d) as char
  }

  function Digits(n: nat): (s: string)
    ensures s != "" && AllDigits(s)
    ensures s[0] == '0' ==> n == 0
  {
    if n < 10 then [DigitChar(n)] else Digits(n / 10) + [DigitChar(n % 10)]
  }

  function Itoa(n: int): string {
    if n < 0 then "-" + Digits(-n) else Digits(n)
  }

  function NatOf(s: string): nat
    requires AllDigits(s)
  {
    if s == "" then 0 else 10 * NatOf(s[..|s| - 1]) + (s[|s| - 1] as int - '0' as int)
  }

  /** Signed decimal text; None when it is not a number. Values of any size are kept: the
      callers only accept a small range, so an overflow and an out-of-range value agree. */
  function Atoi(s: string): Option<int> {
    var body := if s != "" && s[0] in "+-" then s[1..] else s;
    if body == "" || !AllDigits(body) then None
    else
      var value: int := NatOf(body);
      Some(if s[0] == '-' then -value else value)
  }

  lemma NatOfDigits(n: nat)
    ensures NatOf(Digits(n)) == n
  {
    if n >= 10 {
      NatOfDigits(n / 10);
      assert Digits(n)[..|Digits(n)| - 1] == Digits(n / 10);
    }
  }

  lemma AtoiItoa(n: nat)
    ensures Atoi(Itoa(n)) == Some(n)
  {
    NatOfDigits(n);
  }

  /** A number printed with at least two digits. */
  function Padded(n: nat): (s: string)
    ensures |s| >= 2 && AllDigits(s)
  {
    if n < 10 then "0" + Digits(n) else Digits(n)
  }

  lemma PaddedInjective(m: nat, n: nat)
    requires Padded(m) == Padded(n)
    ensures m == n
  {
    PaddedValue(m);
    PaddedValue(n);
  }

  lemma PaddedValue(n: nat)
    ensures NatOf(Padded(n)) == n
  {
    NatOfDigits(n);
    if n < 10 {
      assert Digits(n) == [DigitChar(n)];
      assert Padded(n)[..1] == "0";
      assert NatOf("0") == 0;
    }
  }

  // ---------------------------------------------------------------- addresses

  predicate IsHex(c: char) { IsDigit(c) || 'a' <= c <= 'f' || 'A' <= c <= 'F' }

  predicate HexGroup(s: string) {
    1 <= |s| <= 4 && forall i :: 0 <= i < |s| ==> IsHex(s[i])
  }

  predicate DottedQuad(s: string) {
    var parts := Split(s, '.');
    |parts| == 4 && forall p <- parts ::
      1 <= |p| <= 3 && AllDigits(p) && (p[0] == '0' ==> |p| == 1) && NatOf(p) <= 255
  }

  /** Number of 16-bit groups in one side of an IPv6 literal; `last` allows a dotted tail. */
  function GroupCount(s: string, last: bool): Option<nat> {
    if s == "" then Some(0)
    else
      var parts := Split(s, ':');
      var n := |parts| - 1;
      if exists i :: 0 <= i < n && !HexGroup(parts[i]) then None
      else if HexGroup(parts[n]) then Some(n + 1)
      else if last && DottedQuad(parts[n]) then Some(n + 2)
      else None
  }

  /** The literal is shortened by a double colon at position `i`. */
  predicate Elided(s: string, i: nat)
    requires i + 1 < |s|
  {
    var left, right := GroupCount(s[..i], false), GroupCount(s[i + 2..], true);
    s[i] == ':' && s[i + 1] == ':' && left.Some? && right.Some? && left.value + right.value <= 7
  }

  /** Textual IPv6 addresses, section 2.2 of RFC 4291. */
  predicate Ip6(s: string) {
    (forall i :: 0 <= i < |s| ==> IsHex(s[i]) || s[i] in ":.")
    && (GroupCount(s, true) == Some(8) || exists i :: 0 <= i < |s| - 1 && Elided(s, i))
  }

  predicate HostChar(c: char) {
    'a' <= c <= 'z' || 'A' <= c <= 'Z' || IsDigit(c) || c in ".-_"
  }

  predicate Address(s: string) {
    s != "" && ByteLen(s) <= 253 && Avoids(s, " \t\r\n/\\@?#%")
    && (Ip6(s) || forall i :: 0 <= i < |s| ==> HostChar(s[i]))
  }

  predicate Name(s: string) {
    !Blank(s) && ByteLen(s) <= 160 && Avoids(s, "\0\r\n")
  }

  /** Identifiers accepted from other machines. */
  predicate GoodId(id: string) {
    id != "" && ByteLen(id) <= 128 && Avoids(id, "/\\\0\r\n")
  }
}
