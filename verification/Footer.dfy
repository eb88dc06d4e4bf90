/**
 Attaching a payload to the executable: base, payload, the payload's length as a little-endian
 64-bit number, and a magic word. Sizes are file sizes, so they fit a signed 64-bit number.
 */
module Footer {
  import opened Wrappers

  type byte = x: int | 0 <= x < 256

  const MAX_PAYLOAD: nat := 16 * 1024 * 1024
  const MAGIC_WORD := "SSHDesk-Team-Bundle-v1"
  const LENGTH_BYTES: nat := 8
  const MAX_FILE: nat := 0x7FFF_FFFF_FFFF_FFFF

  function Ascii(s: string): (b: seq<byte>)
    requires forall i :: 0 <= i < |s| ==> s[i] as int < 128
    ensures |b| == |s|
  {
    seq(|s|, i requires 0 <= i < |s| => s[i] as int as byte)
  }

  const MAGIC: seq<byte> := Ascii(MAGIC_WORD)
  const FOOTER: nat := LENGTH_BYTES + 22

  /** `n` in `bytes` little-endian bytes; higher digits are dropped. */
  function LittleEndian(n: nat, bytes: nat): (b: seq<byte>)
    ensures |b| == bytes
  {
    if bytes == 0 then [] else [(n % 256) as byte] + LittleEndian(n / 256, bytes - 1)
  }

  function FromLittleEndian(b: seq<byte>): nat {
    if b == [] then 0 else b[0] + 256 * FromLittleEndian(b[1..])
  }

  function Power256(bytes: nat): (p: nat)
    ensures p > 0
  {
    if bytes == 0 then 1 else 256 * Power256(bytes - 1)
  }

  lemma {:induction false} FromLittleEndianBound(b: seq<byte>)
    ensures FromLittleEndian(b) < Power256(|b|)
  {
    if b != [] {
      FromLittleEndianBound(b[1..]);
    }
  }

  lemma {:induction false} LittleEndianRoundTrip(n: nat, bytes: nat)
    requires n < Power256(bytes)
    ensures FromLittleEndian(LittleEndian(n, bytes)) == n
  {
    if bytes > 0 {
      assert n / 256 < Power256(bytes - 1);
      LittleEndianRoundTrip(n / 256, bytes - 1);
      assert LittleEndian(n, bytes)[1..] == LittleEndian(n / 256, bytes - 1);
    }
  }

  lemma Uint64()
    ensures Power256(8) == 0x1_0000_0000_0000_0000
  {
    assert Power256(4) == 0x1_0000_0000;
    assert Power256(8) == 256 * (256 * (256 * (256 * Power256(4))));
  }

  /** The file ends with the magic word. */
  predicate Marked(file: seq<byte>) {
    |file| >= FOOTER && file[|file| - 22..] == MAGIC
  }

  function ClaimedLength(file: seq<byte>): nat
    requires Marked(file)
  {
    FromLittleEndian(file[|file| - FOOTER..|file| - 22])
  }

  /** Size of the program without an attached payload. */
  function BaseSize(file: seq<byte>): Result<nat> {
    if !Marked(file) then Ok(|file|)
    else if ClaimedLength(file) > MAX_PAYLOAD || ClaimedLength(file) > |file| - FOOTER then Err
    else Ok(|file| - FOOTER - ClaimedLength(file))
  }

  function Base(file: seq<byte>): seq<byte>
    requires BaseSize(file).Ok?
  {
    file[..BaseSize(file).value]
  }

  /** The file with its payload replaced; an empty payload leaves the base alone. */
  function WriteExecutable(file: seq<byte>, payload: seq<byte>): Result<seq<byte>> {
    match BaseSize(file)
    case Err => Err
    case Ok(size) =>
      if payload == [] then Ok(file[..size])
      else Ok(file[..size] + payload + LittleEndian(|payload|, LENGTH_BYTES) + MAGIC)
  }

  /** The attached payload; empty when there is none. */
  function ReadExecutable(file: seq<byte>): Result<seq<byte>> {
    match BaseSize(file)
    case Err => Err
    case Ok(size) => if size == |file| then Ok([]) else Ok(file[size..|file| - FOOTER])
  }

  // ---------------------------------------------------------------- properties

  /** All the numbers the program computes fit their 64-bit types: the claimed length is an
      unsigned one and neither subtraction goes below zero. */
  lemma NoWrap(file: seq<byte>)
    requires |file| <= MAX_FILE
    ensures Marked(file) ==> ClaimedLength(file) < 0x1_0000_0000_0000_0000
    ensures BaseSize(file).Ok? ==> 0 <= BaseSize(file).value <= |file| <= MAX_FILE
    ensures BaseSize(file).Ok? && BaseSize(file).value < |file| ==> BaseSize(file).value <= |file| - FOOTER
  {
    if Marked(file) {
      FromLittleEndianBound(file[|file| - FOOTER..|file| - 22]);
      Uint64();
    }
  }

  lemma Written(base: seq<byte>, payload: seq<byte>)
    requires payload != [] && |payload| < 0x1_0000_0000_0000_0000
    ensures var out := base + payload + LittleEndian(|payload|, LENGTH_BYTES) + MAGIC;
      && |out| == |base| + |payload| + FOOTER
      && Marked(out) && ClaimedLength(out) == |payload|
      && out[..|base|] == base && out[|base|..|out| - FOOTER] == payload
  {
    var length := LittleEndian(|payload|, LENGTH_BYTES);
    var out := base + payload + length + MAGIC;
    Uint64();
    LittleEndianRoundTrip(|payload|, 8);
    assert |MAGIC| == 22;
    assert out[|out| - 22..] == MAGIC;
    assert out[|out| - FOOTER..|out| - 22] == length;
  }

  /** Reading back what was written: the payload comes back and the base is the original base,
      exactly when the payload is not over the size limit. */
  lemma RoundTrip(file: seq<byte>, payload: seq<byte>)
    requires BaseSize(file).Ok? && payload != [] && |payload| < 0x1_0000_0000_0000_0000
    ensures var out := WriteExecutable(file, payload).value;
      && (|payload| <= MAX_PAYLOAD ==>
            ReadExecutable(out) == Ok(payload) && BaseSize(out) == BaseSize(file) && Base(out) == Base(file))
      && (|payload| > MAX_PAYLOAD ==> ReadExecutable(out).Err? && BaseSize(out).Err?)
  {
    hide LittleEndian, FromLittleEndian;
    Written(Base(file), payload);
  }

  /** Eight bytes that spell a number, the least significant first. */
  ghost predicate SpellsLength(b: seq<byte>, n: nat) {
    && |b| == 8
    && var d := (i: nat) requires i < 8 => b[i] as int;
      n == d(0) + 0x100 * d(1) + 0x1_0000 * d(2) + 0x100_0000 * d(3) + 0x1_0000_0000 * d(4)
           + 0x100_0000_0000 * d(5) + 0x1_0000_0000_0000 * d(6) + 0x100_0000_0000_0000 * d(7)
  }

  ghost predicate SpellsWord(b: seq<byte>, word: string) {
    |b| == |word| && forall i :: 0 <= i < |b| ==> b[i] == word[i] as int
  }

  lemma LengthSpelled(b: seq<byte>, n: nat)
    requires |b| == 8
    ensures SpellsLength(b, n) <==> FromLittleEndian(b) == n
  {
    assert FromLittleEndian(b[8..]) == 0;
    assert b[7..][1..] == b[8..] && b[6..][1..] == b[7..] && b[5..][1..] == b[6..] && b[4..][1..] == b[5..];
    assert b[3..][1..] == b[4..] && b[2..][1..] == b[3..] && b[1..][1..] == b[2..];
    assert FromLittleEndian(b[6..]) == b[6] + 256 * FromLittleEndian(b[7..]);
    assert FromLittleEndian(b[7..]) == b[7];
    assert FromLittleEndian(b[4..]) == b[4] + 256 * (b[5] + 256 * FromLittleEndian(b[6..]));
    assert FromLittleEndian(b[2..]) == b[2] + 256 * (b[3] + 256 * FromLittleEndian(b[4..]));
    assert FromLittleEndian(b) == b[0] + 256 * (b[1] + 256 * FromLittleEndian(b[2..]));
  }

  lemma Parts(base: seq<byte>, payload: seq<byte>, length: seq<byte>, word: seq<byte>)
    requires |length| == 8 && |word| == 22
    ensures var file := base + payload + length + word;
      && |file| == |base| + |payload| + FOOTER
      && file[|file| - 22..] == word && file[|file| - FOOTER..|file| - 22] == length
      && file[..|base|] == base && file[|base|..|file| - FOOTER] == payload
  {
  }

  lemma WordSpelled(b: seq<byte>)
    ensures SpellsWord(b, "SSHDesk-Team-Bundle-v1") <==> b == MAGIC
  {
    assert MAGIC_WORD == "SSHDesk-Team-Bundle-v1";
  }

  ghost predicate Formatted(file: seq<byte>, base: seq<byte>, payload: seq<byte>, length: seq<byte>, word: seq<byte>) {
    && SpellsLength(length, |payload|) && SpellsWord(word, "SSHDesk-Team-Bundle-v1")
    && file == base + payload + length + word
  }

  /** The format, byte by byte: a file reads as a payload on a base exactly when it is the base, the
      payload of at most 16 MiB, its length in eight bytes, and the magic word. */
  lemma FormatExact(file: seq<byte>, base: seq<byte>, payload: seq<byte>)
    requires payload != []
    ensures BaseSize(file) == Ok(|base|) && Base(file) == base && ReadExecutable(file) == Ok(payload) <==>
      |payload| <= 16_777_216 && exists length: seq<byte>, word: seq<byte> :: Formatted(file, base, payload, length, word)
  {
    if BaseSize(file) == Ok(|base|) && Base(file) == base && ReadExecutable(file) == Ok(payload) {
      FormatRead(file, base, payload);
    }
    forall length: seq<byte>, word: seq<byte> | |payload| <= 16_777_216 && Formatted(file, base, payload, length, word)
      ensures BaseSize(file) == Ok(|base|) && Base(file) == base && ReadExecutable(file) == Ok(payload)
    {
      hide FromLittleEndian, SpellsWord;
      LengthSpelled(length, |payload|);
      WordSpelled(word);
      Parts(base, payload, length, word);
    }
  }

  lemma FormatRead(file: seq<byte>, base: seq<byte>, payload: seq<byte>)
    requires payload != [] && BaseSize(file) == Ok(|base|) && Base(file) == base && ReadExecutable(file) == Ok(payload)
    ensures |payload| <= 16_777_216 && exists length: seq<byte>, word: seq<byte> :: Formatted(file, base, payload, length, word)
  {
    hide FromLittleEndian, SpellsLength, SpellsWord;
    var length, word := file[|file| - FOOTER..|file| - 22], file[|file| - 22..];
    LengthSpelled(length, |payload|);
    WordSpelled(word);
    assert file == base + payload + length + word;
    assert Formatted(file, base, payload, length, word);
  }

  /** A file is its own base, without a payload, exactly when it does not end with the word or is too short
      to hold a length in front of it. */
  lemma UnsharedExact(file: seq<byte>)
    ensures BaseSize(file) == Ok(|file|) && ReadExecutable(file) == Ok([]) && Base(file) == file <==>
      !(|file| >= 30 && SpellsWord(file[|file| - 22..], "SSHDesk-Team-Bundle-v1"))
  {
    if |file| >= 30 { WordSpelled(file[|file| - 22..]); }
    hide FromLittleEndian, SpellsWord;
    assert file[..|file|] == file;
  }

  /** The file after sharing with each payload in turn. */
  function ShareAll(file: seq<byte>, payloads: seq<seq<byte>>): Result<seq<byte>> {
    if payloads == [] then Ok(file)
    else
      match ShareAll(file, payloads[..|payloads| - 1])
      case Err => Err
      case Ok(shared) => WriteExecutable(shared, payloads[|payloads| - 1])
  }

  /** However often it is shared again, only the last payload remains, on the original base. */
  lemma {:induction false} OnlyLastPayloadRemains(file: seq<byte>, payloads: seq<seq<byte>>)
    requires BaseSize(file).Ok? && payloads != []
    requires forall p <- payloads :: 0 < |p| <= MAX_PAYLOAD
    ensures var last := payloads[|payloads| - 1];
      ShareAll(file, payloads) == WriteExecutable(file, last)
      && ReadExecutable(ShareAll(file, payloads).value) == Ok(last)
      && Base(ShareAll(file, payloads).value) == Base(file)
  {
    var n := |payloads| - 1;
    assert payloads[n] in payloads;
    RoundTrip(file, payloads[n]);
    if n > 0 {
      OnlyLastPayloadRemains(file, payloads[..n]);
      var before := payloads[..n][n - 1];
      assert before in payloads;
      RoundTrip(file, before);
    } else {
      assert ShareAll(file, payloads[..0]) == Ok(file);
    }
  }

  /** Stripping is final exactly when the base does not itself end with the magic word. */
  lemma StripTwice(file: seq<byte>)
    requires BaseSize(file).Ok?
    ensures BaseSize(Base(file)) == BaseSize(file) <==> !Marked(Base(file))
  {
    assert |Base(file)| == BaseSize(file).value;
  }

  /** A file for which it is not final: a shared file whose base was itself a shared file. */
  lemma NestedFooters()
    ensures var inner := [1] + LittleEndian(1, LENGTH_BYTES) + MAGIC;
      var file := inner + [2] + LittleEndian(1, LENGTH_BYTES) + MAGIC;
      BaseSize(file) == Ok(|inner|) && Base(file) == inner && BaseSize(inner) == Ok(0)
  {
    hide LittleEndian, FromLittleEndian;
    var inner := [1] + LittleEndian(1, LENGTH_BYTES) + MAGIC;
    Written([], [1]);
    assert [] + [1] + LittleEndian(1, LENGTH_BYTES) + MAGIC == inner;
    Written(inner, [2]);
  }
}
