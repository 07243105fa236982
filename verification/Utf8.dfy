/** UTF-8 as Python's codec reads and writes it (sections 3 and 4 of RFC 3629).
  * A Python string is a sequence of code points, surrogates included; only scalar
  * values can be encoded.
  */
module Utf8 {
  import opened Options

  newtype CodePoint = c: int | 0 <= c < 0x110000
  newtype Byte = b: int | 0 <= b < 0x100
  type Text = seq<CodePoint>
  type Bytes = seq<Byte>

  predicate IsScalar(c: CodePoint) {
    !(0xD800 <= c <= 0xDFFF)
  }

  predicate IsEncodable(t: Text) {
    forall i :: 0 <= i < |t| ==> IsScalar(t[i])
  }

  type ScalarText = t: Text | IsEncodable(t)

  function FromString(s: string): (t: ScalarText)
    ensures |t| == |s|
    ensures forall i :: 0 <= i < |s| ==> t[i] as int == s[i] as int
  {
    seq(|s|, i requires 0 <= i < |s| => s[i] as CodePoint)
  }

  // Encoding

  /** A continuation byte carries six bits. */
  function LowSix(c: CodePoint): Byte {
    (0x80 + c % 0x40) as Byte
  }

  function EncodeOne(c: CodePoint): (b: Bytes)
    requires IsScalar(c)
    ensures 1 <= |b| <= 4
  {
    if c < 0x80 then [c as Byte]
    else if c < 0x800 then [(0xC0 + c / 0x40) as Byte, LowSix(c)]
    else if c < 0x10000 then [(0xE0 + c / 0x40 / 0x40) as Byte, LowSix(c / 0x40), LowSix(c)]
    else [(0xF0 + c / 0x40 / 0x40 / 0x40) as Byte, LowSix(c / 0x40 / 0x40), LowSix(c / 0x40), LowSix(c)]
  }

  function Encode(t: Text): Bytes
    requires IsEncodable(t)
  {
    if t == [] then [] else EncodeOne(t[0]) + Encode(t[1..])
  }

  // Decoding

  /** How many bytes the lead byte announces; 0 for a byte that cannot lead. */
  function SequenceLength(lead: Byte): nat {
    if lead < 0x80 then 1
    else if 0xC2 <= lead <= 0xDF then 2
    else if 0xE0 <= lead <= 0xEF then 3
    else if 0xF0 <= lead <= 0xF4 then 4
    else 0
  }

  predicate IsContinuation(b: Byte) {
    0x80 <= b <= 0xBF
  }

  /** The second byte is narrowed after four lead bytes: that is what excludes overlong
    * forms, surrogates and values above 0x10FFFF. */
  predicate IsSecond(lead: Byte, b: Byte) {
    && (if lead == 0xE0 then 0xA0 else if lead == 0xF0 then 0x90 else 0x80) <= b
    && b <= (if lead == 0xED then 0x9F else if lead == 0xF4 then 0x8F else 0xBF)
  }

  /** Length of the longest start of `b` that could still grow into one character, and at
    * least 1. This is also how many bytes the codec reports as bad when it gives up. */
  function Accepted(b: Bytes): (n: nat)
    requires b != []
    ensures 1 <= n <= |b|
  {
    var need := SequenceLength(b[0]);
    if need < 2 || |b| < 2 || !IsSecond(b[0], b[1]) then 1
    else if need == 2 || |b| < 3 || !IsContinuation(b[2]) then 2
    else if need == 3 || |b| < 4 || !IsContinuation(b[3]) then 3
    else 4
  }

  predicate StartsWithCharacter(b: Bytes)
    requires b != []
  {
    Accepted(b) == SequenceLength(b[0])
  }

  /** Appends the six bits of a continuation byte. */
  function Append(high: int, b: Byte): int {
    high * 0x40 + (b as int - 0x80)
  }

  function DecodeOne(b: Bytes): CodePoint
    requires b != [] && StartsWithCharacter(b)
  {
    var n, lead := SequenceLength(b[0]), b[0] as int;
    if n == 1 then b[0] as CodePoint
    else if n == 2 then Append(lead - 0xC0, b[1]) as CodePoint
    else if n == 3 then Append(Append(lead - 0xE0, b[1]), b[2]) as CodePoint
    else Append(Append(Append(lead - 0xF0, b[1]), b[2]), b[3]) as CodePoint
  }

  /** Strict decoding: None stands for UnicodeDecodeError. */
  function Decode(b: Bytes): Option<Text> {
    if b == [] then Some([])
    else if !StartsWithCharacter(b) then None
    else
      var rest := Decode(b[Accepted(b)..]);
      if rest.None? then None else Some([DecodeOne(b)] + rest.value)
  }

  /** Decoding with errors='ignore': a bad start is dropped and decoding goes on after it. */
  function DecodeIgnoringErrors(b: Bytes): Text {
    if b == [] then []
    else
      var rest := DecodeIgnoringErrors(b[Accepted(b)..]);
      if StartsWithCharacter(b) then [DecodeOne(b)] + rest else rest
  }

  // One character

  lemma DecodeOneOfEncodeOne(c: CodePoint, rest: Bytes)
    requires IsScalar(c)
    ensures var b := EncodeOne(c) + rest;
            StartsWithCharacter(b) && Accepted(b) == |EncodeOne(c)| && DecodeOne(b) == c
  {
  }

  /** The form of section 3 of RFC 3629: the leading byte announces the length and carries the
    * highest bits, and each further byte carries the next six. */
  lemma EncodeOneIsPositional(c: CodePoint)
    requires IsScalar(c)
    ensures
      var b, v := EncodeOne(c), c as int;
      if v < 0x80 then |b| == 1 && b[0] as int == v
      else
        && (forall i :: 1 <= i < |b| ==> 0x80 <= b[i] <= 0xBF)
        && (if v < 0x800 then |b| == 2 && 0xC0 <= b[0] < 0xE0
            else if v < 0x10000 then |b| == 3 && 0xE0 <= b[0] < 0xF0
            else |b| == 4 && 0xF0 <= b[0] < 0xF8)
        && v == if |b| == 2 then (b[0] as int - 0xC0) * 64 + (b[1] as int - 0x80)
                else if |b| == 3 then
                  (b[0] as int - 0xE0) * 4096 + (b[1] as int - 0x80) * 64 + (b[2] as int - 0x80)
                else
                  (b[0] as int - 0xF0) * 262144 + (b[1] as int - 0x80) * 4096 + (b[2] as int - 0x80) * 64
                  + (b[3] as int - 0x80)
  {
  }

  lemma AppendParts(high: int, b: Byte)
    requires IsContinuation(b)
    ensures Append(high, b) / 0x40 == high
    ensures Append(high, b) % 0x40 == b as int - 0x80
  {
  }

  lemma EncodeOfTwo(b: Bytes)
    requires b != [] && StartsWithCharacter(b) && SequenceLength(b[0]) == 2
    ensures IsScalar(DecodeOne(b)) && EncodeOne(DecodeOne(b)) == b[..2]
  {
    AppendParts(b[0] as int - 0xC0, b[1]);
  }

  lemma EncodeOfThree(b: Bytes)
    requires b != [] && StartsWithCharacter(b) && SequenceLength(b[0]) == 3
    ensures IsScalar(DecodeOne(b)) && EncodeOne(DecodeOne(b)) == b[..3]
  {
    var high := Append(b[0] as int - 0xE0, b[1]);
    AppendParts(b[0] as int - 0xE0, b[1]);
    AppendParts(high, b[2]);
  }

  lemma EncodeOfFour(b: Bytes)
    requires b != [] && StartsWithCharacter(b) && SequenceLength(b[0]) == 4
    ensures IsScalar(DecodeOne(b)) && EncodeOne(DecodeOne(b)) == b[..4]
  {
    var high := Append(b[0] as int - 0xF0, b[1]);
    AppendParts(b[0] as int - 0xF0, b[1]);
    AppendParts(high, b[2]);
    AppendParts(Append(high, b[2]), b[3]);
  }

  lemma EncodeOneOfDecodeOne(b: Bytes)
    requires b != [] && StartsWithCharacter(b)
    ensures IsScalar(DecodeOne(b))
    ensures EncodeOne(DecodeOne(b)) == b[..Accepted(b)]
  {
    var n := SequenceLength(b[0]);
    if n == 2 {
      EncodeOfTwo(b);
    } else if n == 3 {
      EncodeOfThree(b);
    } else if n == 4 {
      EncodeOfFour(b);
    }
  }

  /** A proper, non-empty start of an encoded character never decodes, and is dropped whole. */
  lemma PartialCharacterIsDropped(c: CodePoint, n: nat)
    requires IsScalar(c) && 0 < n < |EncodeOne(c)|
    ensures !StartsWithCharacter(EncodeOne(c)[..n])
    ensures Accepted(EncodeOne(c)[..n]) == n
  {
  }

  // Whole texts

  lemma {:induction false} DecodeOfEncode(t: Text)
    requires IsEncodable(t)
    ensures Decode(Encode(t)) == Some(t)
  {
    if t != [] {
      var first, rest := EncodeOne(t[0]), Encode(t[1..]);
      DecodeOneOfEncodeOne(t[0], rest);
      assert (first + rest)[|first|..] == rest;
      DecodeOfEncode(t[1..]);
      assert [t[0]] + t[1..] == t;
    }
  }

  lemma EncodeOfCons(c: CodePoint, rest: Text, b: Bytes, n: nat)
    requires IsScalar(c) && n <= |b| && EncodeOne(c) == b[..n]
    requires IsEncodable(rest) && Encode(rest) == b[n..]
    ensures IsEncodable([c] + rest) && Encode([c] + rest) == b
  {
    assert ([c] + rest)[1..] == rest;
    assert b[..n] + b[n..] == b;
  }

  /** Every byte sequence has at most one reading: decoding accepts only what encoding writes. */
  lemma {:induction false} EncodeOfDecode(b: Bytes)
    requires Decode(b).Some?
    ensures IsEncodable(Decode(b).value) && Encode(Decode(b).value) == b
  {
    if b != [] {
      var n := Accepted(b);
      EncodeOneOfDecodeOne(b);
      EncodeOfDecode(b[n..]);
      EncodeOfCons(DecodeOne(b), Decode(b[n..]).value, b, n);
    }
  }

  lemma {:induction false} EncodeOfConcat(s: Text, t: Text)
    requires IsEncodable(s) && IsEncodable(t)
    ensures IsEncodable(s + t) && Encode(s + t) == Encode(s) + Encode(t)
  {
    hide EncodeOne;
    if s == [] {
      assert s + t == t;
    } else {
      EncodeOfConcat(s[1..], t);
      assert (s + t)[0] == s[0] && (s + t)[1..] == s[1..] + t;
      assert Encode(s + t) == EncodeOne(s[0]) + Encode(s[1..] + t);
    }
  }
}
