/** Repair of UTF-8 text that was read as Windows-1252 (double encoding). */
module Utf8Repair {
  import opened Options
  import opened Utf8
  import opened Cp1252

  /** A character that repair may reinterpret as one byte. */
  predicate InRun(c: CodePoint) {
    c > 127 && EncodeChar(c).Some?
  }

  /** The bytes of the run of reinterpretable characters at the start of `t`. */
  function RunBytes(t: Text): (b: Bytes)
    ensures |b| <= |t|
  {
    if t == [] || !InRun(t[0]) then [] else [EncodeChar(t[0]).value] + RunBytes(t[1..])
  }

  /** What repair writes for the start of a text, and how many characters that covers: a run
    * that reads as UTF-8 is replaced, a character that starts no such run is kept. */
  function Piece(t: Text): (p: (Text, nat))
    requires t != []
    ensures 0 < p.1 <= |t|
  {
    var run := RunBytes(t);
    if run != [] && Decode(run).Some? then (Decode(run).value, |run|) else ([t[0]], 1)
  }

  function Repaired(t: Text): Text
    decreases |t|
  {
    if t == [] then [] else Piece(t).0 + Repaired(t[Piece(t).1..])
  }

  /** The inner loop: the bytes of the run that starts at `i`, and where that run ends. */
  method CollectRun(text: Text, i: nat) returns (buf: Bytes, j: nat)
    requires i < |text|
    ensures buf == RunBytes(text[i..]) && j == i + |buf|
  {
    hide RunBytes, EncodeChar;
    buf, j := [], i;
    while j < |text| && text[j] > 127
      invariant i <= j <= |text| && |buf| == j - i
      invariant buf + RunBytes(text[j..]) == RunBytes(text[i..])
    {
      RunBytesFrom(text, j, buf);
      var b := EncodeChar(text[j]);
      if b.None? {
        break;
      }
      buf := buf + [b.value];
      j := j + 1;
    }
    EmptyRun(text[j..]);
  }

  lemma RunBytesFrom(text: Text, j: nat, buf: Bytes)
    requires j < |text| && text[j] > 127
    ensures var b := EncodeChar(text[j]);
            buf + RunBytes(text[j..])
            == if b.Some? then buf + [b.value] + RunBytes(text[j + 1..]) else buf
  {
    assert text[j..][1..] == text[j + 1..];
  }

  lemma EmptyRun(t: Text)
    ensures t == [] || t[0] <= 127 || EncodeChar(t[0]).None? ==> RunBytes(t) == []
  {
  }

  /** The outer loop. */
  method RepairDoubleEncodedUtf8(text: Text) returns (repaired: Text)
    ensures repaired == Repaired(text)
  {
    hide Decode, EncodeChar, RunBytes;
    repaired := [];
    var i, n := 0, |text|;
    while i < n
      invariant 0 <= i <= n
      invariant repaired + Repaired(text[i..]) == Repaired(text)
    {
      RepairedFrom(text, i, repaired);
      if text[i] > 127 {
        var buf, j := CollectRun(text, i);
        if buf != [] {
          var decoded := Decode(buf);
          if decoded.Some? {
            repaired := repaired + decoded.value;
            i := j;
            continue;
          }
        }
      }
      assert Piece(text[i..]) == ([text[i]], 1) by { EmptyRun(text[i..]); }
      repaired := repaired + [text[i]];
      i := i + 1;
    }
  }

  lemma RepairedFrom(text: Text, i: nat, done: Text)
    requires i < |text|
    ensures var p := Piece(text[i..]);
            done + Repaired(text[i..]) == done + p.0 + Repaired(text[i + p.1..])
  {
    assert text[i..][Piece(text[i..]).1..] == text[i + Piece(text[i..]).1..];
  }

  // Repair is local

  lemma {:induction false} RunStopsAt(a: Text, c: CodePoint, b: Text)
    requires !InRun(c)
    ensures RunBytes(a + [c] + b) == RunBytes(a)
  {
    if a != [] {
      assert (a + [c] + b)[1..] == a[1..] + [c] + b;
      RunStopsAt(a[1..], c, b);
    }
  }

  /** A character that is ASCII, or that Windows-1252 cannot encode, separates what is before
    * it from what is after it. */
  lemma {:induction false} RepairDistributes(a: Text, c: CodePoint, b: Text)
    requires c <= 127 || EncodeChar(c).None?
    ensures Repaired(a + [c] + b) == Repaired(a) + [c] + Repaired(b)
    decreases |a|
  {
    hide RunBytes, Decode, EncodeChar;
    var t := a + [c] + b;
    RunStopsAt(a, c, b);
    EmptyRun([]);
    if a == [] {
      assert t[1..] == b;
    } else {
      var n := Piece(a).1;
      assert t[n..] == a[n..] + [c] + b;
      RepairDistributes(a[n..], c, b);
    }
  }

  // Repair of one run

  lemma {:induction false} RunBytesOf(t: Text, b: Bytes)
    requires |b| == |t| && forall i :: 0 <= i < |t| ==> t[i] > 127 && DecodeByte(b[i]) == Some(t[i])
    ensures RunBytes(t) == b
  {
    hide DecodeByte, EncodeChar;
    if t != [] {
      EncodeOfDecodeByte(b[0]);
      RunBytesOf(t[1..], b[1..]);
      assert b == [b[0]] + b[1..];
    }
  }

  lemma WholeRunIsRead(t: Text, b: Bytes)
    requires RunBytes(t) == b && |b| == |t| && Decode(b).Some?
    ensures Repaired(t) == Decode(b).value
  {
    hide Decode, RunBytes;
    if t == [] {
      assert Decode([]) == Some([]) by { NothingDecodes(); }
    } else {
      assert t[|b|..] == [];
    }
  }

  lemma DropOneMore(b: Bytes, j: nat)
    requires j < |b|
    ensures b[1..][j..] == b[j + 1..]
  {
  }

  lemma TakeOneMore(t: Text, k: nat)
    requires 0 < k <= |t|
    ensures [t[0]] + t[1..][..k - 1] == t[..k]
  {
  }

  lemma FirstOfRunIsKept(t: Text)
    requires t != [] && Decode(RunBytes(t)).None?
    ensures Repaired(t) == [t[0]] + Repaired(t[1..])
  {
    hide Decode, RunBytes;
  }

  /** A run of characters that stand for the bytes `b`: repair keeps characters from the left
    * until the remaining bytes are UTF-8, and then reads all of these at once. */
  lemma {:induction false} RepairOfRun(t: Text, b: Bytes, k: nat)
    requires |b| == |t| && forall i :: 0 <= i < |t| ==> t[i] > 127 && DecodeByte(b[i]) == Some(t[i])
    requires k <= |b| && Decode(b[k..]).Some?
    requires forall j :: 0 <= j < k ==> Decode(b[j..]).None?
    ensures Repaired(t) == t[..k] + Decode(b[k..]).value
    decreases |t|
  {
    hide Decode, EncodeChar, DecodeByte, RunBytes, Repaired;
    RunBytesOf(t, b);
    assert b[0..] == b;
    if k == 0 {
      WholeRunIsRead(t, b);
    } else {
      FirstOfRunIsKept(t);
      forall j | 0 <= j < k ensures b[1..][j..] == b[j + 1..] {
        DropOneMore(b, j);
      }
      RepairOfRun(t[1..], b[1..], k - 1);
      TakeOneMore(t, k);
    }
  }

  lemma NothingDecodes()
    ensures Decode([]) == Some([])
  {
  }

  // Repair keeps the ASCII text and never lengthens

  function AsciiOf(t: Text): Text {
    if t == [] then []
    else if t[0] <= 127 then [t[0]] + AsciiOf(t[1..])
    else AsciiOf(t[1..])
  }

  lemma {:induction false} AsciiOfConcat(s: Text, t: Text)
    ensures AsciiOf(s + t) == AsciiOf(s) + AsciiOf(t)
  {
    if s == [] {
      assert s + t == t;
    } else {
      assert (s + t)[0] == s[0] && (s + t)[1..] == s[1..] + t;
      AsciiOfConcat(s[1..], t);
    }
  }

  predicate IsHigh(b: Bytes) {
    forall i :: 0 <= i < |b| ==> b[i] >= 0x80
  }

  lemma {:induction false} RunIsHigh(t: Text)
    ensures IsHigh(RunBytes(t)) && AsciiOf(t[..|RunBytes(t)|]) == []
  {
    if RunBytes(t) != [] {
      DecodeOfEncodeChar(t[0]);
      RunIsHigh(t[1..]);
      var run := t[..|RunBytes(t)|];
      assert run[1..] == t[1..][..|RunBytes(t[1..])|];
    }
  }

  lemma {:induction false} HighBytesDecodeHigh(b: Bytes)
    requires IsHigh(b) && Decode(b).Some?
    ensures AsciiOf(Decode(b).value) == [] && |Decode(b).value| <= |b|
  {
    if b != [] {
      var n := Accepted(b);
      EncodeOneOfDecodeOne(b);
      assert b[..n][0] == b[0];
      HighBytesDecodeHigh(b[n..]);
      assert Decode(b).value[1..] == Decode(b[n..]).value;
    }
  }

  lemma {:induction false} RepairKeepsAsciiAndNeverLengthens(t: Text)
    ensures AsciiOf(Repaired(t)) == AsciiOf(t)
    ensures |Repaired(t)| <= |t|
    decreases |t|
  {
    if t != [] {
      var (written, n) := Piece(t);
      RunIsHigh(t);
      var run := RunBytes(t);
      if run != [] && Decode(run).Some? {
        HighBytesDecodeHigh(run);
      } else {
        assert t[..1] == written;
      }
      RepairKeepsAsciiAndNeverLengthens(t[n..]);
      assert t == t[..n] + t[n..];
      AsciiOfConcat(t[..n], t[n..]);
      AsciiOfConcat(written, Repaired(t[n..]));
    }
  }

  // Repair undoes double encoding

  predicate AvoidsUndefined(b: Bytes) {
    forall i :: 0 <= i < |b| ==> !IsUndefined(b[i])
  }

  /** Bytes read as Windows-1252; None stands for UnicodeDecodeError. */
  function Misread(b: Bytes): (t: Option<Text>)
    ensures t.Some? ==> |t.value| == |b|
  {
    if b == [] then Some([])
    else
      var rest := Misread(b[1..]);
      if DecodeByte(b[0]).None? || rest.None? then None else Some([DecodeByte(b[0]).value] + rest.value)
  }

  lemma {:induction false} MisreadExactlyWhenDefined(b: Bytes)
    ensures Misread(b).Some? <==> AvoidsUndefined(b)
  {
    if b != [] {
      EncodeOfDecodeByte(b[0]);
      MisreadExactlyWhenDefined(b[1..]);
      assert b == [b[0]] + b[1..];
    }
  }

  lemma {:induction false} MisreadOfConcat(a: Bytes, b: Bytes)
    requires Misread(a + b).Some?
    ensures Misread(a).Some? && Misread(b).Some?
    ensures Misread(a + b).value == Misread(a).value + Misread(b).value
  {
    if a == [] {
      assert a + b == b;
    } else {
      assert (a + b)[1..] == a[1..] + b;
      MisreadOfConcat(a[1..], b);
    }
  }

  lemma {:induction false} RunOfMisread(b: Bytes, rest: Text)
    requires IsHigh(b) && Misread(b).Some?
    requires rest == [] || !InRun(rest[0])
    ensures RunBytes(Misread(b).value + rest) == b
  {
    var t := Misread(b).value;
    if b == [] {
      assert t + rest == rest;
    } else {
      EncodeOfDecodeByte(b[0]);
      assert (t + rest)[1..] == Misread(b[1..]).value + rest;
      RunOfMisread(b[1..], rest);
    }
  }

  function NonAsciiLength(t: Text): (n: nat)
    ensures n <= |t| && AsciiOf(t[..n]) == []
    ensures n < |t| ==> t[n] <= 127
  {
    if t == [] || t[0] <= 127 then 0 else
      var n := NonAsciiLength(t[1..]);
      assert t[..n + 1][1..] == t[1..][..n];
      n + 1
  }

  lemma {:induction false} NonAsciiEncodesHigh(t: Text)
    requires IsEncodable(t) && AsciiOf(t) == []
    ensures IsHigh(Encode(t))
    ensures t != [] ==> Encode(t) != []
  {
    if t != [] {
      NonAsciiEncodesHigh(t[1..]);
      HighCharacter(t[0]);
    }
  }

  lemma HighCharacter(c: CodePoint)
    requires IsScalar(c) && c > 127
    ensures IsHigh(EncodeOne(c))
  {
  }

  lemma MisreadSplits(t: Text, n: nat)
    requires IsEncodable(t) && Misread(Encode(t)).Some? && n <= |t|
    ensures IsEncodable(t[..n]) && Misread(Encode(t[..n])).Some?
    ensures IsEncodable(t[n..]) && Misread(Encode(t[n..])).Some?
    ensures Misread(Encode(t)).value == Misread(Encode(t[..n])).value + Misread(Encode(t[n..])).value
  {
    hide Encode, Misread;
    assert t == t[..n] + t[n..];
    EncodeOfConcat(t[..n], t[n..]);
    MisreadOfConcat(Encode(t[..n]), Encode(t[n..]));
  }

  lemma AsciiCharacter(c: CodePoint)
    requires c <= 127
    ensures IsScalar(c) && EncodeOne(c) == [c as Byte] && DecodeByte(c as Byte) == Some(c)
  {
  }

  lemma AsciiIsNotMisread(t: Text)
    requires t != [] && t[0] <= 127
    requires IsEncodable(t) && Misread(Encode(t)).Some?
    ensures IsEncodable(t[1..]) && Misread(Encode(t[1..])).Some?
    ensures Misread(Encode(t)).value == [t[0]] + Misread(Encode(t[1..])).value
  {
    hide Decode, EncodeChar, EncodeOne, DecodeByte;
    var b, rest := t[0] as Byte, Encode(t[1..]);
    AsciiCharacter(t[0]);
    assert Encode(t) == [b] + rest && ([b] + rest)[1..] == rest;
  }

  /** Writing a text as UTF-8, reading the bytes as Windows-1252 and repairing gives the text
    * back, whenever those bytes can be read as Windows-1252 at all. */
  lemma {:induction false} RepairUndoesDoubleEncoding(t: Text)
    requires IsEncodable(t) && AvoidsUndefined(Encode(t))
    ensures Misread(Encode(t)).Some?
    ensures Repaired(Misread(Encode(t)).value) == t
  {
    MisreadExactlyWhenDefined(Encode(t));
    RepairUndoesMisreading(t);
  }

  lemma {:induction false} RepairUndoesMisreading(t: Text)
    requires IsEncodable(t) && Misread(Encode(t)).Some?
    ensures Repaired(Misread(Encode(t)).value) == t
    decreases |t|
  {
    hide RunBytes, Decode, EncodeChar, DecodeByte, EncodeOne, Repaired, Piece;
    if t == [] {
      assert Repaired([]) == [] by { RepairedOfNothing(); }
    } else {
      var n := NonAsciiLength(t);
      if n == 0 {
        AsciiIsNotMisread(t);
        RepairUndoesMisreading(t[1..]);
        AsciiIsKept(t[0], Misread(Encode(t[1..])).value);
      } else {
        MisreadSplits(t, n);
        RepairUndoesMisreading(t[n..]);
        if n < |t| {
          AsciiIsNotMisread(t[n..]);
        }
        RunIsReplaced(t[..n], Misread(Encode(t[n..])).value);
        assert t == t[..n] + t[n..];
      }
    }
  }

  lemma RepairedOfNothing()
    ensures Repaired([]) == []
  {
  }

  lemma AsciiIsKept(c: CodePoint, rest: Text)
    requires c <= 127
    ensures Repaired([c] + rest) == [c] + Repaired(rest)
  {
    var t := [c] + rest;
    EmptyRun(t);
    assert t[1..] == rest;
  }

  lemma RunIsReplaced(t: Text, rest: Text)
    requires t != [] && IsEncodable(t) && AsciiOf(t) == [] && Misread(Encode(t)).Some?
    requires rest == [] || rest[0] <= 127
    ensures Repaired(Misread(Encode(t)).value + rest) == t + Repaired(rest)
  {
    var doubled := Misread(Encode(t)).value + rest;
    NonAsciiEncodesHigh(t);
    RunOfMisread(Encode(t), rest);
    DecodeOfEncode(t);
    assert Piece(doubled) == (t, |Encode(t)|);
    assert doubled[|Encode(t)|..] == rest;
  }
}
