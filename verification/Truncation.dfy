/** Cutting tool output to a number of bytes without breaking a character. */
module Truncation {
  import opened Utf8

  const MAX_TOOL_RESULT_BYTES: nat := 32768
  const MARKER: ScalarText := FromString("\n[output truncated to 32KB]")

  /** How many characters of `t`, from the start, have a UTF-8 form of at most `limit` bytes. */
  function LongestFit(t: Text, limit: nat): (k: nat)
    requires IsEncodable(t)
    ensures k <= |t|
  {
    if t == [] || |EncodeOne(t[0])| > limit then 0
    else 1 + LongestFit(t[1..], limit - |EncodeOne(t[0])|)
  }

  /** Encodes, cuts the bytes, and drops the character that the cut may have split. */
  function TruncateToolResult(content: Text): Text
    requires IsEncodable(content)
  {
    var encoded := Encode(content);
    if |encoded| <= MAX_TOOL_RESULT_BYTES then content
    else DecodeIgnoringErrors(encoded[..MAX_TOOL_RESULT_BYTES]) + MARKER
  }

  /** LongestFit is what its name says, and the fit wastes fewer than four bytes. */
  lemma {:induction false} LongestFitIsLongest(t: Text, limit: nat, k: nat)
    requires IsEncodable(t) && k <= |t|
    ensures |Encode(t[..k])| <= limit <==> k <= LongestFit(t, limit)
    ensures LongestFit(t, limit) < |t| ==> limit - 3 <= |Encode(t[..LongestFit(t, limit)])|
  {
    var first := if t == [] then 0 else |EncodeOne(t[0])|;
    if t != [] && first <= limit {
      var best := LongestFit(t, limit);
      LongestFitIsLongest(t[1..], limit - first, if k == 0 then 0 else k - 1);
      EncodePrefix(t, k);
      EncodePrefix(t, best);
    } else if k > 0 {
      EncodePrefix(t, k);
    }
  }

  lemma EncodePrefix(t: Text, k: nat)
    requires IsEncodable(t) && k <= |t|
    ensures k > 0 ==> |Encode(t[..k])| == |EncodeOne(t[0])| + |Encode(t[1..][..k - 1])|
  {
    if k > 0 {
      assert t[..k][1..] == t[1..][..k - 1];
    }
  }

  lemma WholeCharacterIsKept(c: CodePoint, cut: Bytes)
    requires IsScalar(c)
    ensures DecodeIgnoringErrors(EncodeOne(c) + cut) == [c] + DecodeIgnoringErrors(cut)
  {
    DecodeOneOfEncodeOne(c, cut);
    assert (EncodeOne(c) + cut)[|EncodeOne(c)|..] == cut;
  }

  lemma SplitCharacterIsDropped(c: CodePoint, n: nat)
    requires IsScalar(c) && n < |EncodeOne(c)|
    ensures DecodeIgnoringErrors(EncodeOne(c)[..n]) == []
  {
    if n > 0 {
      PartialCharacterIsDropped(c, n);
      assert EncodeOne(c)[..n][n..] == [];
    }
  }

  /** Cutting an encoded text anywhere and ignoring errors keeps exactly the characters that
    * fit before the cut. */
  lemma {:induction false} CutDropsOnlySplitCharacter(t: Text, limit: nat)
    requires IsEncodable(t) && limit <= |Encode(t)|
    ensures DecodeIgnoringErrors(Encode(t)[..limit]) == t[..LongestFit(t, limit)]
  {
    hide EncodeOne;
    if t != [] {
      var first, rest := EncodeOne(t[0]), Encode(t[1..]);
      if |first| <= limit {
        var cut := rest[..limit - |first|];
        assert Encode(t)[..limit] == first + cut;
        WholeCharacterIsKept(t[0], cut);
        CutDropsOnlySplitCharacter(t[1..], limit - |first|);
        assert t[..LongestFit(t, limit)] == [t[0]] + t[1..][..LongestFit(t, limit) - 1];
      } else {
        assert Encode(t)[..limit] == first[..limit];
        SplitCharacterIsDropped(t[0], limit);
      }
    }
  }

  /** The identity on content that fits; otherwise the longest prefix that fits, and the
    * marker, with a bound on the bytes of the result. */
  lemma TruncationKeepsLongestFit(content: Text)
    requires IsEncodable(content)
    ensures var kept := LongestFit(content, MAX_TOOL_RESULT_BYTES);
            TruncateToolResult(content)
            == if kept == |content| then content else content[..kept] + MARKER
    ensures IsEncodable(TruncateToolResult(content))
    ensures |Encode(TruncateToolResult(content))| <= MAX_TOOL_RESULT_BYTES + |Encode(MARKER)|
  {
    hide Encode, LongestFit, DecodeIgnoringErrors;
    var limit := MAX_TOOL_RESULT_BYTES;
    var kept := LongestFit(content, limit);
    assert content[..|content|] == content;
    LongestFitIsLongest(content, limit, |content|);
    LongestFitIsLongest(content, limit, kept);
    if |Encode(content)| > limit {
      CutDropsOnlySplitCharacter(content, limit);
      EncodeOfConcat(content[..kept], MARKER);
    }
  }
}
