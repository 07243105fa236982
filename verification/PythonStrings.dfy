/** The few string operations of Python that the services use. */
module PythonStrings {
  import opened Options

  predicate IsSpace(c: char) {
    var n := c as int;
    9 <= n <= 13 || 28 <= n <= 32 || n in {0x85, 0xA0, 0x1680} || 0x2000 <= n <= 0x200A
    || n in {0x2028, 0x2029, 0x202F, 0x205F, 0x3000}
  }

  /** s.strip() is empty. */
  predicate IsBlank(s: string) {
    forall i :: 0 <= i < |s| ==> IsSpace(s[i])
  }

  /** The white space that strip() removes, character by character. */
  const WHITE_SPACE :=
    "\U{0009}\U{000A}\U{000B}\U{000C}\U{000D}\U{001C}\U{001D}\U{001E}\U{001F}\U{0020}\U{0085}\U{00A0}\U{1680}"
    + "\U{2000}\U{2001}\U{2002}\U{2003}\U{2004}\U{2005}\U{2006}\U{2007}\U{2008}\U{2009}\U{200A}"
    + "\U{2028}\U{2029}\U{202F}\U{205F}\U{3000}"

  lemma SpaceIsWhiteSpace(c: char)
    ensures IsSpace(c) <==> c in WHITE_SPACE
  {
  }

  /** A text is blank exactly if it has no character but white space. */
  lemma BlankIsWhiteSpace(s: string)
    ensures IsBlank(s) <==> forall c :: c in s ==> c in WHITE_SPACE
  {
    hide IsSpace;
    forall c ensures IsSpace(c) <==> c in WHITE_SPACE {
      SpaceIsWhiteSpace(c);
    }
  }

  predicate IsPresent(s: Option<string>) {
    s.Some? && !IsBlank(s.value)
  }

  function LowerChar(c: char): char {
    if 'A' <= c <= 'Z' then (c as int + 32) as char else c
  }

  /** s.lower(), for strings whose only cased letters are ASCII. */
  function Lower(s: string): (r: string)
    ensures |r| == |s|
  {
    if s == [] then [] else [LowerChar(s[0])] + Lower(s[1..])
  }

  lemma {:induction false} LowerOfLower(s: string)
    ensures Lower(Lower(s)) == Lower(s)
  {
    if s != [] {
      LowerOfLower(s[1..]);
      assert Lower(s)[1..] == Lower(s[1..]);
    }
  }

  /** Upper-case ASCII letters become their lower-case letters; nothing else changes. */
  lemma {:induction false} LowerChangesLetters(s: string, i: nat)
    requires i < |s|
    ensures
      if 'A' <= s[i] <= 'Z' then 'a' <= Lower(s)[i] <= 'z' && Lower(s)[i] - 'a' == s[i] - 'A'
      else Lower(s)[i] == s[i]
  {
    if i > 0 {
      LowerChangesLetters(s[1..], i - 1);
      assert Lower(s)[i] == Lower(s[1..])[i - 1] && s[i] == s[1..][i - 1];
    }
  }

  predicate EndsWith(s: string, suffix: string) {
    |suffix| <= |s| && s[|s| - |suffix|..] == suffix
  }
}
