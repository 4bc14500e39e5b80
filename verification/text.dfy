/**
  The three string primitives the chat core leans on: `toLowerCase()`,
  `includes()` and `trim()`, on Dafny strings (`seq<char>` of Unicode scalar
  values).

  - `Lower` maps the ASCII capitals `A`..`Z` only (see README for why the
    keyword dispatch is unaffected by the non-ASCII part of JavaScript's map).
  - `Includes` is the left-to-right scan of `String.prototype.includes`,
    proved equal to "occurs at some index".
  - `Trim` strips the ECMAScript white-space and line-terminator code points
    from both ends; that set is small and written out exactly.
 */
module Text {

  /* ---------------- lowercase ---------------- */

  predicate IsUpper(c: char) {
    'A' <= c <= 'Z'
  }

  function LowerChar(c: char): (d: char)
    ensures !IsUpper(d)
    ensures IsUpper(c) ==> d as int == c as int + 32
    ensures !IsUpper(c) ==> d == c
  {
    if IsUpper(c) then (c as int + 32) as char else c
  }

  /** `s.toLowerCase()` restricted to ASCII letters: same length, each
      position mapped independently. */
  function Lower(s: string): (r: string)
    ensures |r| == |s|
    ensures forall i :: 0 <= i < |s| ==> r[i] == LowerChar(s[i])
  {
    if s == [] then [] else [LowerChar(s[0])] + Lower(s[1..])
  }

  predicate NoUpper(s: string) {
    forall i :: 0 <= i < |s| ==> !IsUpper(s[i])
  }

  /** Lowercasing leaves no capital behind and is idempotent; a string
      without capitals is its own lowercase. */
  lemma LowerFacts(s: string)
    ensures NoUpper(Lower(s))
    ensures Lower(Lower(s)) == Lower(s)
    ensures NoUpper(s) ==> Lower(s) == s
  {
  }

  /* ---------------- substring search ---------------- */

  /** `k` sits in `s` starting at index `i`. */
  predicate OccursAt(s: string, k: string, i: int) {
    0 <= i && i + |k| <= |s| && s[i..i + |k|] == k
  }

  ghost predicate Occurs(s: string, k: string) {
    exists i :: OccursAt(s, k, i)
  }

  /** The scan from index `i` onwards. */
  function IncludesFrom(s: string, k: string, i: nat): (b: bool)
    ensures b <==> exists j :: i <= j && OccursAt(s, k, j)
    decreases |s| - i
  {
    if i + |k| > |s| then
      false
    else if s[i..i + |k|] == k then
      assert OccursAt(s, k, i);
      true
    else
      IncludesFrom(s, k, i + 1)
  }

  /** `s.includes(k)`: true exactly when `k` occurs somewhere in `s`
      (in particular the empty string is included in every string). */
  function Includes(s: string, k: string): (b: bool)
    ensures b <==> Occurs(s, k)
  {
    IncludesFrom(s, k, 0)
  }

  /** `k` matches `s` at `i` when both are compared letter case aside. */
  predicate MatchesIgnoringCaseAt(s: string, k: string, i: int) {
    0 <= i && i + |k| <= |s| &&
    forall j :: 0 <= j < |k| ==> LowerChar(s[i + j]) == LowerChar(k[j])
  }

  ghost predicate OccursIgnoringCase(s: string, k: string) {
    exists i :: MatchesIgnoringCaseAt(s, k, i)
  }

  /** Searching the lowercased text for a lowercase keyword is the same as a
      case-insensitive search of the original text. */
  lemma IncludesLowerIsCaseInsensitive(s: string, k: string)
    requires NoUpper(k)
    ensures Includes(Lower(s), k) <==> OccursIgnoringCase(s, k)
  {
    var ls := Lower(s);
    if Includes(ls, k) {
      var i :| OccursAt(ls, k, i);
      assert forall j :: 0 <= j < |k| ==> ls[i + j] == k[j] by {
        forall j | 0 <= j < |k|
          ensures ls[i + j] == k[j]
        {
          assert ls[i..i + |k|][j] == ls[i + j];
        }
      }
      assert MatchesIgnoringCaseAt(s, k, i);
    }
    if OccursIgnoringCase(s, k) {
      var i :| MatchesIgnoringCaseAt(s, k, i);
      assert ls[i..i + |k|] == k;
      assert OccursAt(ls, k, i);
    }
  }

  /** A keyword with a letter the text never has, case aside, does not
      occur in it. */
  lemma AbsentLetterRulesOut(s: string, k: string, j: int)
    requires 0 <= j < |k|
    requires forall i :: 0 <= i < |s| ==> LowerChar(s[i]) != LowerChar(k[j])
    ensures !OccursIgnoringCase(s, k)
  {
    if i :| MatchesIgnoringCaseAt(s, k, i) {
      MatchedLetter(s, k, i, j);
      assert false;
    }
  }

  lemma MatchedLetter(s: string, k: string, i: int, j: int)
    requires MatchesIgnoringCaseAt(s, k, i) && 0 <= j < |k|
    ensures 0 <= i + j < |s| && LowerChar(s[i + j]) == LowerChar(k[j])
  {
  }

  /** Case-sensitively: a keyword does not occur in a text that lacks one of
      its letters ... */
  lemma AbsentLetterExcludes(s: string, k: string, j: int)
    requires 0 <= j < |k|
    requires forall i :: 0 <= i < |s| ==> s[i] != k[j]
    ensures !Occurs(s, k)
  {
    if i :| OccursAt(s, k, i) {
      OccurrenceLetter(s, k, i, j);
      assert false;
    }
  }

  /** ... or that never has two of its adjacent letters side by side. */
  lemma AbsentPairExcludes(s: string, k: string, j: int)
    requires 0 <= j && j + 1 < |k|
    requires forall i :: 0 <= i < |s| - 1 ==> s[i] != k[j] || s[i + 1] != k[j + 1]
    ensures !Occurs(s, k)
  {
    if i :| OccursAt(s, k, i) {
      OccurrenceLetter(s, k, i, j);
      OccurrenceLetter(s, k, i, j + 1);
      assert false;
    }
  }

  lemma OccurrenceLetter(s: string, k: string, i: int, j: int)
    requires OccursAt(s, k, i) && 0 <= j < |k|
    ensures 0 <= i + j < |s| && s[i + j] == k[j]
  {
    assert s[i..i + |k|][j] == s[i + j];
  }

  /* ---------------- trim ---------------- */

  /** ECMAScript WhiteSpace and LineTerminator code points: TAB, VT, FF,
      ZWNBSP, every space separator (Zs), LF, CR, LS and PS. */
  predicate IsWhitespace(c: char) {
    || c == '\t' || c == '\n' || c == '\U{B}' || c == '\U{C}' || c == '\r'
    || c == ' ' || c == '\U{A0}' || c == '\U{1680}'
    || ('\U{2000}' <= c <= '\U{200A}')
    || c == '\U{2028}' || c == '\U{2029}' || c == '\U{202F}' || c == '\U{205F}'
    || c == '\U{3000}' || c == '\U{FEFF}'
  }

  predicate AllWhitespace(s: string) {
    forall i :: 0 <= i < |s| ==> IsWhitespace(s[i])
  }

  /** Drops leading white space: what is left is a suffix of `s`, the part
      dropped is all white space and the suffix does not start with any. */
  function TrimStart(s: string): (r: string)
    ensures |r| <= |s| && r == s[|s| - |r|..]
    ensures AllWhitespace(s[..|s| - |r|])
    ensures |r| > 0 ==> !IsWhitespace(r[0])
  {
    if |s| > 0 && IsWhitespace(s[0]) then TrimStart(s[1..]) else s
  }

  /** Drops trailing white space, symmetrically. */
  function TrimEnd(s: string): (r: string)
    ensures |r| <= |s| && r == s[..|r|]
    ensures AllWhitespace(s[|r|..])
    ensures |r| > 0 ==> !IsWhitespace(r[|r| - 1])
  {
    if |s| > 0 && IsWhitespace(s[|s| - 1]) then TrimEnd(s[..|s| - 1]) else s
  }

  /** `r` is `s` with exactly its white-space border removed: `r` is the
      slice `s[i..i+|r|]`, everything outside the slice is white space and
      the slice neither starts nor ends with white space. */
  predicate TrimmedAt(s: string, r: string, i: int) {
    && 0 <= i && i + |r| <= |s|
    && s[i..i + |r|] == r
    && AllWhitespace(s[..i])
    && AllWhitespace(s[i + |r|..])
    && (|r| > 0 ==> !IsWhitespace(r[0]) && !IsWhitespace(r[|r| - 1]))
  }

  /** `s.trim()`. */
  function Trim(s: string): (r: string)
    ensures exists i :: TrimmedAt(s, r, i)
  {
    var t := TrimStart(s);
    var r := TrimEnd(t);
    var i := |s| - |t|;
    assert s[i..i + |r|] == r by {
      assert t == s[i..];
      assert r == t[..|r|];
    }
    assert AllWhitespace(s[i + |r|..]) by {
      assert s[i + |r|..] == t[|r|..];
    }
    assert TrimmedAt(s, r, i);
    r
  }

  /** The trimmed text is empty exactly when the text is white space only. */
  lemma TrimEmptyIff(s: string)
    ensures Trim(s) == [] <==> AllWhitespace(s)
  {
    var r := Trim(s);
    var i :| TrimmedAt(s, r, i);
    if r == [] {
      assert s == s[..i] + s[i..];
      forall p | 0 <= p < |s|
        ensures IsWhitespace(s[p])
      {
        if p < i {
          assert s[..i][p] == s[p];
        } else {
          assert s[i..][p - i] == s[p];
        }
      }
    } else {
      assert s[i] == r[0];
    }
  }

  /** Trimming twice changes nothing more. */
  lemma TrimIdempotent(s: string)
    ensures Trim(Trim(s)) == Trim(s)
  {
    var r := Trim(s);
    var i :| TrimmedAt(s, r, i);
    assert TrimStart(r) == r;
    assert TrimEnd(r) == r;
  }
}
