/**
 * The stability rule of the version-catalog update convention: a version is
 * non-stable when its upper-cased text contains one of the non-stable
 * keywords (only "ALPHA"), and an update is rejected when it would move a
 * stable dependency to a non-stable version.
 */
module VersionCatalog {

  /** Heuristic keywords of non-stable releases. */
  const NonStableKeywords: seq<string> := ["ALPHA"]

  /** Upper case of one character; only the ASCII letters a-z change. */
  function UpperChar(c: char): (u: char)
    ensures 'a' <= c <= 'z' ==> u as int == c as int - 32
    ensures !('a' <= c <= 'z') ==> u == c
    ensures !('a' <= u <= 'z')
  {
    if 'a' <= c <= 'z' then (c as int - 32) as char else c
  }

  /** The upper-cased text: same length, every character upper-cased. */
  function Uppercase(s: string): (u: string)
    ensures |u| == |s|
    ensures forall i :: 0 <= i < |s| ==> u[i] == UpperChar(s[i])
  {
    seq(|s|, i requires 0 <= i < |s| => UpperChar(s[i]))
  }

  /** Upper-casing twice changes nothing more. */
  lemma UppercaseIdempotent(s: string)
    ensures Uppercase(Uppercase(s)) == Uppercase(s)
  {
  }

  /** `keyword` occurs in `s` starting at index i. */
  predicate OccursAt(s: string, keyword: string, i: nat) {
    i + |keyword| <= |s| && s[i..i + |keyword|] == keyword
  }

  /** `keyword` occurs somewhere in `s` as a contiguous run of characters (String.contains). */
  function Contains(s: string, keyword: string): (found: bool)
    ensures found <==> exists i: nat :: OccursAt(s, keyword, i)
  {
    if |s| < |keyword| then false
    else if OccursAt(s, keyword, 0) then true
    else
      OccurrenceShift(s, keyword);
      Contains(s[1..], keyword)
  }

  /** Occurrences after the first character are the occurrences in the tail, one index earlier. */
  lemma OccurrenceShift(s: string, keyword: string)
    requires |s| > 0
    ensures forall i: nat :: OccursAt(s[1..], keyword, i) <==> OccursAt(s, keyword, i + 1)
    ensures (exists i: nat :: OccursAt(s, keyword, i)) ==>
      OccursAt(s, keyword, 0) || exists i: nat :: OccursAt(s[1..], keyword, i)
  {
    forall i: nat | OccursAt(s, keyword, i) && i > 0
      ensures OccursAt(s[1..], keyword, i - 1)
    {
      assert s[1..][i - 1..i - 1 + |keyword|] == s[i..i + |keyword|];
    }
    forall i: nat | OccursAt(s[1..], keyword, i)
      ensures OccursAt(s, keyword, i + 1)
    {
      assert s[1..][i..i + |keyword|] == s[i + 1..i + 1 + |keyword|];
    }
  }

  /** Whether a version is non-stable: its upper-cased text contains a non-stable keyword. */
  function IsNonStableVersion(version: string): (nonStable: bool)
    ensures nonStable <==> Contains(Uppercase(version), "ALPHA")
  {
    var uppercase := Uppercase(version);
    exists keyword :: keyword in NonStableKeywords && Contains(uppercase, keyword)
  }

  /**
   * The rejection rule for an update proposal: reject a non-stable candidate
   * while the current version is stable; accept every stable candidate, and
   * accept anything once the current version is itself non-stable.
   */
  function RejectVersion(candidate: string, current: string): (rejected: bool)
    ensures !IsNonStableVersion(candidate) ==> !rejected
    ensures IsNonStableVersion(current) ==> !rejected
    ensures IsNonStableVersion(candidate) && !IsNonStableVersion(current) ==> rejected
  {
    IsNonStableVersion(candidate) && !IsNonStableVersion(current)
  }

  /**
   * The test is case-insensitive: any spelling of "alpha", in any mix of
   * cases, anywhere in the version makes it non-stable.
   */
  lemma AnyCaseOfAlphaIsNonStable(prefix: string, word: string, suffix: string)
    requires Uppercase(word) == "ALPHA"
    ensures IsNonStableVersion(prefix + word + suffix)
  {
    var version := prefix + word + suffix;
    var u := Uppercase(version);
    forall j | 0 <= j < 5
      ensures u[|prefix| + j] == "ALPHA"[j]
    {
      assert version[|prefix| + j] == word[j];
    }
    assert u[|prefix|..|prefix| + 5] == "ALPHA";
    assert OccursAt(u, "ALPHA", |prefix|);
  }

  /** Versions that differ only in the case of their letters are classified alike. */
  lemma StabilityIgnoresCase(a: string, b: string)
    requires Uppercase(a) == Uppercase(b)
    ensures IsNonStableVersion(a) == IsNonStableVersion(b)
  {
  }

  /**
   * A version without the letter L in either case cannot contain "ALPHA"
   * once upper-cased, so it is stable.
   */
  lemma WithoutLetterLIsStable(version: string)
    requires forall i :: 0 <= i < |version| ==> version[i] != 'l' && version[i] != 'L'
    ensures !IsNonStableVersion(version)
  {
    var u := Uppercase(version);
    forall i: nat | i + 5 <= |u|
      ensures !OccursAt(u, "ALPHA", i)
    {
      assert u[i..i + 5][1] == u[i + 1] != 'L';
    }
  }

  /** "1.2.0-alpha03" is non-stable: the check ignores case. */
  lemma LowerCaseAlphaExample()
    ensures IsNonStableVersion("1.2.0-alpha03")
  {
    AnyCaseOfAlphaIsNonStable("1.2.0-", "alpha", "03");
    assert "1.2.0-" + "alpha" + "03" == "1.2.0-alpha03";
  }

  /** A beta version counts as stable: "ALPHA" is the only keyword. */
  lemma BetaExample()
    ensures !IsNonStableVersion("1.2.0-beta01")
  {
    WithoutLetterLIsStable("1.2.0-beta01");
  }

  /** A release candidate counts as stable too. */
  lemma ReleaseCandidateExample()
    ensures !IsNonStableVersion("1.2.0-rc01")
  {
    WithoutLetterLIsStable("1.2.0-rc01");
  }

  /** A plain release version is stable. */
  lemma ReleaseExample()
    ensures !IsNonStableVersion("1.2.0")
  {
    WithoutLetterLIsStable("1.2.0");
  }

  /** An alpha version with a different number is non-stable as well. */
  lemma OtherAlphaExample()
    ensures IsNonStableVersion("1.3.0-alpha01")
  {
    AnyCaseOfAlphaIsNonStable("1.3.0-", "alpha", "01");
    assert "1.3.0-" + "alpha" + "01" == "1.3.0-alpha01";
  }

  /** A stable dependency is not moved to an alpha. */
  lemma StableNotMovedToAlphaExample()
    ensures RejectVersion("1.3.0-alpha01", "1.2.0")
  {
    OtherAlphaExample();
    ReleaseExample();
  }

  /** An alpha dependency may move on to a newer alpha. */
  lemma AlphaMovesOnExample()
    ensures !RejectVersion("1.3.0-alpha02", "1.3.0-alpha01")
  {
    OtherAlphaExample();
  }
}
