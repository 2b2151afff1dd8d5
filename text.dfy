/**
 * The few string operations the core needs: ASCII case conversion
 * (`toLowerCase` / `toUpperCase`), substring search (`includes`) and
 * replacement of the first occurrence of a pattern (`replace` with a string).
 */
module Text {

  predicate IsUpperLetter(c: char) { 'A' <= c <= 'Z' }
  predicate IsLowerLetter(c: char) { 'a' <= c <= 'z' }

  function LowerChar(c: char): char {
    if IsUpperLetter(c) then (c as int + 32) as char else c
  }

  function UpperChar(c: char): char {
    if IsLowerLetter(c) then (c as int - 32) as char else c
  }

  /** No upper-case letter occurs in `s`. */
  predicate IsLowerCase(s: string) {
    forall i :: 0 <= i < |s| ==> !IsUpperLetter(s[i])
  }

  /** No lower-case letter occurs in `s`. */
  predicate IsUpperCase(s: string) {
    forall i :: 0 <= i < |s| ==> !IsLowerLetter(s[i])
  }

  /** Two strings that differ at most in the case of their letters. */
  predicate SameIgnoringCase(a: string, b: string) {
    |a| == |b| && forall i :: 0 <= i < |a| ==> LowerChar(a[i]) == LowerChar(b[i])
  }

  function Lower(s: string): (r: string)
    ensures |r| == |s| && IsLowerCase(r) && SameIgnoringCase(r, s)
  {
    seq(|s|, i requires 0 <= i < |s| => LowerChar(s[i]))
  }

  function Upper(s: string): (r: string)
    ensures |r| == |s| && IsUpperCase(r) && SameIgnoringCase(r, s)
  {
    seq(|s|, i requires 0 <= i < |s| => UpperChar(s[i]))
  }

  /** Lower-casing forgets exactly the case of letters: two strings lower-case alike iff they match ignoring case. */
  lemma LowerCaseInsensitive(a: string, b: string)
    ensures Lower(a) == Lower(b) <==> SameIgnoringCase(a, b)
  {
    if SameIgnoringCase(a, b) {
      assert forall i :: 0 <= i < |a| ==> Lower(a)[i] == Lower(b)[i];
    }
  }

  /** Upper-casing a lower-cased string gives the upper-cased original. */
  lemma UpperOfLower(s: string)
    ensures Upper(Lower(s)) == Upper(s)
  {
    assert forall i :: 0 <= i < |s| ==> Upper(Lower(s))[i] == Upper(s)[i];
  }

  predicate IsPrefix(p: string, s: string) {
    |p| <= |s| && s[..|p|] == p
  }

  /** `p` occurs in `s` starting at index `k`. */
  predicate OccursAt(s: string, p: string, k: int) {
    0 <= k && k + |p| <= |s| && s[k..k + |p|] == p
  }

  /** `s.includes(p)`: `p` occurs somewhere in `s`. */
  predicate Contains(s: string, p: string) {
    exists k | 0 <= k <= |s| :: OccursAt(s, p, k)
  }

  /** `k` is where `p` first occurs in `s`. */
  predicate FirstOccurrence(s: string, p: string, k: int) {
    OccursAt(s, p, k) && forall j :: 0 <= j < k ==> !OccursAt(s, p, j)
  }

  /**
   * `s.replace(p, "")` with a string pattern: only the first occurrence of `p`
   * is removed, and a string without `p` is returned unchanged.
   */
  function RemoveFirst(s: string, p: string): (r: string)
    requires |p| > 0
    ensures Contains(s, p) ==> exists k :: FirstOccurrence(s, p, k) && r == s[..k] + s[k + |p|..]
    ensures !Contains(s, p) ==> r == s
    ensures IsPrefix(p, s) ==> r == s[|p|..]
    ensures |r| == if Contains(s, p) then |s| - |p| else |s|
    decreases |s|
  {
    if |s| < |p| then
      assert !Contains(s, p);
      s
    else if IsPrefix(p, s) then
      assert FirstOccurrence(s, p, 0);
      assert s[..0] + s[|p|..] == s[|p|..];
      s[|p|..]
    else
      ContainsAfterFirst(s, p);
      var rest := RemoveFirst(s[1..], p);
      RemoveFirstShift(s, p, rest);
      [s[0]] + rest
  }

  /** `p` occurs in `s` at `k + 1` exactly when it occurs in the tail of `s` at `k`. */
  lemma OccursAtShift(s: string, p: string, k: nat)
    requires |s| > 0
    ensures OccursAt(s, p, k + 1) <==> OccursAt(s[1..], p, k)
  {
    if k + 1 + |p| <= |s| {
      assert s[1..][k..k + |p|] == s[k + 1..k + 1 + |p|];
    }
  }

  /**
   * When `p` does not start `s`, removing the first `p` from the tail removes
   * the first `p` of `s`, one position further on.
   */
  lemma RemoveFirstShift(s: string, p: string, rest: string)
    requires |s| >= |p| > 0 && !IsPrefix(p, s)
    requires Contains(s[1..], p) ==> exists k :: FirstOccurrence(s[1..], p, k) && rest == s[1..][..k] + s[1..][k + |p|..]
    ensures Contains(s[1..], p) ==>
      exists k :: FirstOccurrence(s, p, k) && [s[0]] + rest == s[..k] + s[k + |p|..]
  {
    if Contains(s[1..], p) {
      var k :| FirstOccurrence(s[1..], p, k) && rest == s[1..][..k] + s[1..][k + |p|..];
      OccursAtShift(s, p, k);
      forall j | 0 <= j < k + 1
        ensures !OccursAt(s, p, j)
      {
        if j > 0 {
          OccursAtShift(s, p, j - 1);
        }
      }
      assert FirstOccurrence(s, p, k + 1);
      assert [s[0]] + rest == s[..k + 1] + s[k + 1 + |p|..];
    }
  }

  /** When `p` does not start `s`, it occurs in `s` iff it occurs after the first character. */
  lemma ContainsAfterFirst(s: string, p: string)
    requires |s| >= |p| > 0 && !IsPrefix(p, s)
    ensures Contains(s, p) <==> Contains(s[1..], p)
  {
    if Contains(s[1..], p) {
      var k :| 0 <= k <= |s| - 1 && OccursAt(s[1..], p, k);
      assert s[1..][k..k + |p|] == s[k + 1..k + 1 + |p|];
      assert OccursAt(s, p, k + 1);
    }
    if Contains(s, p) {
      var k :| 0 <= k <= |s| && OccursAt(s, p, k);
      assert k != 0;
      assert s[1..][k - 1..k - 1 + |p|] == s[k..k + |p|];
      assert OccursAt(s[1..], p, k - 1);
    }
  }

  /** A one-character pattern occurs exactly when that character does. */
  lemma ContainsChar(s: string, c: char)
    ensures Contains(s, [c]) <==> c in s
  {
    if c in s {
      var k :| 0 <= k < |s| && s[k] == c;
      assert OccursAt(s, [c], k);
    }
    if Contains(s, [c]) {
      var k :| 0 <= k <= |s| && OccursAt(s, [c], k);
      assert s[k..k + 1] == [c];
      assert s[k] == c;
    }
  }
}
