/**
 * The two pieces of Python string behaviour the bridge relies on:
 * `str.strip()` with no argument, and the substring test `p in s`.
 */
module Text {

  /** The characters Python's `str.isspace()` accepts, which `str.strip()` removes. */
  predicate IsSpace(c: char) {
    || c == ' '
    || ('\t' <= c <= '\r')
    || ('\U{1C}' <= c <= '\U{1F}')
    || c == '\U{85}'
    || c == '\U{A0}'
    || c == '\U{1680}'
    || ('\U{2000}' <= c <= '\U{200A}')
    || c == '\U{2028}'
    || c == '\U{2029}'
    || c == '\U{202F}'
    || c == '\U{205F}'
    || c == '\U{3000}'
  }

  /** The position of the first non-whitespace character of `s` at or after `i`, or `|s|`. */
  function SpacesFrom(s: string, i: nat): (j: nat)
    requires i <= |s|
    ensures i <= j <= |s|
    decreases |s| - i
  {
    if i < |s| && IsSpace(s[i]) then SpacesFrom(s, i + 1) else i
  }

  /** The position just after the last non-whitespace character of `s[lo..j]`, or `lo`. */
  function SpacesBefore(s: string, lo: nat, j: nat): (k: nat)
    requires lo <= j <= |s|
    ensures lo <= k <= j
    decreases j
  {
    if j > lo && IsSpace(s[j - 1]) then SpacesBefore(s, lo, j - 1) else j
  }

  /** Python's `s.strip()`. */
  function Strip(s: string): string {
    var i := SpacesFrom(s, 0);
    s[i..SpacesBefore(s, i, |s|)]
  }

  /** Scanning forward skips only whitespace and stops at a non-whitespace character or the end. */
  lemma {:induction false} SpacesFromSpec(s: string, i: nat)
    requires i <= |s|
    ensures forall k :: i <= k < SpacesFrom(s, i) ==> IsSpace(s[k])
    ensures SpacesFrom(s, i) < |s| ==> !IsSpace(s[SpacesFrom(s, i)])
    decreases |s| - i
  {
    if i < |s| && IsSpace(s[i]) {
      SpacesFromSpec(s, i + 1);
    }
  }

  /** Scanning backward skips only whitespace and stops after a non-whitespace character or at `lo`. */
  lemma {:induction false} SpacesBeforeSpec(s: string, lo: nat, j: nat)
    requires lo <= j <= |s|
    ensures forall k :: SpacesBefore(s, lo, j) <= k < j ==> IsSpace(s[k])
    ensures SpacesBefore(s, lo, j) > lo ==> !IsSpace(s[SpacesBefore(s, lo, j) - 1])
    decreases j
  {
    if j > lo && IsSpace(s[j - 1]) {
      SpacesBeforeSpec(s, lo, j - 1);
    }
  }

  /**
   * Stripping yields the longest infix of `s` that neither starts nor ends
   * with whitespace, obtained by removing only whitespace; it is empty
   * exactly when `s` is all whitespace.
   */
  lemma StripSpec(s: string)
    ensures var r := Strip(s);
      && (exists i, j :: 0 <= i <= j <= |s| && r == s[i..j]
                        && (forall k :: 0 <= k < i ==> IsSpace(s[k]))
                        && (forall k :: j <= k < |s| ==> IsSpace(s[k])))
      && (r != [] ==> !IsSpace(r[0]) && !IsSpace(r[|r| - 1]))
      && (r == [] <==> forall k :: 0 <= k < |s| ==> IsSpace(s[k]))
  {
    var i := SpacesFrom(s, 0);
    var j := SpacesBefore(s, i, |s|);
    SpacesFromSpec(s, 0);
    SpacesBeforeSpec(s, i, |s|);
    var r := s[i..j];
    assert Strip(s) == r;
    if j == i {
      assert forall k :: 0 <= k < |s| ==> IsSpace(s[k]);
    } else {
      assert r[0] == s[i] && r[|r| - 1] == s[j - 1];
    }
  }

  /** `s` neither starts nor ends with whitespace. */
  predicate Trimmed(s: string) {
    s == [] || (!IsSpace(s[0]) && !IsSpace(s[|s| - 1]))
  }

  /** The trimmed strings are exactly those that stripping leaves unchanged, and stripping always yields one. */
  lemma TrimmedIffStripFixed(s: string)
    ensures Trimmed(s) <==> Strip(s) == s
    ensures Trimmed(Strip(s))
  {
    StripSpec(s);
    if Trimmed(s) && s != [] {
      assert SpacesFrom(s, 0) == 0;
      assert SpacesBefore(s, 0, |s|) == |s|;
      assert s[0..|s|] == s;
    }
  }

  /** Stripping a stripped string changes nothing. */
  lemma StripIdempotent(s: string)
    ensures Strip(Strip(s)) == Strip(s)
  {
    TrimmedIffStripFixed(s);
    TrimmedIffStripFixed(Strip(s));
  }

  /** `s` starts with `p`. */
  predicate StartsWith(s: string, p: string) {
    |p| <= |s| && s[..|p|] == p
  }

  /** Python's substring test `p in s`. */
  predicate Contains(s: string, p: string)
    decreases |s|
  {
    StartsWith(s, p) || (|s| > 0 && Contains(s[1..], p))
  }

  /** `p` occurs in `s` starting at position `i`. */
  predicate OccursAt(s: string, p: string, i: int) {
    0 <= i <= |s| - |p| && s[i..i + |p|] == p
  }

  /** `p in s` holds exactly when `p` occurs in `s` at some position. */
  lemma {:induction false} ContainsIffOccurs(s: string, p: string)
    ensures Contains(s, p) <==> exists i :: OccursAt(s, p, i)
    decreases |s|
  {
    if |s| == 0 {
      if Contains(s, p) {
        assert OccursAt(s, p, 0);
      }
    } else {
      ContainsIffOccurs(s[1..], p);
      if Contains(s, p) {
        if StartsWith(s, p) {
          assert OccursAt(s, p, 0);
        } else {
          var i :| OccursAt(s[1..], p, i);
          assert s[i + 1..i + 1 + |p|] == s[1..][i..i + |p|];
          assert OccursAt(s, p, i + 1);
        }
      } else {
        forall i | OccursAt(s, p, i)
          ensures false
        {
          if i > 0 {
            var t := s[1..];
            assert t[i - 1..i - 1 + |p|] == s[i..i + |p|];
            assert OccursAt(t, p, i - 1);
          }
        }
      }
    }
  }

  /** No string contains a pattern longer than itself. */
  lemma {:induction false} ContainsNeedsRoom(s: string, p: string)
    requires Contains(s, p)
    ensures |p| <= |s|
  {
    ContainsIffOccurs(s, p);
  }
}
