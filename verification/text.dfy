/** The handful of Python string operations the two scripts rely on:
    `str.isspace`, `str.strip`, the `in` substring test, `str.replace(k, "")`
    and `str.lower`. */
module Text {

  /** Python's `str.isspace` for one character: the ASCII controls 9..13 and
      28..31, the space, and the Unicode space separators Python recognises. */
  predicate IsSpace(c: char)
  {
    c == ' ' || ('\t' <= c <= '\r') || ('\U{1C}' <= c <= '\U{1F}')
    || c == '\U{85}' || c == '\U{A0}' || c == '\U{1680}'
    || ('\U{2000}' <= c <= '\U{200A}') || c == '\U{2028}' || c == '\U{2029}'
    || c == '\U{202F}' || c == '\U{205F}' || c == '\U{3000}'
  }

  predicate AllSpace(s: string)
  {
    forall i :: 0 <= i < |s| ==> IsSpace(s[i])
  }

  /** The first index at or after `i` that holds no white space (`|s|` if none):
      where `lstrip` cuts. */
  function SkipSpace(s: string, i: int): (j: int)
    requires 0 <= i <= |s|
    ensures i <= j <= |s|
    ensures forall k :: i <= k < j ==> IsSpace(s[k])
    ensures j == |s| || !IsSpace(s[j])
    decreases |s| - i
  {
    if i < |s| && IsSpace(s[i]) then SkipSpace(s, i + 1) else i
  }

  /** The end of the text before index `j`, scanning back no further than `lo`:
      where `rstrip` cuts. */
  function SkipSpaceBack(s: string, lo: int, j: int): (e: int)
    requires 0 <= lo <= j <= |s|
    ensures lo <= e <= j
    ensures forall k :: e <= k < j ==> IsSpace(s[k])
    ensures e == lo || !IsSpace(s[e - 1])
    decreases j
  {
    if j > lo && IsSpace(s[j - 1]) then SkipSpaceBack(s, lo, j - 1) else j
  }

  /** `s.strip()` */
  function Strip(s: string): (r: string)
    ensures |r| <= |s|
    ensures r == [] || (!IsSpace(r[0]) && !IsSpace(r[|r| - 1]))
  {
    var b := SkipSpace(s, 0);
    s[b..SkipSpaceBack(s, b, |s|)]
  }

  /** `r` is the slice `s[i..i + |r|]` and everything around it is white space. */
  predicate TrimmedSliceAt(s: string, r: string, i: int)
  {
    0 <= i <= |s| - |r| && r == s[i..i + |r|] && AllSpace(s[..i]) && AllSpace(s[i + |r|..])
  }

  /** What `strip` cuts off is white space on either side, and nothing else. */
  lemma StripIsTrimmedSlice(s: string)
    ensures TrimmedSliceAt(s, Strip(s), SkipSpace(s, 0))
  {
    var b := SkipSpace(s, 0);
    var e := SkipSpaceBack(s, b, |s|);
    assert forall k :: 0 <= k < b ==> s[..b][k] == s[k];
    assert forall k :: 0 <= k < |s| - e ==> s[e..][k] == s[e + k];
  }

  /** A string strips to nothing exactly when it is all white space. */
  lemma StripEmptyIffBlank(s: string)
    ensures Strip(s) == [] <==> AllSpace(s)
  {
    var b := SkipSpace(s, 0);
    var e := SkipSpaceBack(s, b, |s|);
    if e == b {
      assert forall k :: 0 <= k < |s| ==> (k < b || b <= k) && IsSpace(s[k]);
    }
  }

  /** `k` occurs in `s` starting at index `i`. */
  predicate OccursAt(s: string, k: string, i: int)
  {
    0 <= i && i + |k| <= |s| && s[i..i + |k|] == k
  }

  predicate StartsWith(s: string, k: string)
  {
    |k| <= |s| && s[..|k|] == k
  }

  /** Python's `k in s` for strings: substring containment. */
  predicate Contains(s: string, k: string)
    decreases |s|
  {
    StartsWith(s, k) || (|s| > 0 && Contains(s[1..], k))
  }

  /** `Contains` agrees with the positional reading of substring containment. */
  lemma {:induction false} ContainsIffOccurs(s: string, k: string)
    ensures Contains(s, k) <==> exists i :: OccursAt(s, k, i)
    decreases |s|
  {
    if StartsWith(s, k) {
      assert OccursAt(s, k, 0);
    } else if |s| > 0 {
      ContainsIffOccurs(s[1..], k);
      if exists i :: OccursAt(s[1..], k, i) {
        var i :| OccursAt(s[1..], k, i);
        assert s[i + 1..i + 1 + |k|] == s[1..][i..i + |k|];
        assert OccursAt(s, k, i + 1);
      }
      if exists i :: OccursAt(s, k, i) {
        var i :| OccursAt(s, k, i);
        assert i != 0;
        assert s[1..][i - 1..i - 1 + |k|] == s[i..i + |k|];
        assert OccursAt(s[1..], k, i - 1);
      }
    }
  }

  /** A string that lacks one of the characters of `k` cannot contain `k`. */
  lemma {:induction false} MissingCharNotContained(s: string, k: string, c: char)
    requires c in k && c !in s
    ensures !Contains(s, k)
    decreases |s|
  {
    if |k| <= |s| {
      var j :| 0 <= j < |k| && k[j] == c;
      assert s[..|k|][j] == s[j];
    }
    if |s| > 0 {
      MissingCharNotContained(s[1..], k, c);
    }
  }

  /** Python's `s.replace(k, "")` for a non-empty `k`: scanning left to right,
      every non-overlapping occurrence of `k` is deleted. */
  function ReplaceAll(s: string, k: string): (r: string)
    requires |k| > 0
    ensures |r| <= |s|
    decreases |s|
  {
    if |s| < |k| then s
    else if s[..|k|] == k then ReplaceAll(s[|k|..], k)
    else [s[0]] + ReplaceAll(s[1..], k)
  }

  /** Deleting `k` changes `s` exactly when `k` occurs in it; when it does, the
      result is shorter by at least `|k|`. */
  lemma {:induction false} ReplaceAllChanges(s: string, k: string)
    requires |k| > 0
    ensures !Contains(s, k) ==> ReplaceAll(s, k) == s
    ensures Contains(s, k) ==> |ReplaceAll(s, k)| <= |s| - |k|
    decreases |s|
  {
    if |s| < |k| {
      assert !StartsWith(s, k);
      if |s| > 0 { ContainsShort(s[1..], k); }
    } else if s[..|k|] == k {
    } else {
      ReplaceAllChanges(s[1..], k);
    }
  }

  lemma {:induction false} ContainsShort(s: string, k: string)
    requires |s| < |k|
    ensures !Contains(s, k)
    decreases |s|
  {
    if |s| > 0 { ContainsShort(s[1..], k); }
  }

  /** A string that becomes its own replacement held no occurrence of `k`. */
  lemma ReplaceAllIdentityIff(s: string, k: string)
    requires |k| > 0
    ensures ReplaceAll(s, k) == s <==> !Contains(s, k)
  {
    ReplaceAllChanges(s, k);
  }

  function LowerChar(c: char): (d: char)
    ensures 'A' <= c <= 'Z' ==> d as int == c as int + 32
    ensures !('A' <= c <= 'Z') ==> d == c
    ensures !('A' <= d <= 'Z')
  {
    if 'A' <= c <= 'Z' then (c as int + 32) as char else c
  }

  /** `s.lower()` on the ASCII letters. */
  function Lower(s: string): (r: string)
    ensures |r| == |s|
    ensures forall i :: 0 <= i < |s| ==> r[i] == LowerChar(s[i])
  {
    seq(|s|, i requires 0 <= i < |s| => LowerChar(s[i]))
  }

  /** Lower-casing twice is lower-casing once. */
  lemma LowerIdempotent(s: string)
    ensures Lower(Lower(s)) == Lower(s)
  {
  }
}
