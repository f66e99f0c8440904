/**
 * `String.prototype.replace` with a string pattern: only the first
 * occurrence, found scanning from the left, is replaced.
 */
module TextReplace {
  /** The pattern `p` occurs in `s` starting at position `k`. */
  predicate OccursAt(s: string, p: string, k: int)
  {
    0 <= k && k + |p| <= |s| && s[k..k + |p|] == p
  }

  /**
   * `s.replace(p, r)` with a non-empty string pattern: scanning from the
   * left, the first occurrence of `p` is replaced by `r`; no later one is.
   */
  function ReplaceFirst(s: string, p: string, r: string): string
    requires |p| > 0
    decreases |s|
  {
    if |s| < |p| then s
    else if s[..|p|] == p then r + s[|p|..]
    else [s[0]] + ReplaceFirst(s[1..], p, r)
  }

  /** The scan finds exactly the first occurrence: the text before it is kept, `p` becomes `r`, the rest is kept. */
  lemma {:induction false} ReplaceFirstOccurrence(s: string, p: string, r: string, k: nat)
    requires |p| > 0 && OccursAt(s, p, k)
    requires forall j :: 0 <= j < k ==> !OccursAt(s, p, j)
    ensures ReplaceFirst(s, p, r) == s[..k] + r + s[k + |p|..]
    decreases k
  {
    if k > 0 {
      assert !OccursAt(s, p, 0);
      FirstOccurrenceInTail(s, p, k);
      calc {
        ReplaceFirst(s, p, r);
        { ReplaceSkipsHead(s, p, r); }
        [s[0]] + ReplaceFirst(s[1..], p, r);
        { ReplaceFirstOccurrence(s[1..], p, r, k - 1); }
        [s[0]] + (s[1..][..k - 1] + r + s[1..][k - 1 + |p|..]);
        { SpliceAfterHead(s, k, |p|, r); }
        s[..k] + r + s[k + |p|..];
      }
    } else {
      assert s[..|p|] == p;
    }
  }

  /** The first occurrence in `s`, when not at its head, is one position earlier in `s` without its head. */
  lemma FirstOccurrenceInTail(s: string, p: string, k: nat)
    requires k > 0 && OccursAt(s, p, k)
    requires forall j :: 0 <= j < k ==> !OccursAt(s, p, j)
    ensures OccursAt(s[1..], p, k - 1)
    ensures forall j :: 0 <= j < k - 1 ==> !OccursAt(s[1..], p, j)
  {
    forall j | 0 <= j < k - 1
      ensures !OccursAt(s[1..], p, j)
    {
      OccursAfterHead(s, p, j);
    }
    OccursAfterHead(s, p, k - 1);
  }

  /** Splicing `r` into `s` without its first character, then putting that character back. */
  lemma SpliceAfterHead(s: string, k: nat, m: nat, r: string)
    requires 0 < k && k + m <= |s|
    ensures [s[0]] + (s[1..][..k - 1] + r + s[1..][k - 1 + m..]) == s[..k] + r + s[k + m..]
  {
    assert s[1..][..k - 1] == s[1..k];
    assert s[1..][k - 1 + m..] == s[k + m..];
    assert s[..k] == [s[0]] + s[1..k];
  }

  /** An occurrence one position further in `s` is an occurrence in `s` without its first character. */
  lemma OccursAfterHead(s: string, p: string, j: nat)
    requires |s| > 0
    ensures OccursAt(s, p, j + 1) <==> OccursAt(s[1..], p, j)
  {
    if j + 1 + |p| <= |s| {
      assert s[1..][j..j + |p|] == s[j + 1..j + 1 + |p|];
    }
  }

  /** Without an occurrence the text is returned unchanged. */
  lemma {:induction false} ReplaceFirstAbsent(s: string, p: string, r: string)
    requires |p| > 0
    requires forall j :: 0 <= j <= |s| - |p| ==> !OccursAt(s, p, j)
    ensures ReplaceFirst(s, p, r) == s
    decreases |s|
  {
    if |s| >= |p| {
      assert !OccursAt(s, p, 0);
      forall j | 0 <= j <= |s| - 1 - |p|
        ensures !OccursAt(s[1..], p, j)
      {
        OccursAfterHead(s, p, j);
      }
      ReplaceFirstAbsent(s[1..], p, r);
    }
  }

  /** A prefix free of the pattern's first character is skipped over. */
  lemma {:induction false} ReplaceSkipsFreePrefix(a: string, b: string, p: string, r: string)
    requires |p| > 0 && p[0] !in a
    ensures ReplaceFirst(a + b, p, r) == a + ReplaceFirst(b, p, r)
    decreases |a|
  {
    if |a| > 0 {
      var s := a + b;
      if |s| >= |p| {
        assert s[..|p|][0] == a[0];
        assert s[1..] == a[1..] + b;
      } else {
        assert |b| < |p|;
      }
      ReplaceSkipsFreePrefix(a[1..], b, p, r);
      assert a == [a[0]] + a[1..];
    } else {
      assert a + b == b;
    }
  }

  /** A text that starts with a character other than the pattern's first is scanned from its second character. */
  lemma ReplaceSkipsHead(s: string, p: string, r: string)
    requires |p| > 0 && |s| >= |p| && s[..|p|] != p
    ensures ReplaceFirst(s, p, r) == [s[0]] + ReplaceFirst(s[1..], p, r)
  {
  }

  /**
   * A leading text that differs from the pattern where the pattern would
   * sit, and has the pattern's first character at most at its head, is kept.
   */
  lemma ReplaceSkipsOtherText(q: string, rest: string, p: string, r: string)
    requires |p| > 0 && |q| >= |p| && q[..|p|] != p && p[0] !in q[1..]
    ensures ReplaceFirst(q + rest, p, r) == q + ReplaceFirst(rest, p, r)
  {
    JoinParts(q, rest, |p|);
    ReplaceSkipsHead(q + rest, p, r);
    ReplaceSkipsFreePrefix(q[1..], rest, p, r);
    ConsBack(q, ReplaceFirst(rest, p, r));
  }

  /** The first `m` characters and the tail of `q + rest`, for `m` within `q`. */
  lemma JoinParts(q: string, rest: string, m: nat)
    requires 0 < m <= |q|
    ensures (q + rest)[..m] == q[..m] && (q + rest)[0] == q[0] && (q + rest)[1..] == q[1..] + rest
  {
  }

  /** Putting the first character back in front of the rest of `q`. */
  lemma ConsBack(q: string, t: string)
    requires |q| > 0
    ensures [q[0]] + (q[1..] + t) == q + t
  {
    assert q == [q[0]] + q[1..];
  }

  /** A text free of the pattern's first character is left as it is. */
  lemma ReplaceFreeText(s: string, p: string, r: string)
    requires |p| > 0 && p[0] !in s
    ensures ReplaceFirst(s, p, r) == s
  {
    ReplaceSkipsFreePrefix(s, "", p, r);
    assert s + "" == s;
  }
}
