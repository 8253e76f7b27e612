/** `combined.sort((a, b) => b.score - a.score)`: a stable sort by score,
    highest first. Array.prototype.sort is required to be stable by
    ECMA-262 from the 2019 edition on; the insertion sort below is one
    such sort, and SortedStableIsUnique shows that every stable sort by
    score gives the same sequence. */
module ScoreSort {
  import opened Types

  /** Non-increasing by score. */
  ghost predicate SortedDesc(s: seq<Combined>) {
    forall i, j :: 0 <= i < j < |s| ==> s[i].score >= s[j].score
  }

  /** The entries with score `k`, in their order in `s`. Two sequences have
      the same entries in the same relative order for every score exactly
      when this agrees on every `k`; that is what stability preserves. */
  function WithScore(s: seq<Combined>, k: int): (r: seq<Combined>)
    ensures |r| <= |s|
    ensures forall i :: 0 <= i < |r| ==> r[i].score == k
  {
    if |s| == 0 then []
    else WithScore(s[..|s| - 1], k) + (if s[|s| - 1].score == k then [s[|s| - 1]] else [])
  }

  lemma WithScoreSnoc(s: seq<Combined>, x: Combined, k: int)
    ensures WithScore(s + [x], k) == WithScore(s, k) + (if x.score == k then [x] else [])
  {
    assert (s + [x])[..|s|] == s;
  }

  /** An entry of `s` shows up among the entries of its own score. */
  lemma {:induction false} InWithScore(s: seq<Combined>, x: Combined)
    requires x in s
    ensures x in WithScore(s, x.score)
  {
    if s[|s| - 1] != x {
      assert x in s[..|s| - 1] by {
        var i :| 0 <= i < |s| && s[i] == x;
        assert i < |s| - 1;
        assert s[..|s| - 1][i] == x;
      }
      InWithScore(s[..|s| - 1], x);
    }
  }

  /** Inserts `x` into a sorted sequence after every entry whose score is
      at least `x.score`, so `x` lands behind its equals. */
  function Insert(s: seq<Combined>, x: Combined): (r: seq<Combined>)
    requires SortedDesc(s)
    ensures |r| == |s| + 1
    ensures SortedDesc(r)
    ensures multiset(r) == multiset(s) + multiset{x}
    ensures forall k :: WithScore(r, k) == WithScore(s, k) + (if x.score == k then [x] else [])
  {
    if |s| == 0 || s[|s| - 1].score >= x.score then
      SortedSnoc(s, x);
      WithScoreSnocAll(s, x);
      s + [x]
    else
      var init, last := s[..|s| - 1], s[|s| - 1];
      assert s == init + [last];
      var ri := Insert(init, x);
      AllAtLeast(init, x, ri, last.score);
      SortedSnoc(ri, last);
      InsertBehind(init, x, last, ri);
      ri + [last]
  }

  /** The step that carries `last` behind the insertion: `last` scores
      lower than `x`, so the two never share a score and swap freely. */
  lemma InsertBehind(init: seq<Combined>, x: Combined, last: Combined, ri: seq<Combined>)
    requires x.score > last.score
    requires multiset(ri) == multiset(init) + multiset{x}
    requires forall k :: WithScore(ri, k) == WithScore(init, k) + (if x.score == k then [x] else [])
    ensures multiset(ri + [last]) == multiset(init + [last]) + multiset{x}
    ensures forall k ::
      WithScore(ri + [last], k) == WithScore(init + [last], k) + (if x.score == k then [x] else [])
  {
    assert multiset(ri + [last]) == multiset(ri) + multiset{last};
    assert multiset(init + [last]) == multiset(init) + multiset{last};
    forall k ensures WithScore(ri + [last], k)
      == WithScore(init + [last], k) + (if x.score == k then [x] else [])
    {
      InsertBehindAt(init, x, last, ri, k);
    }
  }

  /** InsertBehind for one score `k`. */
  lemma InsertBehindAt(init: seq<Combined>, x: Combined, last: Combined, ri: seq<Combined>, k: int)
    requires x.score > last.score
    requires WithScore(ri, k) == WithScore(init, k) + (if x.score == k then [x] else [])
    ensures WithScore(ri + [last], k) == WithScore(init + [last], k) + (if x.score == k then [x] else [])
  {
    WithScoreSnoc(ri, last, k);
    WithScoreSnoc(init, last, k);
    if x.score == k {
      assert WithScore(ri + [last], k) == WithScore(ri, k) + [];
      assert WithScore(init + [last], k) == WithScore(init, k) + [];
      assert WithScore(ri, k) == WithScore(init, k) + [x];
    } else {
      assert WithScore(ri, k) == WithScore(init, k) + [];
    }
  }

  /** Appending an entry that scores no higher than everything keeps a
      sequence sorted. */
  lemma SortedSnoc(s: seq<Combined>, x: Combined)
    requires SortedDesc(s)
    requires forall i :: 0 <= i < |s| ==> s[i].score >= x.score
    ensures SortedDesc(s + [x])
  {
  }

  /** A rearrangement of `init` plus `x` keeps every score at least `lo`
      when `init` and `x` do. */
  lemma AllAtLeast(init: seq<Combined>, x: Combined, ri: seq<Combined>, lo: int)
    requires forall j :: 0 <= j < |init| ==> init[j].score >= lo
    requires x.score >= lo
    requires multiset(ri) == multiset(init) + multiset{x}
    ensures forall i :: 0 <= i < |ri| ==> ri[i].score >= lo
  {
    forall i | 0 <= i < |ri| ensures ri[i].score >= lo {
      assert ri[i] in multiset(ri);
      if ri[i] != x {
        assert ri[i] in multiset(init);
        var j :| 0 <= j < |init| && init[j] == ri[i];
      }
    }
  }

  lemma WithScoreSnocAll(s: seq<Combined>, x: Combined)
    ensures forall k :: WithScore(s + [x], k) == WithScore(s, k) + (if x.score == k then [x] else [])
  {
    forall k {
      WithScoreSnoc(s, x, k);
    }
  }

  /** The stable sort by descending score. */
  function Sort(s: seq<Combined>): (r: seq<Combined>)
    ensures |r| == |s|
    ensures SortedDesc(r)
    ensures multiset(r) == multiset(s)
    ensures forall k :: WithScore(r, k) == WithScore(s, k)
  {
    if |s| == 0 then []
    else
      var init, last := s[..|s| - 1], s[|s| - 1];
      assert s == init + [last];
      WithScoreSnocAll(init, last);
      Insert(Sort(init), last)
  }

  /** Two sorted sequences that agree, score by score, on which entries they
      hold and in what order are equal: a stable sort by score has exactly
      one possible output. */
  lemma {:induction false} SortedStableIsUnique(a: seq<Combined>, b: seq<Combined>)
    requires SortedDesc(a) && SortedDesc(b)
    requires forall k :: WithScore(a, k) == WithScore(b, k)
    ensures a == b
    decreases |a| + |b|
  {
    if |a| == 0 && |b| == 0 {
    } else if |a| == 0 {
      SameMembers(b, a, b[0]);
    } else if |b| == 0 {
      SameMembers(a, b, a[0]);
    } else {
      var a', x := a[..|a| - 1], a[|a| - 1];
      var b', y := b[..|b| - 1], b[|b| - 1];
      assert a == a' + [x] && b == b' + [y];
      // The last entry of each holds the lowest score, and the lowest
      // score present is the same in both.
      SameMembers(b, a, y);
      SortedLastIsMin(a, y);
      SameMembers(a, b, x);
      SortedLastIsMin(b, x);
      var m := x.score;
      WithScoreSnoc(a', x, m);
      WithScoreSnoc(b', y, m);
      DropLast(WithScore(a', m), x, WithScore(b', m), y);
      forall k | k != m ensures WithScore(a', k) == WithScore(b', k) {
        WithScoreSnoc(a', x, k);
        WithScoreSnoc(b', y, k);
        assert WithScore(a, k) == WithScore(b, k);
        assert WithScore(a, k) == WithScore(a', k);
        assert WithScore(b, k) == WithScore(b', k);
      }
      SortedStableIsUnique(a', b');
    }
  }

  lemma DropLast(p: seq<Combined>, x: Combined, q: seq<Combined>, y: Combined)
    requires p + [x] == q + [y]
    ensures p == q && x == y
  {
    assert (p + [x])[..|p|] == p;
    assert (q + [y])[..|q|] == q;
  }

  /** Sequences that agree on WithScore for every score hold the same
      entries. */
  lemma SameMembers(s: seq<Combined>, t: seq<Combined>, e: Combined)
    requires forall k :: WithScore(s, k) == WithScore(t, k)
    requires e in s
    ensures e in t
  {
    InWithScore(s, e);
    WithScoreMembers(t, e.score);
  }

  /** The last entry of a sorted sequence has the lowest score. */
  lemma SortedLastIsMin(s: seq<Combined>, e: Combined)
    requires SortedDesc(s) && e in s
    ensures s[|s| - 1].score <= e.score
  {
  }

  /** Every entry selected by WithScore comes from the sequence. */
  lemma {:induction false} WithScoreMembers(s: seq<Combined>, k: int)
    ensures forall e :: e in WithScore(s, k) ==> e in s
  {
    if |s| > 0 {
      WithScoreMembers(s[..|s| - 1], k);
      assert s == s[..|s| - 1] + [s[|s| - 1]];
    }
  }

  /** The insertion sort is the stable sort: any sorted rearrangement that
      keeps the relative order of equal scores is `Sort(s)`. */
  lemma SortIsTheStableSort(s: seq<Combined>, t: seq<Combined>)
    requires SortedDesc(t)
    requires forall k :: WithScore(t, k) == WithScore(s, k)
    ensures t == Sort(s)
  {
    SortedStableIsUnique(t, Sort(s));
  }
}
