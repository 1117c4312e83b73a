/** The ranking step of `ChatHandler.retrieve`: Python's
    `list.sort(key=score, reverse=True)`, which is stable (elements with equal
    scores keep their order), followed by the slice `[:top_n]`. */
module Ranking {

  /** One `(chunk_text, sim)` pair of `scored_chunks`. */
  datatype Scored = Scored(text: string, score: real)

  /** Scores never increase from left to right. */
  predicate NonIncreasing(s: seq<Scored>)
  {
    forall i, j | 0 <= i < j < |s| :: s[i].score >= s[j].score
  }

  /** The subsequence of the elements whose score is `v`, in their order. */
  function WithScore(s: seq<Scored>, v: real): seq<Scored>
  {
    if s == [] then []
    else WithScore(s[..|s| - 1], v) + (if s[|s| - 1].score == v then [s[|s| - 1]] else [])
  }

  /** Inserts `x` into the non-increasing `t` after every element whose score
      is at least `x`'s: an element placed later never overtakes an equal one. */
  function Insert(t: seq<Scored>, x: Scored): seq<Scored>
  {
    if t == [] then [x]
    else if t[0].score >= x.score then [t[0]] + Insert(t[1..], x)
    else [x] + t
  }

  /** The stable descending sort, one element at a time. */
  function SortDesc(s: seq<Scored>): seq<Scored>
  {
    if s == [] then [] else Insert(SortDesc(s[..|s| - 1]), s[|s| - 1])
  }

  /** Python's slice `s[:n]`: a negative `n` counts from the end. */
  function Take<T>(s: seq<T>, n: int): (r: seq<T>)
    ensures 0 <= n ==> |r| == (if n < |s| then n else |s|)
    ensures n < 0 ==> |r| == (if -n < |s| then |s| + n else 0)
    ensures r <= s
  {
    if 0 <= n then
      (if n < |s| then s[..n] else s)
    else
      (if -n < |s| then s[..|s| + n] else [])
  }

  lemma {:induction false} WithScoreAppend(a: seq<Scored>, b: seq<Scored>, v: real)
    ensures WithScore(a + b, v) == WithScore(a, v) + WithScore(b, v)
  {
    if b != [] {
      var b' := b[..|b| - 1];
      assert (a + b)[..|a + b| - 1] == a + b';
      WithScoreAppend(a, b', v);
    } else {
      assert a + b == a;
    }
  }

  lemma {:induction false} WithScoreAbsent(s: seq<Scored>, v: real)
    requires forall k | 0 <= k < |s| :: s[k].score != v
    ensures WithScore(s, v) == []
  {
    if s != [] {
      WithScoreAbsent(s[..|s| - 1], v);
    }
  }

  predicate AtMost(s: seq<Scored>, b: real)
  {
    forall k | 0 <= k < |s| :: s[k].score <= b
  }

  lemma {:induction false} InsertAtMost(t: seq<Scored>, x: Scored, b: real)
    requires AtMost(t, b) && x.score <= b
    ensures AtMost(Insert(t, x), b)
  {
    if t != [] && t[0].score >= x.score {
      InsertAtMost(t[1..], x, b);
    }
  }

  /** Inserting into a non-increasing sequence keeps it non-increasing. */
  lemma {:induction false} InsertSorted(t: seq<Scored>, x: Scored)
    requires NonIncreasing(t)
    ensures NonIncreasing(Insert(t, x))
  {
    if t != [] && t[0].score >= x.score {
      var rest := Insert(t[1..], x);
      InsertSorted(t[1..], x);
      InsertAtMost(t[1..], x, t[0].score);
      assert Insert(t, x) == [t[0]] + rest;
    }
  }

  /** Inserting adds exactly `x`. */
  lemma {:induction false} InsertPermutation(t: seq<Scored>, x: Scored)
    ensures multiset(Insert(t, x)) == multiset(t) + multiset{x}
  {
    if t != [] && t[0].score >= x.score {
      InsertPermutation(t[1..], x);
      assert t == [t[0]] + t[1..];
    }
  }

  /** Inserting puts `x` after every element of its score. */
  lemma {:induction false} InsertWithScore(t: seq<Scored>, x: Scored, v: real)
    requires NonIncreasing(t)
    ensures WithScore(Insert(t, x), v) == WithScore(t, v) + (if x.score == v then [x] else [])
  {
    assert WithScore([x], v) == (if x.score == v then [x] else []) by {
      assert [x][..0] == [];
    }
    if t == [] {
    } else if t[0].score >= x.score {
      var rest := Insert(t[1..], x);
      InsertWithScore(t[1..], x, v);
      assert t == [t[0]] + t[1..];
      WithScoreAppend([t[0]], t[1..], v);
      WithScoreAppend([t[0]], rest, v);
    } else {
      WithScoreAppend([x], t, v);
      if x.score == v {
        WithScoreAbsent(t, v);
      }
    }
  }

  /** `SortDesc` yields a non-increasing permutation of its input. */
  lemma {:induction false} SortDescSortedPermutation(s: seq<Scored>)
    ensures NonIncreasing(SortDesc(s))
    ensures multiset(SortDesc(s)) == multiset(s)
  {
    if s != [] {
      var init := s[..|s| - 1];
      SortDescSortedPermutation(init);
      InsertSorted(SortDesc(init), s[|s| - 1]);
      InsertPermutation(SortDesc(init), s[|s| - 1]);
      assert s == init + [s[|s| - 1]];
    }
  }

  /** Stability: for every score, the elements carrying it appear in the
      sorted output in the order they had in the input. */
  lemma {:induction false} SortDescStable(s: seq<Scored>, v: real)
    ensures WithScore(SortDesc(s), v) == WithScore(s, v)
  {
    if s != [] {
      var init := s[..|s| - 1];
      SortDescSortedPermutation(init);
      SortDescStable(init, v);
      InsertWithScore(SortDesc(init), s[|s| - 1], v);
    }
  }

  /** An element scoring no higher than everything already placed goes last. */
  lemma {:induction false} InsertLast(t: seq<Scored>, x: Scored)
    requires forall k | 0 <= k < |t| :: t[k].score >= x.score
    ensures Insert(t, x) == t + [x]
  {
    if t != [] {
      InsertLast(t[1..], x);
      assert t == [t[0]] + t[1..];
    }
  }

  /** When all scores are equal the sort leaves the sequence as it is. */
  lemma {:induction false} SortDescUniform(s: seq<Scored>, v: real)
    requires forall k | 0 <= k < |s| :: s[k].score == v
    ensures SortDesc(s) == s
  {
    if s != [] {
      var init := s[..|s| - 1];
      SortDescUniform(init, v);
      InsertLast(init, s[|s| - 1]);
      assert s == init + [s[|s| - 1]];
    }
  }

  /** A prefix of a non-increasing sequence is non-increasing and takes
      nothing that was not there. */
  lemma TakeSorted(s: seq<Scored>, n: int)
    requires NonIncreasing(s)
    ensures NonIncreasing(Take(s, n))
    ensures multiset(Take(s, n)) <= multiset(s)
  {
    var r := Take(s, n);
    assert s == r + s[|r|..];
    assert multiset(s) == multiset(r) + multiset(s[|r|..]);
  }
}
