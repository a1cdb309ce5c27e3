/** Sequence operations the components use through JavaScript's array methods. */
module Seqs {

  /** The elements of `s` that satisfy `p`, in their original order (`Array.prototype.filter`). */
  function Keep<T(==)>(s: seq<T>, p: T -> bool): (r: seq<T>)
    ensures |r| <= |s|
    ensures forall i :: 0 <= i < |r| ==> p(r[i])
    decreases |s|
  {
    if s == [] then []
    else Keep(s[..|s| - 1], p) + (if p(s[|s| - 1]) then [s[|s| - 1]] else [])
  }

  /** `Keep` returns elements of `s`, and every element of `s` that passes `p`. */
  lemma {:induction false} KeepMembers<T>(s: seq<T>, p: T -> bool)
    ensures forall x :: x in Keep(s, p) <==> x in s && p(x)
    decreases |s|
  {
    if s != [] {
      KeepMembers(s[..|s| - 1], p);
      assert s == s[..|s| - 1] + [s[|s| - 1]];
    }
  }

  /** Every element `Keep` returns has any property that every element of `s` has. */
  lemma {:induction false} KeepPreserves<T>(s: seq<T>, p: T -> bool, q: T -> bool)
    requires forall i :: 0 <= i < |s| ==> q(s[i])
    ensures forall i :: 0 <= i < |Keep(s, p)| ==> q(Keep(s, p)[i])
    decreases |s|
  {
    if s != [] {
      KeepPreserves(s[..|s| - 1], p, q);
    }
  }

  /** `r` can be obtained from `s` by deleting elements, keeping the order of the rest. */
  predicate IsSubsequence<T(==)>(r: seq<T>, s: seq<T>)
    decreases |s|
  {
    if r == [] then true
    else if s == [] then false
    else if r[|r| - 1] == s[|s| - 1] then IsSubsequence(r[..|r| - 1], s[..|s| - 1])
    else IsSubsequence(r, s[..|s| - 1])
  }

  /** The number of elements of `s` that satisfy `p` (`s.filter(p).length`). */
  function Count<T(==)>(s: seq<T>, p: T -> bool): nat {
    |Keep(s, p)|
  }

  /** `s.reduce((sum, x) => sum + x, 0)`. */
  function Sum(s: seq<int>): int {
    if s == [] then 0 else Sum(s[..|s| - 1]) + s[|s| - 1]
  }

  /** `Array.prototype.flat()` on an array of arrays. */
  function Flatten<T>(ss: seq<seq<T>>): (r: seq<T>)
    decreases |ss|
  {
    if ss == [] then [] else Flatten(ss[..|ss| - 1]) + ss[|ss| - 1]
  }

  lemma {:induction false} KeepIsSubsequence<T>(s: seq<T>, p: T -> bool)
    ensures IsSubsequence(Keep(s, p), s)
    decreases |s|
  {
    if s != [] {
      var init := s[..|s| - 1];
      KeepIsSubsequence(init, p);
      if p(s[|s| - 1]) {
        var r := Keep(s, p);
        assert r[..|r| - 1] == Keep(init, p);
      } else {
        assert Keep(s, p) == Keep(init, p);
        SubsequenceOfPrefix(Keep(init, p), init, s);
      }
    }
  }

  /** A subsequence of a prefix of `s` is a subsequence of `s`. */
  lemma {:induction false} SubsequenceOfPrefix<T>(r: seq<T>, init: seq<T>, s: seq<T>)
    requires |s| > 0 && init == s[..|s| - 1]
    requires IsSubsequence(r, init)
    ensures IsSubsequence(r, s)
    decreases |s|, 0
  {
    if r != [] && r[|r| - 1] == s[|s| - 1] {
      SubsequenceTrimmed(r, init);
    }
  }

  /** Dropping the last element of a subsequence keeps it a subsequence. */
  lemma {:induction false} SubsequenceTrimmed<T>(r: seq<T>, s: seq<T>)
    requires r != [] && IsSubsequence(r, s)
    ensures IsSubsequence(r[..|r| - 1], s)
    decreases |s|, 1
  {
    var rInit := r[..|r| - 1];
    var sInit := s[..|s| - 1];
    if r[|r| - 1] == s[|s| - 1] {
      if rInit != [] {
        SubsequenceTrimmed(rInit, sInit);
        assert rInit[..|rInit| - 1] == r[..|r| - 2];
        SubsequenceOfPrefix(rInit, sInit, s);
      }
    } else {
      SubsequenceTrimmed(r, sInit);
      SubsequenceOfPrefix(rInit, sInit, s);
    }
  }

  /** Filtering twice is filtering once by the conjunction of the two predicates. */
  lemma {:induction false} KeepKeep<T>(s: seq<T>, p: T -> bool, q: T -> bool)
    ensures Keep(Keep(s, p), q) == Keep(s, x => p(x) && q(x))
    decreases |s|
  {
    if s != [] {
      var init := s[..|s| - 1];
      var last := s[|s| - 1];
      var pq := x => p(x) && q(x);
      KeepKeep(init, p, q);
      assert Keep(s, pq) == Keep(init, pq) + (if pq(last) then [last] else []);
      if p(last) {
        var kp := Keep(s, p);
        assert kp == Keep(init, p) + [last];
        assert kp[..|kp| - 1] == Keep(init, p);
        assert Keep(kp, q) == Keep(Keep(init, p), q) + (if q(last) then [last] else []);
      } else {
        assert Keep(s, p) == Keep(init, p);
      }
    }
  }

  /** Filtering first by a predicate that `q` implies does not change the result of filtering by `q`. */
  lemma {:induction false} KeepAfterWeaker<T>(s: seq<T>, p: T -> bool, q: T -> bool)
    requires forall i :: 0 <= i < |s| && q(s[i]) ==> p(s[i])
    ensures Keep(Keep(s, p), q) == Keep(s, q)
    decreases |s|
  {
    if s != [] {
      var init := s[..|s| - 1];
      var last := s[|s| - 1];
      KeepAfterWeaker(init, p, q);
      if p(last) {
        var kp := Keep(s, p);
        assert kp[..|kp| - 1] == Keep(init, p);
      } else {
        assert Keep(s, p) == Keep(init, p);
      }
    }
  }

  /** Filters by two predicates that agree on every element give the same result. */
  lemma {:induction false} KeepAgree<T>(s: seq<T>, p: T -> bool, q: T -> bool)
    requires forall i :: 0 <= i < |s| ==> p(s[i]) == q(s[i])
    ensures Keep(s, p) == Keep(s, q)
    decreases |s|
  {
    if s != [] {
      KeepAgree(s[..|s| - 1], p, q);
    }
  }

  /** A filter that every element passes returns the sequence unchanged. */
  lemma {:induction false} KeepAll<T>(s: seq<T>, p: T -> bool)
    requires forall i :: 0 <= i < |s| ==> p(s[i])
    ensures Keep(s, p) == s
    decreases |s|
  {
    if s != [] {
      KeepAll(s[..|s| - 1], p);
    }
  }

  /** A filter that no element passes returns the empty sequence. */
  lemma {:induction false} KeepNone<T>(s: seq<T>, p: T -> bool)
    requires forall i :: 0 <= i < |s| ==> !p(s[i])
    ensures Keep(s, p) == []
    decreases |s|
  {
    if s != [] {
      KeepNone(s[..|s| - 1], p);
    }
  }

  lemma ConcatEmpty<T>(a: seq<T>, b: seq<T>)
    requires b == []
    ensures a + b == a
  {
  }

  lemma ConcatAssoc<T>(a: seq<T>, b: seq<T>, c: seq<T>)
    ensures (a + b) + c == a + (b + c)
  {
  }

  lemma DropLastOfConcat<T>(a: seq<T>, b: seq<T>)
    requires b != []
    ensures (a + b)[..|a + b| - 1] == a + b[..|b| - 1]
    ensures (a + b)[|a + b| - 1] == b[|b| - 1]
  {
  }

  /** Filtering distributes over concatenation. */
  lemma {:induction false} KeepConcat<T>(a: seq<T>, b: seq<T>, p: T -> bool)
    ensures Keep(a + b, p) == Keep(a, p) + Keep(b, p)
    decreases |b|
  {
    if b == [] {
      ConcatEmpty(a, b);
    } else {
      DropLastOfConcat(a, b);
      KeepConcat(a, b[..|b| - 1], p);
    }
  }

  /** Filtering the already filtered sequence again changes nothing. */
  lemma KeepIdempotent<T>(s: seq<T>, p: T -> bool)
    ensures Keep(Keep(s, p), p) == Keep(s, p)
  {
    KeepAll(Keep(s, p), p);
  }

  /** `Sum` over a concatenation. */
  lemma {:induction false} SumConcat(a: seq<int>, b: seq<int>)
    ensures Sum(a + b) == Sum(a) + Sum(b)
    decreases |b|
  {
    if b == [] {
      ConcatEmpty(a, b);
    } else {
      DropLastOfConcat(a, b);
      SumConcat(a, b[..|b| - 1]);
    }
  }

  /** `Flatten` of a concatenation of groups. */
  lemma {:induction false} FlattenConcat<T>(a: seq<seq<T>>, b: seq<seq<T>>)
    ensures Flatten(a + b) == Flatten(a) + Flatten(b)
    decreases |b|
  {
    if b == [] {
      ConcatEmpty(a, b);
    } else {
      DropLastOfConcat(a, b);
      FlattenConcat(a, b[..|b| - 1]);
    }
  }

  /** The position of the first element of `s` that satisfies `p`, or `|s|` when none does (`findIndex`). */
  function FirstIndex<T>(s: seq<T>, p: T -> bool): (r: nat)
    ensures r <= |s|
    ensures forall j :: 0 <= j < r ==> !p(s[j])
    ensures r < |s| ==> p(s[r])
    decreases |s|
  {
    if s == [] then 0 else if p(s[0]) then 0 else 1 + FirstIndex(s[1..], p)
  }

  /** `s.map(f)`. */
  function Map<T, U>(s: seq<T>, f: T -> U): (r: seq<U>)
    ensures |r| == |s| && forall i :: 0 <= i < |s| ==> r[i] == f(s[i])
  {
    seq(|s|, i requires 0 <= i < |s| => f(s[i]))
  }

  lemma MapConcat<T, U>(a: seq<T>, b: seq<T>, f: T -> U)
    ensures Map(a + b, f) == Map(a, f) + Map(b, f)
  {
  }

  /** A filter step that runs only when `on` holds. */
  function KeepIf<T(==)>(s: seq<T>, on: bool, p: T -> bool): (r: seq<T>)
    ensures !on ==> r == s
  {
    if on then Keep(s, p) else s
  }

  /** A guarded step after a filter by `p` is one filter by `p` and, when it runs, `q`. */
  lemma KeepIfStep<T>(s: seq<T>, p: T -> bool, on: bool, q: T -> bool, r: T -> bool)
    requires forall x :: r(x) == (p(x) && (on ==> q(x)))
    ensures KeepIf(Keep(s, p), on, q) == Keep(s, r)
  {
    if on {
      KeepKeep(s, p, q);
      KeepAgree(s, x => p(x) && q(x), r);
    } else {
      KeepAgree(s, p, r);
    }
  }

  /** Five guarded filter steps in a row are one filter by the conjunction of the steps that run. */
  lemma KeepIfChain<T>(s: seq<T>, on1: bool, q1: T -> bool, on2: bool, q2: T -> bool, on3: bool, q3: T -> bool,
                       on4: bool, q4: T -> bool, on5: bool, q5: T -> bool, r: T -> bool)
    requires forall x :: r(x) == ((on1 ==> q1(x)) && (on2 ==> q2(x)) && (on3 ==> q3(x)) && (on4 ==> q4(x)) && (on5 ==> q5(x)))
    ensures KeepIf(KeepIf(KeepIf(KeepIf(KeepIf(s, on1, q1), on2, q2), on3, q3), on4, q4), on5, q5) == Keep(s, r)
  {
    var r1 := x => on1 ==> q1(x);
    var r2 := x => r1(x) && (on2 ==> q2(x));
    var r3 := x => r2(x) && (on3 ==> q3(x));
    var r4 := x => r3(x) && (on4 ==> q4(x));
    if on1 {
      KeepAgree(s, q1, r1);
    } else {
      KeepAll(s, r1);
    }
    KeepIfStep(s, r1, on2, q2, r2);
    KeepIfStep(s, r2, on3, q3, r3);
    KeepIfStep(s, r3, on4, q4, r4);
    KeepIfStep(s, r4, on5, q5, r);
  }

  /** Two filters that no element passes both count, together, the elements that pass either. */
  lemma {:induction false} CountDisjoint<T>(s: seq<T>, p: T -> bool, q: T -> bool, r: T -> bool)
    requires forall x :: r(x) == (p(x) || q(x))
    requires forall x :: !(p(x) && q(x))
    ensures Count(s, p) + Count(s, q) == Count(s, r)
    decreases |s|
  {
    if s != [] {
      CountDisjoint(s[..|s| - 1], p, q, r);
    }
  }

  /** A filter counts every element exactly when every element passes it. */
  lemma {:induction false} CountAll<T>(s: seq<T>, p: T -> bool)
    ensures Count(s, p) == |s| <==> forall i :: 0 <= i < |s| ==> p(s[i])
    decreases |s|
  {
    if s != [] {
      var init := s[..|s| - 1];
      CountAll(init, p);
      assert forall i :: 0 <= i < |init| ==> init[i] == s[i];
    }
  }

  lemma FlattenFour<T>(a: seq<T>, b: seq<T>, c: seq<T>, d: seq<T>)
    ensures Flatten([a, b, c, d]) == a + b + c + d
  {
    assert [a][..0] == [];
    assert Flatten([a]) == [] + a == a;
    assert [a, b][..1] == [a];
    assert Flatten([a, b]) == a + b;
    assert [a, b, c][..2] == [a, b];
    assert Flatten([a, b, c]) == a + b + c;
    assert [a, b, c, d][..3] == [a, b, c];
  }
}
