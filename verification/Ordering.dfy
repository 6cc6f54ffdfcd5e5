/** Total orders, Python's ordering of strings and tuples, and sorting as a canonical form. */
module Ordering {
  import opened Prelude

  type Order<!T> = (T, T) -> bool

  ghost predicate Total<T(!new)>(leq: Order<T>) {
    && (forall a, b :: leq(a, b) || leq(b, a))
    && (forall a, b :: leq(a, b) && leq(b, a) ==> a == b)
    && (forall a, b, c :: leq(a, b) && leq(b, c) ==> leq(a, c))
  }

  /** Sequences compare at the first place where they differ; a proper prefix comes first. */
  predicate LexLeq<T(==)>(leq: Order<T>, s: seq<T>, t: seq<T>) {
    s == [] || (t != [] && if s[0] == t[0] then LexLeq(leq, s[1..], t[1..]) else leq(s[0], t[0]))
  }

  function Lex<T(==)>(leq: Order<T>): Order<seq<T>> {
    (s: seq<T>, t: seq<T>) => LexLeq(leq, s, t)
  }

  function Pairwise<A(==), B>(a: Order<A>, b: Order<B>): Order<(A, B)> {
    (p: (A, B), q: (A, B)) => if p.0 == q.0 then b(p.1, q.1) else a(p.0, q.0)
  }

  lemma {:induction false} LexConnected<T(!new)>(leq: Order<T>, s: seq<T>, t: seq<T>)
    requires Total(leq)
    ensures LexLeq(leq, s, t) || LexLeq(leq, t, s)
    ensures LexLeq(leq, s, t) && LexLeq(leq, t, s) ==> s == t
    decreases |s|
  {
    if s != [] && t != [] && s[0] == t[0] {
      LexConnected(leq, s[1..], t[1..]);
      assert s == [s[0]] + s[1..] && t == [t[0]] + t[1..];
    }
  }

  /** s comes first if it is a prefix of t, or smaller where they first differ. */
  lemma {:induction false} LexMeans<T(!new)>(leq: Order<T>, s: seq<T>, t: seq<T>)
    requires Total(leq)
    ensures LexLeq(leq, s, t) <==>
            || s <= t
            || exists k :: 0 <= k < |s| && k < |t| && s[..k] == t[..k] && s[k] != t[k] && leq(s[k], t[k])
    decreases |s|
  {
    if s != [] && t != [] {
      if s[0] == t[0] {
        LexMeans(leq, s[1..], t[1..]);
        TailPrefix(s, t);
        if k :| 0 <= k < |s| - 1 && k < |t| - 1 && s[1..][..k] == t[1..][..k] && s[1..][k] != t[1..][k]
                && leq(s[1..][k], t[1..][k]) {
          TailPrefix(s[..k + 1], t[..k + 1]);
          assert s[..k + 1][1..] == s[1..][..k] && t[..k + 1][1..] == t[1..][..k];
          assert s[..k + 1] == t[..k + 1] && s[k + 1] != t[k + 1];
        }
        if k :| 0 <= k < |s| && k < |t| && s[..k] == t[..k] && s[k] != t[k] && leq(s[k], t[k]) {
          assert k > 0 && s[1..][..k - 1] == s[..k][1..] && t[1..][..k - 1] == t[..k][1..];
          assert s[1..][k - 1] == s[k] && t[1..][k - 1] == t[k];
        }
      } else {
        if leq(s[0], t[0]) {
          assert s[..0] == t[..0];
        }
        if k :| 0 <= k < |s| && k < |t| && s[..k] == t[..k] && s[k] != t[k] && leq(s[k], t[k]) {
          assert k > 0 ==> s[..k][0] == t[..k][0];
        }
      }
    }
  }

  lemma TailPrefix<T>(s: seq<T>, t: seq<T>)
    requires s != [] && t != [] && s[0] == t[0]
    ensures s <= t <==> s[1..] <= t[1..]
    ensures s == t <==> s[1..] == t[1..]
  {
    assert s == [s[0]] + s[1..] && t == [t[0]] + t[1..];
  }

  lemma {:induction false} LexTransitive<T(!new)>(leq: Order<T>, s: seq<T>, t: seq<T>, u: seq<T>)
    requires Total(leq) && LexLeq(leq, s, t) && LexLeq(leq, t, u)
    ensures LexLeq(leq, s, u)
    decreases |s|
  {
    if s != [] && s[0] == t[0] && t[0] == u[0] {
      LexTransitive(leq, s[1..], t[1..], u[1..]);
    }
  }

  lemma LexTotal<T(!new)>(leq: Order<T>)
    requires Total(leq)
    ensures Total(Lex(leq))
  {
    var l := Lex(leq);
    forall s, t
      ensures l(s, t) || l(t, s)
      ensures l(s, t) && l(t, s) ==> s == t
    {
      LexConnected(leq, s, t);
    }
    forall s, t, u | l(s, t) && l(t, u)
      ensures l(s, u)
    {
      LexTransitive(leq, s, t, u);
    }
  }

  lemma PairwiseTotal<A(!new), B(!new)>(a: Order<A>, b: Order<B>)
    requires Total(a) && Total(b)
    ensures Total(Pairwise(a, b))
  {
    var l := Pairwise(a, b);
    forall p, q
      ensures l(p, q) || l(q, p)
      ensures l(p, q) && l(q, p) ==> p == q
    {
      assert a(p.0, q.0) || a(q.0, p.0);
      assert b(p.1, q.1) || b(q.1, p.1);
    }
    forall p, q, r | l(p, q) && l(q, r)
      ensures l(p, r)
    {
      assert p.0 != q.0 ==> a(p.0, q.0);
      assert q.0 != r.0 ==> a(q.0, r.0);
      assert p.0 == q.0 == r.0 ==> b(p.1, q.1) && b(q.1, r.1);
    }
  }

  // ----- Sorting -----

  ghost predicate Sorted<T>(leq: Order<T>, s: seq<T>) {
    forall i, j :: 0 <= i < j < |s| ==> leq(s[i], s[j])
  }

  function Insert<T>(leq: Order<T>, x: T, s: seq<T>): (r: seq<T>)
    ensures multiset(r) == multiset{x} + multiset(s)
  {
    if s == [] then [x]
    else if leq(x, s[0]) then [x] + s
    else
      assert s == [s[0]] + s[1..];
      [s[0]] + Insert(leq, x, s[1..])
  }

  /** The stable result of Python's sorted; under a total order there is only one. */
  function Sort<T>(leq: Order<T>, s: seq<T>): (r: seq<T>)
    ensures multiset(r) == multiset(s)
  {
    if s == [] then []
    else
      assert s == [s[0]] + s[1..];
      Insert(leq, s[0], Sort(leq, s[1..]))
  }

  lemma {:induction false} InsertSorted<T(!new)>(leq: Order<T>, x: T, s: seq<T>)
    requires Total(leq) && Sorted(leq, s)
    ensures Sorted(leq, Insert(leq, x, s))
    decreases |s|
  {
    if s != [] && !leq(x, s[0]) {
      var r := Insert(leq, x, s[1..]);
      InsertSorted(leq, x, s[1..]);
      forall i | 0 <= i < |r|
        ensures leq(s[0], r[i])
      {
        assert r[i] in multiset(r);
        assert r[i] == x || r[i] in s[1..];
      }
    }
  }

  lemma {:induction false} SortSorted<T(!new)>(leq: Order<T>, s: seq<T>)
    requires Total(leq)
    ensures Sorted(leq, Sort(leq, s))
    decreases |s|
  {
    if s != [] {
      SortSorted(leq, s[1..]);
      InsertSorted(leq, s[0], Sort(leq, s[1..]));
    }
  }

  lemma LeastFirst<T(!new)>(leq: Order<T>, s: seq<T>, t: seq<T>)
    requires Total(leq) && Sorted(leq, s) && multiset(s) == multiset(t) && t != [] && s != []
    ensures leq(s[0], t[0])
  {
    assert t[0] in multiset(s);
    var j :| 0 <= j < |s| && s[j] == t[0];
  }

  lemma SameTails<T>(s: seq<T>, t: seq<T>)
    requires s != [] && t != [] && s[0] == t[0] && multiset(s) == multiset(t)
    ensures multiset(s[1..]) == multiset(t[1..])
    ensures s[1..] == t[1..] ==> s == t
  {
    assert s == [s[0]] + s[1..] && t == [t[0]] + t[1..];
    assert multiset(s[1..]) == multiset(s) - multiset{s[0]};
    assert multiset(t[1..]) == multiset(t) - multiset{t[0]};
  }

  lemma SortedTail<T>(leq: Order<T>, s: seq<T>)
    requires s != [] && Sorted(leq, s)
    ensures Sorted(leq, s[1..])
  {
  }

  lemma {:induction false} SortedUnique<T(!new)>(leq: Order<T>, s: seq<T>, t: seq<T>)
    requires Total(leq) && Sorted(leq, s) && Sorted(leq, t) && multiset(s) == multiset(t)
    ensures s == t
    decreases |s|
  {
    hide Sorted;
    assert |multiset(s)| == |s| && |multiset(t)| == |t|;
    if s != [] {
      LeastFirst(leq, s, t);
      LeastFirst(leq, t, s);
      SameTails(s, t);
      SortedTail(leq, s);
      SortedTail(leq, t);
      SortedUnique(leq, s[1..], t[1..]);
    }
  }

  /** Sorting is a canonical form of multisets. */
  lemma SortCanonical<T(!new)>(leq: Order<T>, s: seq<T>, t: seq<T>)
    requires Total(leq)
    ensures Sort(leq, s) == Sort(leq, t) <==> multiset(s) == multiset(t)
  {
    if multiset(s) == multiset(t) {
      SortSorted(leq, s);
      SortSorted(leq, t);
      SortedUnique(leq, Sort(leq, s), Sort(leq, t));
    } else {
      assert multiset(Sort(leq, s)) != multiset(Sort(leq, t));
    }
  }

  // ----- Permutations -----

  /** p lists every index below n once. */
  ghost predicate Permutation(p: seq<nat>, n: nat) {
    && |p| == n
    && (forall i :: 0 <= i < n ==> p[i] < n)
    && (forall i, j :: 0 <= i < j < n ==> p[i] != p[j])
  }

  lemma PermutationRange(p: seq<nat>, n: nat, i: nat)
    requires Permutation(p, n) && i < n
    ensures |p| == n && p[i] < n
  {
  }

  function Drop(n: nat, i: nat): nat {
    if n > i then n - 1 else n
  }

  function Lift(n: nat, i: nat): nat {
    if n >= i then n + 1 else n
  }

  lemma {:induction false} FindPermutation<T>(s: seq<T>, t: seq<T>) returns (p: seq<nat>)
    requires multiset(s) == multiset(t)
    ensures |s| == |t| && Permutation(p, |s|)
    ensures forall i :: 0 <= i < |s| ==> s[i] == t[p[i]]
    decreases |s|
  {
    assert |multiset(s)| == |s| && |multiset(t)| == |t|;
    if s == [] {
      p := [];
    } else {
      var i := SplitAtFirst(s, t);
      var u := t[..i] + t[i + 1..];
      var q := FindPermutation(s[1..], u);
      assert |s[1..]| == |u| == |t| - 1;
      p := AddFirst(q, |u|, i);
      forall j | 0 < j < |s|
        ensures s[j] == t[p[j]]
      {
        PermutationRange(q, |u|, j - 1);
        assert s[j] == s[1..][j - 1] == u[q[j - 1]];
      }
    }
  }

  /** A permutation with an index put in front and into the range. */
  lemma AddFirst(q: seq<nat>, n: nat, i: nat) returns (p: seq<nat>)
    requires Permutation(q, n) && i <= n
    ensures Permutation(p, n + 1) && p[0] == i
    ensures forall j :: 0 < j <= n ==> p[j] == Lift(q[j - 1], i)
  {
    p := [i] + seq(n, j requires 0 <= j < n => Lift(q[j], i));
  }

  lemma {:induction false} PermutedMultiset<T>(s: seq<T>, t: seq<T>, p: seq<nat>)
    requires |s| == |t| && Permutation(p, |s|)
    requires forall i :: 0 <= i < |s| ==> s[i] == t[p[i]]
    ensures multiset(s) == multiset(t)
    decreases |s|
  {
    hide Permutation;
    if s == [] {
      assert t == [];
    } else {
      PermutationRange(p, |s|, 0);
      var i := p[0];
      var u := t[..i] + t[i + 1..];
      var q := DropFirst(p, |s|);
      forall j | 0 <= j < |s| - 1
        ensures q[j] < |s| - 1 && s[1..][j] == u[q[j]]
      {
        assert s[1..][j] == s[j + 1] == t[p[j + 1]];
      }
      PermutedMultiset(s[1..], u, q);
      TakenOut(t, i);
      assert s == [s[0]] + s[1..];
    }
  }

  lemma TakenOut<T>(t: seq<T>, i: nat)
    requires i < |t|
    ensures multiset(t) == multiset(t[..i] + t[i + 1..]) + multiset{t[i]}
  {
    assert t == t[..i] + [t[i]] + t[i + 1..];
  }

  /** What is left of a permutation after its first index, with that index taken out of the range. */
  lemma DropFirst(p: seq<nat>, n: nat) returns (q: seq<nat>)
    requires n > 0 && Permutation(p, n)
    ensures Permutation(q, n - 1)
    ensures forall j :: 0 <= j < n - 1 ==> p[j + 1] != p[0] && q[j] == Drop(p[j + 1], p[0])
  {
    q := seq(n - 1, j requires 0 <= j < n - 1 => Drop(p[j + 1], p[0]));
    forall j, k | 0 <= j < k < n - 1
      ensures q[j] != q[k]
    {
      assert p[0] != p[j + 1] && p[0] != p[k + 1] && p[j + 1] != p[k + 1];
    }
  }
}
