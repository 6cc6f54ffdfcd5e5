/** Small shared vocabulary: optional values and two facts about sequences seen as multisets. */
module Prelude {

  datatype Option<+T> = None | Some(value: T)

  /** The sequence of images; it keeps order and length. */
  function Map<A, B>(f: A -> B, s: seq<A>): (r: seq<B>)
    ensures |r| == |s|
    ensures forall i :: 0 <= i < |s| ==> r[i] == f(s[i])
  {
    if s == [] then [] else [f(s[0])] + Map(f, s[1..])
  }

  lemma {:induction false} MapAppend<A, B>(f: A -> B, s: seq<A>, t: seq<A>)
    ensures Map(f, s + t) == Map(f, s) + Map(f, t)
    decreases s
  {
    if s == [] {
      assert s + t == t;
    } else {
      assert (s + t)[1..] == s[1..] + t;
      MapAppend(f, s[1..], t);
    }
  }

  lemma MapExtend<A, B>(f: A -> B, s: seq<A>, i: nat)
    requires i < |s|
    ensures Map(f, s[..i + 1]) == Map(f, s[..i]) + [f(s[i])]
  {
    assert s[..i + 1] == s[..i] + [s[i]];
    MapAppend(f, s[..i], [s[i]]);
    assert Map(f, [s[i]]) == [f(s[i])];
  }

  lemma UnionAssociates<A, B>(a: map<A, B>, b: map<A, B>, c: map<A, B>)
    ensures (a + b) + c == a + (b + c)
  {
  }

  /** A permutation of a nonempty sequence holds its first element somewhere, and the rest around it. */
  lemma SplitAtFirst<T>(s: seq<T>, t: seq<T>) returns (i: nat)
    requires s != [] && multiset(s) == multiset(t)
    ensures i < |t| && t[i] == s[0]
    ensures t == t[..i] + [s[0]] + t[i + 1..]
    ensures multiset(s[1..]) == multiset(t[..i] + t[i + 1..])
  {
    assert s == [s[0]] + s[1..];
    assert s[0] in multiset(t);
    i :| 0 <= i < |t| && t[i] == s[0];
    assert t == t[..i] + [s[0]] + t[i + 1..];
    assert multiset(s) == multiset{s[0]} + multiset(s[1..]);
    assert multiset(t[..i] + [s[0]] + t[i + 1..]) == multiset(t[..i]) + multiset{s[0]} + multiset(t[i + 1..]);
    assert multiset(s) - multiset{s[0]} == multiset(s[1..]);
  }

  /** The concatenation of images. */
  function Flat<A, B>(f: A -> seq<B>, s: seq<A>): seq<B> {
    if s == [] then [] else f(s[0]) + Flat(f, s[1..])
  }

  lemma {:induction false} FlatAppend<A, B>(f: A -> seq<B>, s: seq<A>, t: seq<A>)
    ensures Flat(f, s + t) == Flat(f, s) + Flat(f, t)
    decreases s
  {
    if s == [] {
      assert s + t == t;
    } else {
      assert (s + t)[1..] == s[1..] + t;
      FlatAppend(f, s[1..], t);
    }
  }

  lemma FlatNone<A, B>(f: A -> seq<B>)
    ensures Flat(f, []) == []
  {
  }

  lemma FlatOne<A, B>(f: A -> seq<B>, a: A)
    ensures Flat(f, [a]) == f(a)
  {
    assert [a][1..] == [];
  }

  lemma {:induction false} FlatPermuted<A, B>(f: A -> seq<B>, s: seq<A>, t: seq<A>)
    requires multiset(s) == multiset(t)
    ensures multiset(Flat(f, s)) == multiset(Flat(f, t))
    decreases |s|
  {
    if s == [] {
      assert t == [];
    } else {
      var i := SplitAtFirst(s, t);
      var a, b := t[..i], t[i + 1..];
      FlatPermuted(f, s[1..], a + b);
      FlatAppend(f, a, b);
      FlatAppend(f, a, [s[0]]);
      FlatAppend(f, a + [s[0]], b);
      FlatOne(f, s[0]);
      assert t == a + [s[0]] + b;
    }
  }

  lemma {:induction false} MapPermuted<A, B>(f: A -> B, s: seq<A>, t: seq<A>)
    requires multiset(s) == multiset(t)
    ensures multiset(Map(f, s)) == multiset(Map(f, t))
    decreases |s|
  {
    if s == [] {
      assert t == [];
    } else {
      var i := SplitAtFirst(s, t);
      var a, b := t[..i], t[i + 1..];
      MapPermuted(f, s[1..], a + b);
      MapAppend(f, a, b);
      MapAppend(f, a, [s[0]]);
      MapAppend(f, a + [s[0]], b);
      assert Map(f, [s[0]]) == [f(s[0])];
      assert t == a + [s[0]] + b;
    }
  }
}
