/** Order-preserving list operations that the source performs with
    `Array.prototype.filter`, `findIndex` and dnd-kit's `arrayMove`. */
module Seqs {

  /** `s.filter(f)`: the elements satisfying `f`, in their original order. */
  function Filter<T(!new)>(f: T -> bool, s: seq<T>): (r: seq<T>)
    ensures |r| <= |s|
  {
    if s == [] then []
    else
      assert s == [s[0]] + s[1..];
      if f(s[0]) then [s[0]] + Filter(f, s[1..])
      else Filter(f, s[1..])
  }

  /** The filtered list holds exactly the elements of `s` that satisfy `f`,
      each no more often than in `s`. */
  lemma {:induction false} FilterMembers<T(!new)>(f: T -> bool, s: seq<T>)
    ensures forall x :: x in Filter(f, s) <==> x in s && f(x)
    ensures multiset(Filter(f, s)) <= multiset(s)
  {
    if s != [] {
      FilterMembers(f, s[1..]);
      assert s == [s[0]] + s[1..];
    }
  }

  lemma {:induction false} FilterConcat<T(!new)>(f: T -> bool, a: seq<T>, b: seq<T>)
    ensures Filter(f, a + b) == Filter(f, a) + Filter(f, b)
  {
    if a == [] {
      assert a + b == b;
    } else {
      assert (a + b)[1..] == a[1..] + b;
      FilterConcat(f, a[1..], b);
    }
  }

  /** Filtering with a predicate that holds everywhere returns the list unchanged. */
  lemma {:induction false} FilterAll<T(!new)>(f: T -> bool, s: seq<T>)
    requires forall x :: x in s ==> f(x)
    ensures Filter(f, s) == s
  {
    if s != [] {
      FilterAll(f, s[1..]);
    }
  }

  /** Filtering with a predicate that holds nowhere returns the empty list. */
  lemma {:induction false} FilterNone<T(!new)>(f: T -> bool, s: seq<T>)
    requires forall x :: x in s ==> !f(x)
    ensures Filter(f, s) == []
  {
    if s != [] {
      FilterNone(f, s[1..]);
    }
  }

  /** Each value occurs in the filtered list as often as in `s` when it
      satisfies `f`, and not at all otherwise. */
  lemma {:induction false} FilterCount<T(!new)>(f: T -> bool, s: seq<T>, x: T)
    ensures multiset(Filter(f, s))[x] == if f(x) then multiset(s)[x] else 0
  {
    if s != [] {
      FilterCount(f, s[1..], x);
      assert s == [s[0]] + s[1..];
    }
  }

  /** The count of `x` in a non-empty list: its head plus the rest. */
  lemma HeadCount<T>(s: seq<T>, x: T)
    requires s != []
    ensures multiset(s)[x] == multiset(s[1..])[x] + if s[0] == x then 1 else 0
  {
    assert s == [s[0]] + s[1..];
  }

  /** Filtering two permutations of each other gives permutations of each other. */
  lemma FilterPermutation<T(!new)>(f: T -> bool, a: seq<T>, b: seq<T>)
    requires multiset(a) == multiset(b)
    ensures multiset(Filter(f, a)) == multiset(Filter(f, b))
  {
    forall x | true
      ensures multiset(Filter(f, a))[x] == multiset(Filter(f, b))[x]
    {
      FilterCount(f, a, x);
      FilterCount(f, b, x);
    }
  }

  /** `idx` lays `r` out inside `s`: element `k` of `r` is element `idx[k]`
      of `s`, and the positions strictly increase. */
  predicate Embedding<T(==)>(idx: seq<int>, r: seq<T>, s: seq<T>) {
    && |idx| == |r|
    && (forall k :: 0 <= k < |idx| ==> 0 <= idx[k] < |s| && s[idx[k]] == r[k])
    && (forall k, l :: 0 <= k < l < |idx| ==> idx[k] < idx[l])
  }

  /** `r` is `s` with some elements left out and the rest in their order. */
  ghost predicate IsSubsequence<T>(r: seq<T>, s: seq<T>) {
    exists idx :: Embedding(idx, r, s)
  }

  /** Positions in `s[1..]` are the positions in `s` shifted by one. */
  lemma ShiftEmbedding<T>(idx: seq<int>, r: seq<T>, s: seq<T>) returns (shifted: seq<int>)
    requires s != [] && Embedding(idx, r, s[1..])
    ensures Embedding(shifted, r, s)
    ensures forall k :: 0 <= k < |shifted| ==> shifted[k] >= 1
  {
    shifted := seq(|idx|, k requires 0 <= k < |idx| => idx[k] + 1);
    forall k | 0 <= k < |shifted|
      ensures s[shifted[k]] == r[k]
    {
      assert s[idx[k] + 1] == s[1..][idx[k]];
    }
  }

  /** Keeping the head of `s` in front of an embedding that avoids it. */
  lemma ConsEmbedding<T>(shifted: seq<int>, r: seq<T>, s: seq<T>) returns (idx: seq<int>)
    requires s != [] && Embedding(shifted, r, s)
    requires forall k :: 0 <= k < |shifted| ==> shifted[k] >= 1
    ensures Embedding(idx, [s[0]] + r, s)
  {
    idx := [0] + shifted;
    var r' := [s[0]] + r;
    forall k | 0 <= k < |idx|
      ensures 0 <= idx[k] < |s| && s[idx[k]] == r'[k]
    {
      if k > 0 {
        assert idx[k] == shifted[k - 1] && r'[k] == r[k - 1];
      }
    }
  }

  /** A filter keeps its survivors in their original order. */
  lemma {:induction false} FilterEmbedding<T(!new)>(f: T -> bool, s: seq<T>) returns (idx: seq<int>)
    ensures Embedding(idx, Filter(f, s), s)
  {
    if s == [] {
      idx := [];
    } else {
      var t := FilterEmbedding(f, s[1..]);
      var shifted := ShiftEmbedding(t, Filter(f, s[1..]), s);
      if f(s[0]) {
        assert Filter(f, s) == [s[0]] + Filter(f, s[1..]);
        idx := ConsEmbedding(shifted, Filter(f, s[1..]), s);
      } else {
        idx := shifted;
      }
    }
  }

  /** The order-and-count promise of `s.filter(f)`: the result is a
      subsequence of `s` holding each value exactly as often as `s` does when
      it passes `f`, and never otherwise. */
  lemma FilterKeepsOrder<T(!new)>(f: T -> bool, s: seq<T>)
    ensures IsSubsequence(Filter(f, s), s)
    ensures forall x :: multiset(Filter(f, s))[x] == if f(x) then multiset(s)[x] else 0
  {
    var idx := FilterEmbedding(f, s);
    forall x
      ensures multiset(Filter(f, s))[x] == if f(x) then multiset(s)[x] else 0
    {
      FilterCount(f, s, x);
    }
  }

  /** The filtered list is non-empty exactly when some element satisfies `f`. */
  lemma FilterNonEmpty<T(!new)>(f: T -> bool, s: seq<T>)
    ensures |Filter(f, s)| > 0 <==> exists x :: x in s && f(x)
  {
    FilterMembers(f, s);
    if |Filter(f, s)| > 0 {
      assert Filter(f, s)[0] in Filter(f, s);
    }
  }

  /** Filtering twice with the same predicate is filtering once. */
  lemma FilterIdempotent<T(!new)>(f: T -> bool, s: seq<T>)
    ensures Filter(f, Filter(f, s)) == Filter(f, s)
  {
    FilterMembers(f, s);
    FilterAll(f, Filter(f, s));
  }

  /** A list splits into the elements that pass `f` and those that pass its
      complement `g`. */
  lemma {:induction false} FilterPartition<T(!new)>(f: T -> bool, g: T -> bool, s: seq<T>)
    requires forall x :: g(x) <==> !f(x)
    ensures multiset(Filter(f, s)) + multiset(Filter(g, s)) == multiset(s)
  {
    if s != [] {
      FilterPartition(f, g, s[1..]);
      assert s == [s[0]] + s[1..];
    }
  }

  /** `s.findIndex(x => key(x) == k)`, with -1 when no element has key `k`. */
  function FindIndex<T, K(==)>(key: T -> K, s: seq<T>, k: K): (i: int)
    ensures -1 <= i < |s|
    ensures i == -1 <==> forall j :: 0 <= j < |s| ==> key(s[j]) != k
    ensures 0 <= i ==> key(s[i]) == k && forall j :: 0 <= j < i ==> key(s[j]) != k
  {
    if s == [] then -1
    else if key(s[0]) == k then 0
    else
      var i := FindIndex(key, s[1..], k);
      if i == -1 then -1 else i + 1
  }

  /** `arrayMove(s, from, to)`: take the element at `from` out and insert it at `to`. */
  function Move<T>(s: seq<T>, from: nat, to: nat): (r: seq<T>)
    requires from < |s| && to < |s|
    ensures |r| == |s|
    ensures r[to] == s[from]
    ensures multiset(r) == multiset(s)
  {
    var x := s[from];
    var rest := s[..from] + s[from + 1..];
    var r := rest[..to] + [x] + rest[to..];
    calc {
      multiset(r);
      multiset(rest[..to]) + multiset([x]) + multiset(rest[to..]);
      { assert rest == rest[..to] + rest[to..]; }
      multiset(rest) + multiset([x]);
      multiset(s[..from]) + multiset(s[from + 1..]) + multiset([x]);
      { assert s == s[..from] + [x] + s[from + 1..]; }
      multiset(s);
    }
    r
  }

  /** Apart from the moved element, `Move` keeps every other element in its relative order. */
  lemma MoveKeepsOthers<T>(s: seq<T>, from: nat, to: nat)
    requires from < |s| && to < |s|
    ensures Move(s, from, to)[..to] + Move(s, from, to)[to + 1..] == s[..from] + s[from + 1..]
  {
    var rest := s[..from] + s[from + 1..];
    var r := Move(s, from, to);
    assert r[..to] == rest[..to];
    assert r[to + 1..] == rest[to..];
  }
}
