/** Sequence operations shared by the three components: list building by
    filtered appends, counting comprehensions, and Python's `s[-n:]`. */
module Seqs {
  import opened Wrappers

  function Opt<B>(o: Option<B>): (s: seq<B>)
    ensures |s| == if o.Some? then 1 else 0
  {
    match o
    case None => []
    case Some(b) => [b]
  }

  /** The loop `for x in s: if f(x) is not None: out.append(f(x))`. */
  function FilterMap<A, B>(s: seq<A>, f: A -> Option<B>): (r: seq<B>)
    ensures |r| <= |s|
  {
    if |s| == 0 then [] else FilterMap(s[..|s| - 1], f) + Opt(f(s[|s| - 1]))
  }

  /** The positions of `s` whose element `f` keeps, in ascending order. */
  function Kept<A, B>(s: seq<A>, f: A -> Option<B>): seq<nat> {
    if |s| == 0 then [] else Kept(s[..|s| - 1], f) + (if f(s[|s| - 1]).Some? then [|s| - 1] else [])
  }

  /** The kept positions are in range, ascending, and each holds an element
      `f` maps to a value. */
  lemma {:induction false} KeptSound<A, B>(s: seq<A>, f: A -> Option<B>)
    ensures forall k :: 0 <= k < |Kept(s, f)| ==> Kept(s, f)[k] < |s| && f(s[Kept(s, f)[k]]).Some?
    ensures forall k, l :: 0 <= k < l < |Kept(s, f)| ==> Kept(s, f)[k] < Kept(s, f)[l]
  {
    if |s| > 0 {
      var n := |s| - 1;
      var s' := s[..n];
      KeptSound(s', f);
      var ks', ks := Kept(s', f), Kept(s, f);
      assert ks[..|ks'|] == ks';
      forall k | 0 <= k < |ks'|
        ensures ks[k] == ks'[k] && ks[k] < n && f(s[ks[k]]).Some?
      {
        assert ks[k] == ks'[k];
        assert s[ks[k]] == s'[ks'[k]];
      }
    }
  }

  /** Every position whose element `f` maps to a value is kept. */
  lemma {:induction false} KeptComplete<A, B>(s: seq<A>, f: A -> Option<B>, i: nat)
    requires i < |s| && f(s[i]).Some?
    ensures i in Kept(s, f)
  {
    var n := |s| - 1;
    var s' := s[..n];
    var ks', ks := Kept(s', f), Kept(s, f);
    assert ks[..|ks'|] == ks';
    if i < n {
      assert s[i] == s'[i];
      KeptComplete(s', f, i);
      var k :| 0 <= k < |ks'| && ks'[k] == i;
      assert ks[k] == i;
    } else {
      assert ks[|ks| - 1] == i;
    }
  }

  lemma KeptPositions<A, B>(s: seq<A>, f: A -> Option<B>)
    ensures forall k :: 0 <= k < |Kept(s, f)| ==> Kept(s, f)[k] < |s| && f(s[Kept(s, f)[k]]).Some?
    ensures forall k, l :: 0 <= k < l < |Kept(s, f)| ==> Kept(s, f)[k] < Kept(s, f)[l]
    ensures forall i :: 0 <= i < |s| ==> (f(s[i]).Some? <==> i in Kept(s, f))
  {
    KeptSound(s, f);
    forall i | 0 <= i < |s| && f(s[i]).Some?
      ensures i in Kept(s, f)
    {
      KeptComplete(s, f, i);
    }
  }

  /** `FilterMap` keeps exactly the elements `f` maps to a value, in their
      original order: output k is the image of the k-th kept position. */
  lemma {:induction false} FilterMapKept<A, B>(s: seq<A>, f: A -> Option<B>)
    ensures |FilterMap(s, f)| == |Kept(s, f)|
    ensures forall k :: 0 <= k < |Kept(s, f)| ==>
      Kept(s, f)[k] < |s| && f(s[Kept(s, f)[k]]).Some? && FilterMap(s, f)[k] == f(s[Kept(s, f)[k]]).value
    ensures forall k, l :: 0 <= k < l < |Kept(s, f)| ==> Kept(s, f)[k] < Kept(s, f)[l]
    ensures forall i :: 0 <= i < |s| ==> (f(s[i]).Some? <==> i in Kept(s, f))
  {
    KeptPositions(s, f);
    if |s| > 0 {
      var n := |s| - 1;
      var s' := s[..n];
      FilterMapKept(s', f);
      var ks', ks := Kept(s', f), Kept(s, f);
      var r', r := FilterMap(s', f), FilterMap(s, f);
      assert ks[..|ks'|] == ks';
      assert r[..|r'|] == r';
      forall k | 0 <= k < |ks|
        ensures r[k] == f(s[ks[k]]).value
      {
        if k < |ks'| {
          assert ks[k] == ks'[k] && s[ks[k]] == s'[ks'[k]];
          assert r[k] == r'[k];
        }
      }
    }
  }

  /** Python's `s[:n]` for a non-negative `n`. */
  function Take<A>(s: seq<A>, n: nat): (r: seq<A>)
    ensures |r| <= n && |r| <= |s|
    ensures |r| == n || r == s
    ensures r == s[..|r|]
  {
    if n < |s| then s[..n] else s
  }

  /** `sum(1 for x in s if p(x))`. */
  function Count<A>(s: seq<A>, p: A -> bool): (n: nat)
    ensures n <= |s|
  {
    if |s| == 0 then 0 else Count(s[..|s| - 1], p) + (if p(s[|s| - 1]) then 1 else 0)
  }

  lemma CountAppendOne<A>(s: seq<A>, x: A, p: A -> bool)
    ensures Count(s + [x], p) == Count(s, p) + (if p(x) then 1 else 0)
  {
    assert (s + [x])[..|s|] == s;
  }

  lemma {:induction false} CountNoneSatisfy<A>(s: seq<A>, p: A -> bool)
    requires forall i :: 0 <= i < |s| ==> !p(s[i])
    ensures Count(s, p) == 0
  {
    if |s| > 0 {
      CountNoneSatisfy(s[..|s| - 1], p);
    }
  }

  /** Counting `q` over the elements that pass `p` counts `r`, when `r` is
      `p` and `q` together. */
  lemma {:induction false} CountFilter<A>(s: seq<A>, p: A -> bool, q: A -> bool, r: A -> bool)
    requires forall x :: r(x) == (p(x) && q(x))
    ensures Count(Filter(s, p), q) == Count(s, r)
  {
    if |s| > 0 {
      var n := |s| - 1;
      CountFilter(s[..n], p, q, r);
      if p(s[n]) {
        CountAppendOne(Filter(s[..n], p), s[n], q);
      } else {
        assert Filter(s, p) == Filter(s[..n], p);
      }
    }
  }

  /** `[x for x in s if p(x)]`. */
  function Filter<A>(s: seq<A>, p: A -> bool): (r: seq<A>)
    ensures |r| == Count(s, p)
    ensures forall i :: 0 <= i < |r| ==> p(r[i])
  {
    if |s| == 0 then [] else Filter(s[..|s| - 1], p) + (if p(s[|s| - 1]) then [s[|s| - 1]] else [])
  }

  /** The sum of `f` over `s`. */
  function Sum<A>(s: seq<A>, f: A -> nat): nat {
    if |s| == 0 then 0 else Sum(s[..|s| - 1], f) + f(s[|s| - 1])
  }

  /** The concatenation of `f(x)` over `s`. */
  function Flatten<A, B>(s: seq<A>, f: A -> seq<B>): seq<B> {
    if |s| == 0 then [] else Flatten(s[..|s| - 1], f) + f(s[|s| - 1])
  }

  /** Python's `s[-n:]`: the last `n` elements, all of `s` when it is shorter,
      and, because `-0 == 0`, all of `s` when `n` is 0. */
  function TailSlice<A>(s: seq<A>, n: nat): (r: seq<A>)
    ensures n > 0 ==> |r| == if |s| < n then |s| else n
    ensures n == 0 ==> r == s
    ensures forall i :: 0 <= i < |r| ==> r[i] == s[|s| - |r| + i]
  {
    if n == 0 || |s| <= n then s else s[|s| - n..]
  }

  /** Truncating after every append keeps the same tail as truncating once
      at the end: capping a history at n entries loses nothing recent. */
  lemma TailSliceAppend<A>(s: seq<A>, m: seq<A>, n: nat)
    requires n > 0
    ensures TailSlice(TailSlice(s, n) + m, n) == TailSlice(s + m, n)
  {
    if |s| > n {
      var t := TailSlice(s, n);
      var a, b := TailSlice(t + m, n), TailSlice(s + m, n);
      assert |a| == n == |b|;
      forall i | 0 <= i < n
        ensures a[i] == b[i]
      {
        assert a[i] == (t + m)[|m| + i];
        assert b[i] == (s + m)[|s| + |m| - n + i];
        if |m| + i < n {
          assert (t + m)[|m| + i] == s[|s| - n + |m| + i];
        }
      }
    }
  }
}
