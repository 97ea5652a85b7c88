/** Small facts about sequences used by both components. */
module Seqs {

  /** `xs.map(f)`: the element-wise image of a sequence. */
  function MapSeq<A, B>(f: A -> B, xs: seq<A>): (ys: seq<B>)
    ensures |ys| == |xs|
    ensures forall i | 0 <= i < |xs| :: ys[i] == f(xs[i])
  {
    seq(|xs|, i requires 0 <= i < |xs| => f(xs[i]))
  }

  lemma MapSeqSnoc<A, B>(f: A -> B, xs: seq<A>, x: A)
    ensures MapSeq(f, xs + [x]) == MapSeq(f, xs) + [f(x)]
  {
  }

  lemma MapSeqConcat<A, B>(f: A -> B, xs: seq<A>, ys: seq<A>)
    ensures MapSeq(f, xs + ys) == MapSeq(f, xs) + MapSeq(f, ys)
  {
  }

  /** `xs.forEach(x => acc.push(f(x)))`: appends the image of every element, in order. */
  method AppendMapped<A, B>(acc: seq<B>, xs: seq<A>, f: A -> B) returns (r: seq<B>)
    ensures r == acc + MapSeq(f, xs)
  {
    r := acc;
    for i := 0 to |xs|
      invariant r == acc + MapSeq(f, xs[..i])
    {
      MapSeqSnoc(f, xs[..i], xs[i]);
      assert xs[..i + 1] == xs[..i] + [xs[i]];
      r := r + [f(xs[i])];
    }
    assert xs[..|xs|] == xs;
  }

  /** Regrouping concatenations; stated once so that callers need not unfold their operands. */
  lemma ConcatAssoc<T>(x: seq<T>, y: seq<T>, z: seq<T>)
    ensures x + (y + z) == x + y + z
  {
  }

  /** The number of occurrences of `x` in `s`. */
  function Count<T(==)>(s: seq<T>, x: T): nat
  {
    if s == [] then 0 else (if s[0] == x then 1 else 0) + Count(s[1..], x)
  }

  lemma {:induction false} CountConcat<T>(a: seq<T>, b: seq<T>, x: T)
    ensures Count(a + b, x) == Count(a, x) + Count(b, x)
  {
    if a != [] {
      assert (a + b)[0] == a[0];
      assert (a + b)[1..] == a[1..] + b;
      CountConcat(a[1..], b, x);
    } else {
      assert a + b == b;
    }
  }

  lemma {:induction false} CountAbsent<T>(s: seq<T>, x: T)
    requires x !in s
    ensures Count(s, x) == 0
  {
    if s != [] {
      CountAbsent(s[1..], x);
    }
  }

  /** All elements of `s` are pairwise different. */
  predicate Distinct<T(==)>(s: seq<T>)
  {
    forall i, j | 0 <= i < j < |s| :: s[i] != s[j]
  }

  lemma {:induction false} CountDistinctMember<T>(s: seq<T>, x: T)
    requires Distinct(s) && x in s
    ensures Count(s, x) == 1
  {
    if s[0] == x {
      assert x !in s[1..];
      CountAbsent(s[1..], x);
    } else {
      CountDistinctMember(s[1..], x);
    }
  }

  /** Concatenation of a sequence of sequences, in order. */
  function Flatten<T>(ss: seq<seq<T>>): seq<T>
  {
    if ss == [] then [] else ss[0] + Flatten(ss[1..])
  }
}
