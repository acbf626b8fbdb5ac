/** Small helpers shared by the ledger, the aggregator and the report formatter. */
module Common {

  datatype Option<+T> = None | Some(value: T)

  /** std::min on two ints. */
  function Min(a: int, b: int): (r: int)
    ensures r <= a && r <= b
    ensures r == a || r == b
  {
    if a < b then a else b
  }

  /** `i` is the position of the first x in s. */
  predicate FirstAt<T(==)>(s: seq<T>, x: T, i: int)
  {
    0 <= i < |s| && s[i] == x && forall j :: 0 <= j < i ==> s[j] != x
  }

  /** The index of the first element of `s` equal to `x`, as a front-to-back
      linear scan that stops at the first hit finds it; None when no element is. */
  function FirstIndex<T(==)>(s: seq<T>, x: T): (r: Option<nat>)
    ensures r.Some? ==> FirstAt(s, x, r.value)
    ensures r.None? <==> forall j :: 0 <= j < |s| ==> s[j] != x
  {
    if |s| == 0 then None
    else if s[0] == x then Some(0)
    else match FirstIndex(s[1..], x)
      case None => None
      case Some(i) => Some(i + 1)
  }

  /** f applied to every element of xs, in order. */
  function Map<A, B>(f: A -> B, xs: seq<A>): (r: seq<B>)
    ensures |r| == |xs| && forall i :: 0 <= i < |xs| ==> r[i] == f(xs[i])
  {
    seq(|xs|, i requires 0 <= i < |xs| => f(xs[i]))
  }

  lemma MapCons<A, B>(f: A -> B, xs: seq<A>)
    requires |xs| != 0
    ensures Map(f, xs) == [f(xs[0])] + Map(f, xs[1..])
  {
  }

  lemma MapSnoc<A, B>(f: A -> B, xs: seq<A>, x: A)
    ensures Map(f, xs + [x]) == Map(f, xs) + [f(x)]
  {
  }

  /** Where everything sits in [h1] + a + [h2] + b + [h3] + c. */
  lemma ThreeSections<T>(h1: T, a: seq<T>, h2: T, b: seq<T>, h3: T, c: seq<T>)
    ensures var r := [h1] + a + [h2] + b + [h3] + c;
      && |r| == 3 + |a| + |b| + |c|
      && r[0] == h1 && r[1..1 + |a|] == a
      && r[1 + |a|] == h2 && r[2 + |a|..2 + |a| + |b|] == b
      && r[2 + |a| + |b|] == h3 && r[3 + |a| + |b|..] == c
  {
    var r := [h1] + a + [h2] + b + [h3] + c;
    assert r[1..1 + |a|] == a;
    assert r[2 + |a|..2 + |a| + |b|] == b;
    assert r[3 + |a| + |b|..] == c;
  }

  lemma ThreeSectionsTail<T>(h1: T, a: seq<T>, h2: T, b: seq<T>, h3: T, c: seq<T>)
    ensures ([h1] + a + [h2] + b + [h3] + c)[1..] == a + [h2] + b + [h3] + c
  {
  }
}
