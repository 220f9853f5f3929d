/** Slicing, joining and filtering, as the connector's loops and comprehensions use them. */
module Sequences {
  /** How many slices of `size` cover n items: the ceiling of n / size. */
  function Ceil(n: nat, size: nat): nat
    requires size > 0
  {
    if n == 0 then 0 else if n <= size then 1 else 1 + Ceil(n - size, size)
  }

  lemma {:induction false} CeilIsCeiling(n: nat, size: nat)
    requires size > 0
    ensures n <= Ceil(n, size) * size < n + size
  {
    if n > size { CeilIsCeiling(n - size, size); }
  }

  /** Consecutive slices of `size` items; only the last may be shorter. */
  function Chunks<T>(items: seq<T>, size: nat): seq<seq<T>>
    requires size > 0
  {
    if |items| == 0 then []
    else if |items| <= size then [items]
    else [items[..size]] + Chunks(items[size..], size)
  }

  function Flatten<T>(parts: seq<seq<T>>): seq<T> {
    if parts == [] then [] else parts[0] + Flatten(parts[1..])
  }

  lemma {:induction false} ChunksCover<T>(items: seq<T>, size: nat)
    requires size > 0
    ensures Flatten(Chunks(items, size)) == items
    ensures |Chunks(items, size)| == Ceil(|items|, size)
    ensures forall c | c in Chunks(items, size) :: 0 < |c| <= size
  {
    if |items| == 0 {
    } else if |items| <= size {
      assert Flatten([items]) == items + Flatten([]);
    } else {
      ChunksCover(items[size..], size);
      var rest := Chunks(items[size..], size);
      assert Chunks(items, size) == [items[..size]] + rest && ([items[..size]] + rest)[1..] == rest;
      assert Flatten([items[..size]] + rest) == items[..size] + Flatten(rest);
      assert items[..size] + items[size..] == items;
      assert forall c | c in Chunks(items, size) :: c == items[..size] || c in rest;
    }
  }

  lemma {:induction false} FlattenMember<T>(parts: seq<seq<T>>, x: T)
    ensures x in Flatten(parts) <==> exists p | p in parts :: x in p
  {
    if parts != [] { FlattenMember(parts[1..], x); }
  }

  lemma {:induction false} FlattenConcat<T>(a: seq<seq<T>>, b: seq<seq<T>>)
    ensures Flatten(a + b) == Flatten(a) + Flatten(b)
  {
    if a == [] {
      assert a + b == b;
    } else {
      FlattenConcat(a[1..], b);
      assert (a + b)[0] == a[0] && (a + b)[1..] == a[1..] + b;
      ConcatAssociates(a[0], Flatten(a[1..]), Flatten(b));
    }
  }

  ghost predicate Distinct<T>(xs: seq<T>) { forall i, j | 0 <= i < j < |xs| :: xs[i] != xs[j] }

  lemma FlattenOneMore<T>(parts: seq<seq<T>>, p: seq<T>)
    ensures Flatten(parts + [p]) == Flatten(parts) + p
  {
    FlattenConcat(parts, [p]);
    assert [p][1..] == [] && Flatten<T>([]) == [];
    assert Flatten([p]) == p + Flatten([p][1..]);
    assert p + [] == p;
  }

  lemma ConcatAssociates<T>(a: seq<T>, b: seq<T>, c: seq<T>)
    ensures (a + b) + c == a + (b + c)
  {}

  lemma SplitBack<T>(a: seq<T>, b: seq<T>)
    ensures (a + b)[..|a|] == a && (a + b)[|a|..] == b
  {}

  lemma TakeOneMore<T>(xs: seq<T>, n: nat)
    requires n < |xs|
    ensures xs[..n + 1] == xs[..n] + [xs[n]] && xs[..n + 1][..n] == xs[..n]
  {}

  function Filter<T>(xs: seq<T>, p: T -> bool): seq<T> {
    if xs == [] then [] else (if p(xs[0]) then [xs[0]] else []) + Filter(xs[1..], p)
  }

  lemma {:induction false} FilterConcat<T>(a: seq<T>, b: seq<T>, p: T -> bool)
    ensures Filter(a + b, p) == Filter(a, p) + Filter(b, p)
  {
    if a == [] {
      assert a + b == b;
    } else {
      FilterConcat(a[1..], b, p);
      assert (a + b)[0] == a[0] && (a + b)[1..] == a[1..] + b;
      var head := if p(a[0]) then [a[0]] else [];
      assert head + (Filter(a[1..], p) + Filter(b, p)) == head + Filter(a[1..], p) + Filter(b, p);
    }
  }

  lemma {:induction false} FilterMember<T>(xs: seq<T>, p: T -> bool, x: T)
    ensures x in Filter(xs, p) <==> x in xs && p(x)
    ensures |Filter(xs, p)| <= |xs|
  {
    if xs != [] {
      FilterMember(xs[1..], p, x);
      assert xs == [xs[0]] + xs[1..];
    }
  }

  lemma {:induction false} FilterSame<T>(xs: seq<T>, p: T -> bool, q: T -> bool)
    requires forall x | x in xs :: p(x) == q(x)
    ensures Filter(xs, p) == Filter(xs, q)
  {
    if xs != [] {
      assert xs == [xs[0]] + xs[1..];
      FilterSame(xs[1..], p, q);
    }
  }

  function Map<T, U>(xs: seq<T>, f: T -> U): seq<U> { seq(|xs|, i requires 0 <= i < |xs| => f(xs[i])) }
}
