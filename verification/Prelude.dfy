/** Small shared datatypes and sequence facts. */
module Prelude {

  datatype Option<+T> = None | Some(value: T)

  datatype Result<+T, +E> = Ok(value: T) | Err(error: E)

  /** `xs` with every copy of `x` taken out, the rest in order (Redis LREM with count 0). */
  function Without<T(==,!new)>(xs: seq<T>, x: T): (r: seq<T>)
    ensures forall y :: y in r <==> y in xs && y != x
    ensures |r| <= |xs|
    ensures x in xs ==> |r| < |xs|
  {
    if xs == [] then []
    else if xs[0] == x then Without(xs[1..], x)
    else [xs[0]] + Without(xs[1..], x)
  }

  /** `word` stands at position `i` of `s`. */
  predicate At(s: string, i: nat, word: string) {
    i + |word| <= |s| && s[i..i + |word|] == word
  }

  function Elements<T>(xs: seq<T>): set<T> {
    set x | x in xs
  }

  lemma SubsetSize<T>(a: set<T>, b: set<T>)
    requires a <= b
    ensures |a| <= |b|
  {
    assert b == a + (b - a);
  }

  lemma SplitNotEarlier<T>(a: seq<T>, x: T, b: seq<T>, c: seq<T>, d: seq<T>)
    requires x !in c && a + [x] + b == c + [x] + d
    ensures |c| <= |a|
  {
    var whole := c + [x] + d;
    assert (a + [x] + b)[|a|] == x;
    assert forall k | 0 <= k < |c| :: whole[k] in c;
  }

  /** A text cut at the first separator comes apart in one way only. */
  lemma SplitAtFirst<T>(a: seq<T>, x: T, b: seq<T>, c: seq<T>, d: seq<T>)
    requires x !in a && x !in c && a + [x] + b == c + [x] + d
    ensures a == c && b == d
  {
    SplitNotEarlier(a, x, b, c, d);
    SplitNotEarlier(c, x, d, a, b);
    var whole := a + [x] + b;
    assert a == whole[..|a|] && c == whole[..|c|];
    assert b == whole[|a| + 1..] && d == whole[|c| + 1..];
  }
}
