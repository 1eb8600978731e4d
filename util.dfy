/** Small shared vocabulary: optional values, results with an error side, and integer helpers. */
module Util {

  /** A value that may be absent (a nullable column, an optional request field). */
  datatype Option<+T> = None | Some(value: T) {
    function GetOr(default: T): T {
      match this
      case Some(v) => v
      case None => default
    }
  }

  /** The outcome of an operation that can fail with a domain error (a thrown exception in the service). */
  datatype Result<+T, +E> = Ok(value: T) | Err(error: E)

  function Max(a: int, b: int): int {
    if a >= b then a else b
  }

  function Min(a: int, b: int): int {
    if a <= b then a else b
  }

  function Abs(x: int): nat {
    if x >= 0 then x else -x
  }

  /** Σ f(x) over the sequence, in order: the shape of a `reduce` or an SQL SUM. */
  function SumOf<T>(s: seq<T>, f: T -> int): int
    decreases |s|
  {
    if s == [] then 0 else f(s[0]) + SumOf(s[1..], f)
  }

  lemma {:induction false} SumOfConcat<T>(a: seq<T>, b: seq<T>, f: T -> int)
    ensures SumOf(a + b, f) == SumOf(a, f) + SumOf(b, f)
    decreases |a|
  {
    if a == [] {
      assert a + b == b;
    } else {
      assert (a + b)[0] == a[0];
      assert (a + b)[1..] == a[1..] + b;
      SumOfConcat(a[1..], b, f);
    }
  }

  /** Taking one row out of a sum leaves the sum of the others. */
  lemma SumOfRemove<T>(b: seq<T>, j: nat, f: T -> int)
    requires j < |b|
    ensures SumOf(b, f) == f(b[j]) + SumOf(b[..j] + b[j + 1..], f)
  {
    assert b == b[..j] + ([b[j]] + b[j + 1..]);
    SumOfConcat(b[..j], [b[j]] + b[j + 1..], f);
    SumOfConcat(b[..j], b[j + 1..], f);
    assert ([b[j]] + b[j + 1..])[1..] == b[j + 1..];
  }

  /** Taking the first row of `a` and a matching row of `b` out of equal multisets leaves equal multisets. */
  lemma MultisetRemove<T>(a: seq<T>, b: seq<T>, j: nat)
    requires multiset(a) == multiset(b) && a != [] && j < |b| && b[j] == a[0]
    ensures multiset(a[1..]) == multiset(b[..j] + b[j + 1..])
  {
    assert a == [a[0]] + a[1..];
    assert b == b[..j] + [b[j]] + b[j + 1..];
    calc {
      multiset(a[1..]);
      multiset(a) - multiset{a[0]};
      multiset(b[..j]) + multiset{b[j]} + multiset(b[j + 1..]) - multiset{b[j]};
      multiset(b[..j] + b[j + 1..]);
    }
  }

  /** A sum does not depend on the order of its rows: the same rows (as a multiset) give the same sum. */
  lemma {:induction false} SumOfPermutation<T>(a: seq<T>, b: seq<T>, f: T -> int)
    requires multiset(a) == multiset(b)
    ensures SumOf(a, f) == SumOf(b, f)
    decreases |a|
  {
    if a == [] {
      assert |b| == |multiset(b)| == 0;
    } else {
      assert a[0] in multiset(a);
      var j :| 0 <= j < |b| && b[j] == a[0];
      var rest := b[..j] + b[j + 1..];
      MultisetRemove(a, b, j);
      SumOfPermutation(a[1..], rest, f);
      SumOfRemove(b, j, f);
    }
  }
}
