/** Small datatypes and sequence facts that the other modules share. */
module Prelude {

  datatype Option<+T> = None | Some(value: T)

  datatype Result<+T, +E> = Ok(value: T) | Err(error: E)

  /** The sequence without the element at position i. */
  function Without<T>(s: seq<T>, i: nat): (r: seq<T>)
    requires i < |s|
    ensures |r| == |s| - 1
    ensures forall x :: x in s ==> x == s[i] || x in r
    ensures forall x :: x in r ==> x in s
  {
    assert s == s[..i] + [s[i]] + s[i + 1..];
    s[..i] + s[i + 1..]
  }

  lemma HeadIn<T>(s: seq<T>)
    ensures s != [] ==> s[0] in s
  {
  }

  /** Adds up a weight over the elements of a sequence. */
  ghost function Sum<T>(weight: T -> int, s: seq<T>): int {
    if s == [] then 0 else Sum(weight, s[..|s| - 1]) + weight(s[|s| - 1])
  }

  lemma {:induction false} SumConcat<T>(weight: T -> int, a: seq<T>, b: seq<T>)
    ensures Sum(weight, a + b) == Sum(weight, a) + Sum(weight, b)
  {
    if b == [] {
      assert a + b == a;
    } else {
      assert (a + b)[..|a + b| - 1] == a + b[..|b| - 1];
      SumConcat(weight, a, b[..|b| - 1]);
    }
  }

  lemma SumWithout<T>(weight: T -> int, s: seq<T>, i: nat)
    requires i < |s|
    ensures Sum(weight, Without(s, i)) == Sum(weight, s) - weight(s[i])
  {
    Reassembled(s, i);
    SumMiddle(weight, s[..i], s[i], s[i + 1..]);
  }

  lemma Reassembled<T>(s: seq<T>, i: nat)
    requires i < |s|
    ensures s[..i] + ([s[i]] + s[i + 1..]) == s
  {
  }

  lemma SumMiddle<T>(weight: T -> int, before: seq<T>, x: T, after: seq<T>)
    ensures Sum(weight, before + ([x] + after)) == Sum(weight, before + after) + weight(x)
  {
    SumConcat(weight, before, [x] + after);
    SumConcat(weight, [x], after);
    SumConcat(weight, before, after);
    SumOne(weight, x);
  }

  lemma SumOne<T>(weight: T -> int, x: T)
    ensures Sum(weight, [x]) == weight(x)
  {
    assert [x][..0] == [];
  }

  lemma SumUpdate<T>(weight: T -> int, s: seq<T>, i: nat, x: T)
    requires i < |s|
    ensures Sum(weight, s[i := x]) == Sum(weight, s) - weight(s[i]) + weight(x)
  {
    var t := s[i := x];
    assert Without(t, i) == Without(s, i);
    SumWithout(weight, s, i);
    SumWithout(weight, t, i);
  }
}
