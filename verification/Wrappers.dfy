/** Stock result types. */
module Wrappers {
  datatype Option<+T> = None | Some(value: T)

  datatype Result<+T, +E> = Ok(value: T) | Err(error: E)
}

/** Arithmetic as the source writes it, and the sign rules its proofs need. */
module Arithmetic {
  function Abs(x: real): real { if x < 0.0 then -x else x }

  function Min(x: real, y: real): real { if y < x then y else x }

  /** `max(0.0, x)`. */
  function Max0(x: real): real { if x > 0.0 then x else 0.0 }

  /** Python's `x or y` on floats. */
  function OrElse(x: real, y: real): real { if x != 0.0 then x else y }

  function Same<T>(x: T): T { x }

  lemma PositiveProduct(x: real, y: real)
    requires x * y > 0.0 && x >= 0.0
    ensures x > 0.0 && y > 0.0
  {
  }

  lemma PositiveQuotient(x: real, d: real)
    requires d > 0.0
    ensures x / d > 0.0 <==> x > 0.0
  {
  }
}

/** Sums of a real-valued measure over a sequence, folded from the left as the source's loops do. */
module Sums {
  function Sum<T>(s: seq<T>, f: T -> real): real {
    if s == [] then 0.0 else Sum(s[..|s| - 1], f) + f(s[|s| - 1])
  }

  lemma SumSnoc<T>(s: seq<T>, x: T, f: T -> real)
    ensures Sum(s + [x], f) == Sum(s, f) + f(x)
  {
    assert (s + [x])[..|s|] == s;
  }

  /** A measure that splits into two splits its sum into two. */
  lemma {:induction false} SumSplits<T>(s: seq<T>, h: T -> real, f: T -> real, g: T -> real)
    requires forall x | x in s :: h(x) == f(x) + g(x)
    ensures Sum(s, h) == Sum(s, f) + Sum(s, g)
  {
    if s != [] {
      SumSplits(s[..|s| - 1], h, f, g);
    }
  }
}
