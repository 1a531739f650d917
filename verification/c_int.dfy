/** Integer helpers shared by the models of the C and C++ sources. */
module CInt {

  function Abs(x: int): (r: nat)
    ensures r == x || r == -x
  {
    if x < 0 then -x else x
  }

  /** The quotient of a non-negative number by a positive one brackets it. */
  lemma DivBounds(a: int, b: int)
    requires 0 <= a && 0 < b
    ensures (a / b) * b <= a < (a / b + 1) * b
  {
  }

  /** The quotient of a non-negative number by a positive one is not negative. */
  lemma QuotientNonNegative(a: int, b: int)
    requires 0 <= a && 0 < b
    ensures a / b >= 0
  {
  }

  /** Signed division as C and C++ compute it: the quotient is truncated
      toward zero (Dafny's own `/` is Euclidean). */
  function Div(a: int, b: int): (q: int)
    requires b != 0
    ensures 0 <= a && 0 < b ==> q == a / b
    ensures a < 0 && 0 < b ==> q == -((-a) / b)
    ensures Abs(q) == Abs(a) / Abs(b)
    ensures q != 0 ==> (q < 0 <==> (a < 0) != (b < 0))
  {
    var n := Abs(a) / Abs(b);
    QuotientNonNegative(Abs(a), Abs(b));
    if (a < 0) == (b < 0) then n else -n
  }
}
