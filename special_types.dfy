/** The array part of the special-types tutorial (specialTypesTut.C): a
    stack array and a heap array of 20 scalars are filled in one loop. */
module SpecialTypes {

  /** The length of both arrays. */
  const Size: int := 20

  /** The product of two scalars; the order of the factors does not matter. */
  function Mult(a: real, b: real): (r: real)
    ensures r == a * b && r == b * a
  {
    a * b
  }

  /** da[q] = q and db[q] = mult(da[q], q) for q = 0 .. 19. */
  method FillArrays() returns (da: array<real>, db: array<real>)
    ensures fresh(da) && fresh(db) && da.Length == Size && db.Length == Size
    ensures forall q :: 0 <= q < Size ==> da[q] == q as real && db[q] == (q * q) as real
  {
    da := new real[Size];
    db := new real[Size];
    for q := 0 to Size
      invariant forall m :: 0 <= m < q ==> da[m] == m as real && db[m] == (m * m) as real
    {
      da[q] := q as real;
      db[q] := Mult(da[q], q as real);
    }
  }
}
