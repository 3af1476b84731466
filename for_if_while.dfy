/** The loop and branch tutorial (forIfWhileTut.C): a for loop sums
    0 .. N-1, a do-while loop takes the same numbers away again, an if chain
    takes the sign of the result, a switch turns the sign back into a
    scalar, and a forAll loop fills a list with the even numbers. */
module ForIfWhile {
  import opened FoamConstants

  /** The list length and loop bound of the tutorial. */
  const N: int := 10

  /** 0 + 1 + ... + (n - 1). */
  function Triangle(n: nat): nat
  {
    n * (n - 1) / 2
  }

  lemma TriangleStep(n: nat)
    ensures Triangle(n + 1) == Triangle(n) + n
  {
    assert (n + 1) * n == n * (n - 1) + 2 * n;
  }

  /** The for loop. */
  method ForSum(n: int) returns (sum: real)
    ensures sum == if n > 0 then Triangle(n) as real else 0.0
  {
    sum := 0.0;
    var j := 0;
    while j < n
      invariant n > 0 ==> 0 <= j <= n
      invariant n <= 0 ==> j == 0
      invariant sum == Triangle(if j > 0 then j else 0) as real
    {
      TriangleStep(j);
      sum := sum + j as real;
      j := j + 1;
    }
  }

  /** The do-while loop: the body runs once before the test, so a start
      value k0 < 1 still makes one pass; from k0 >= 1 it makes exactly k0. */
  method DoWhileUndo(k0: int, sum0: real) returns (k: int, sum: real, ghost passes: nat)
    ensures k0 >= 1 ==> k == 0 && sum == sum0 - Triangle(k0) as real && passes == k0
    ensures k0 < 1 ==> k == k0 - 1 && sum == sum0 - (k0 - 1) as real && passes == 1
  {
    k := k0;
    k := k - 1;
    sum := sum0 - k as real;
    passes := 1;
    if k0 >= 1 {
      TriangleStep(k0 - 1);
    }
    while k > 0
      invariant k0 >= 1 ==> 0 <= k < k0 && sum == sum0 - (Triangle(k0) - Triangle(k)) as real && passes == k0 - k
      invariant k0 < 1 ==> k == k0 - 1 && sum == sum0 - (k0 - 1) as real && passes == 1
    {
      TriangleStep(k - 1);
      k := k - 1;
      sum := sum - k as real;
      passes := passes + 1;
    }
  }

  /** The if chain: the sign of sum. */
  function SignOf(sum: real): (k: int)
    ensures k == 0 <==> sum == 0.0
    ensures k == 1 <==> sum > 0.0
    ensures k == -1 <==> sum < 0.0
  {
    if sum == 0.0 then 0 else if sum > 0.0 then 1 else -1
  }

  /** The switch, with its default branch. */
  function SwitchValue(k: int): (sum: real)
    ensures -1 <= k <= 1 ==> sum == k as real
    ensures (k < -1 || k > 1) ==> sum == VSmall
  {
    match k
    case 0 => 0.0
    case 1 => 1.0
    case -1 => -1.0
    case _ => VSmall
  }

  /** The switch after the if chain never reaches its default: it gives back
      the sign as a scalar. */
  lemma SwitchOfSign(sum: real)
    ensures SwitchValue(SignOf(sum)) == SignOf(sum) as real
    ensures SwitchValue(SignOf(sum)) != VSmall
  {}

  /** The forAll loop: l[i] = 2 i. */
  method FillDoubled(n: nat) returns (l: array<int>)
    ensures fresh(l) && l.Length == n
    ensures forall i :: 0 <= i < n ==> l[i] == 2 * i
  {
    l := new int[n];
    for i := 0 to n
      invariant forall m :: 0 <= m < i ==> l[m] == 2 * m
    {
      l[i] := 2 * i;
    }
  }

  /** The whole program, for N = 10: the do-while takes away exactly what
      the for loop added, so the if chain finds sign 0 and the switch sets
      sum back to 0. */
  method Tutorial() returns (sum: real, k: int, l: array<int>)
    ensures sum == 0.0 && k == 0
    ensures fresh(l) && l.Length == N && forall i :: 0 <= i < N ==> l[i] == 2 * i
  {
    sum := ForSum(N);
    assert sum == 45.0;
    ghost var passes;
    k, sum, passes := DoWhileUndo(N, sum);
    assert passes == N;
    k := SignOf(sum);
    sum := SwitchValue(k);
    l := FillDoubled(N);
  }
}
