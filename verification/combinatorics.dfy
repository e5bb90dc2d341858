/**
 * The two integer algorithms behind the `fib` and `pascal` operators, over
 * exact integers, each proved against a recursive reference definition.
 */
module Combinatorics {
  import opened Errors

  /** The Fibonacci numbers: Fib(0) = 0, Fib(1) = 1. */
  function Fib(n: nat): nat {
    if n < 2 then n else Fib(n - 1) + Fib(n - 2)
  }

  /** The entry at `row`, `col` of Pascal's triangle, by Pascal's rule. */
  function Choose(n: nat, k: nat): nat {
    if k == 0 then 1
    else if n == 0 then 0
    else Choose(n - 1, k - 1) + Choose(n - 1, k)
  }

  /** Two accumulators walked forward from (Fib(0), Fib(1)); a negative index is refused. */
  method Fibonacci(n: int) returns (r: Result<nat>)
    ensures n < 0 <==> r.Err?
    ensures r.Err? ==> r.error == NegativeFibonacci
    ensures r.Ok? ==> r.value == Fib(n)
  {
    if n < 0 {
      return Err(NegativeFibonacci);
    }
    if n == 0 {
      return Ok(0);
    }
    if n == 1 {
      return Ok(1);
    }
    var a, b := 0, 1;
    var i := 2;
    while i <= n
      invariant 2 <= i <= n + 1
      invariant a == Fib(i - 2) && b == Fib(i - 1)
    {
      var temp := a + b;
      a := b;
      b := temp;
      i := i + 1;
    }
    return Ok(b);
  }

  lemma {:induction false} ChooseAboveRow(n: nat, k: nat)
    requires k > n
    ensures Choose(n, k) == 0
  {
    if n > 0 {
      ChooseAboveRow(n - 1, k - 1);
      ChooseAboveRow(n - 1, k);
    }
  }

  lemma {:induction false} ChooseFirstColumn(n: nat)
    ensures Choose(n, 1) == n
  {
    if n > 0 {
      ChooseFirstColumn(n - 1);
    }
  }

  /** The edges of the triangle are ones. */
  lemma {:induction false} ChooseEdges(n: nat)
    ensures Choose(n, 0) == 1 && Choose(n, n) == 1
  {
    if n > 0 {
      ChooseEdges(n - 1);
      ChooseAboveRow(n - 1, n);
    }
  }

  /**
   * The multiplicative step: k * C(n, k) == (n - k + 1) * C(n, k - 1). It is
   * what makes one step of the accumulator loop exact.
   */
  lemma {:induction false} ChooseStep(n: nat, k: nat)
    requires k >= 1
    ensures k * Choose(n, k) == (n - k + 1) * Choose(n, k - 1)
  {
    if k == 1 {
      ChooseFirstColumn(n);
    } else if n == 0 {
    } else {
      // k * C(n, k) = (k - 1) * C(n-1, k-1) + C(n-1, k-1) + k * C(n-1, k)
      ChooseStep(n - 1, k);
      ChooseStep(n - 1, k - 1);
      var p, q, r := Choose(n - 1, k - 2), Choose(n - 1, k - 1), Choose(n - 1, k);
      assert Choose(n, k) == q + r;
      assert Choose(n, k - 1) == p + q;
      StepArithmetic(k, n, p, q, r);
    }
  }

  /** The arithmetic that closes the inductive step of ChooseStep. */
  lemma StepArithmetic(k: int, n: int, p: int, q: int, r: int)
    requires k * r == (n - k) * q
    requires (k - 1) * q == (n - k + 1) * p
    ensures k * (q + r) == (n - k + 1) * (p + q)
  {
    calc {
      k * (q + r);
      k * q + k * r;
      k * q + (n - k) * q;
      n * q;
      (k - 1) * q + (n - k + 1) * q;
      (n - k + 1) * p + (n - k + 1) * q;
      (n - k + 1) * (p + q);
    }
  }

  /** Dividing an exact multiple gives back the other factor. */
  lemma ExactDivision(x: int, d: int, c: int)
    requires d > 0 && x == d * c
    ensures x / d == c && x % d == 0
  {
    var m, rem := x / d, x % d;
    assert d * (c - m) == rem;
    SmallMultiple(d, c - m);
  }

  lemma SmallMultiple(d: int, t: int)
    requires d > 0 && 0 <= d * t < d
    ensures t == 0
  {
  }

  /**
   * One step of the running product is exact: multiplying C(row, i - 1) by
   * row - i + 1 gives a multiple of i, and the quotient is C(row, i).
   */
  lemma PascalStepIsExact(row: nat, i: nat)
    requires 1 <= i
    ensures (Choose(row, i - 1) * (row - i + 1)) % i == 0
    ensures Choose(row, i - 1) * (row - i + 1) / i == Choose(row, i)
  {
    ChooseStep(row, i);
    ExactDivision(Choose(row, i - 1) * (row - i + 1), i, Choose(row, i));
  }

  /**
   * C(row, col) by the running product result * (row - i + 1) / i; the
   * coordinates must satisfy 0 <= col <= row.
   */
  method Pascal(row: int, col: int) returns (r: Result<nat>)
    ensures (row < 0 || col < 0 || col > row) <==> r.Err?
    ensures r.Err? ==> r.error == PascalOutOfRange
    ensures r.Ok? ==> r.value == Choose(row, col)
  {
    if row < 0 || col < 0 || col > row {
      return Err(PascalOutOfRange);
    }
    var result := 1;
    var i := 1;
    while i <= col
      invariant 1 <= i <= col + 1
      invariant result == Choose(row, i - 1)
    {
      PascalStepIsExact(row, i);
      result := result * (row - i + 1) / i;
      i := i + 1;
    }
    return Ok(result);
  }
}
