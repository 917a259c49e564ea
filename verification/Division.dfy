/** Exact integer division in 64 bits: `quotient`, `remainder`, `modulo` and the variadic `/`. */
module Division {
  import opened Prelude

  type i64 = x: int | I64_MIN <= x <= I64_MAX witness 0

  function Abs(x: int): nat {
    if x < 0 then -x else x
  }

  /** The machine's `/`, which rounds toward zero, and wraps for its one overflow. */
  function TruncatingDiv(a: i64, b: i64): i64
    requires b != 0
  {
    if a == I64_MIN && b == -1 then a
    else
      TruncatedFits(a, b);
      Truncated(a, b)
  }

  function Truncated(a: int, b: int): int
    requires b != 0
  {
    var q: int := Abs(a) / Abs(b);
    if (a < 0) == (b < 0) then q else -q
  }

  lemma {:induction false} QuotientBound(n: nat, d: nat)
    requires d > 0
    ensures n / d <= n && n == (n / d) * d + n % d && n % d < d
  {
    var q := n / d;
    MulAtLeast(q, d);
  }

  lemma {:induction false} MulAtLeast(q: nat, d: nat)
    requires d > 0
    ensures q <= q * d && (d > 1 ==> 2 * q <= q * d)
  {
  }

  lemma {:induction false} TruncatedFits(a: i64, b: i64)
    requires b != 0 && !(a == I64_MIN && b == -1)
    ensures I64_MIN <= Truncated(a, b) <= I64_MAX
  {
    var n, d := Abs(a), Abs(b);
    QuotientBound(n, d);
    QuotientHalves(n, d);
  }

  lemma {:induction false} QuotientHalves(n: nat, d: nat)
    requires d > 0
    ensures 0 <= n / d <= n && (d > 1 ==> 2 * (n / d) <= n)
  {
    QuotientBound(n, d);
    MulAtLeast(n / d, d);
  }

  /** The machine's `%`, whose sign is that of the dividend. */
  function TruncatingRem(a: i64, b: i64): i64
    requires b != 0
  {
    if a == I64_MIN && b == -1 then 0
    else
      QuotientBound(Abs(a), Abs(b));
      if a < 0 then -(Abs(a) % Abs(b)) else Abs(a) % Abs(b)
  }

  /** Quotient and remainder give back the dividend, up to the one wrap-around. */
  lemma {:induction false} QuotientRemainder(a: i64, b: i64)
    requires b != 0
    ensures var q, r := TruncatingDiv(a, b), TruncatingRem(a, b);
      (q * b + r - a) % TWO64 == 0 && (!(a == I64_MIN && b == -1) ==> q * b + r == a)
      && Abs(r) < Abs(b) && (r != 0 ==> (r < 0 <==> a < 0))
  {
    QuotientBound(Abs(a), Abs(b));
    var k, m := Abs(a) / Abs(b), Abs(a) % Abs(b);
    if a == I64_MIN && b == -1 {
      assert a * b + 0 - a == TWO64;
    } else {
      SignedProduct(k, Abs(b), a < 0, b < 0);
    }
  }

  lemma {:induction false} SignedProduct(k: int, d: int, aNegative: bool, bNegative: bool)
    ensures var q, b := if aNegative == bNegative then k else -k, if bNegative then -d else d;
      q * b == if aNegative then -(k * d) else k * d
  {
  }

  /** `modulo`: the remainder, moved by one divisor when its sign disagrees with the divisor's. */
  function Modulo(a: i64, b: i64): (r: int)
    requires b != 0
  {
    var r := TruncatingRem(a, b);
    if r != 0 && (r < 0) != (b < 0) then r + b else r
  }

  ghost predicate Divides(d: int, a: int) {
    exists k: int :: a == k * d
  }

  /**
   `modulo` is congruent to the dividend, has the divisor's sign and a smaller magnitude;
   the correction stays in range, so nothing wraps.
   */
  lemma {:induction false} ModuloLaw(a: i64, b: i64)
    requires b != 0
    ensures var r := Modulo(a, b);
      I64_MIN <= r <= I64_MAX && Abs(r) < Abs(b) && (r != 0 ==> (r < 0 <==> b < 0)) && Divides(b, a - r)
  {
    QuotientRemainder(a, b);
    var q: int, r: int := TruncatingDiv(a, b), TruncatingRem(a, b);
    if a == I64_MIN && b == -1 {
      assert a - Modulo(a, b) == -I64_MIN * b;
    } else if Modulo(a, b) == r {
      assert a - r == q * b;
    } else {
      assert a - (r + b) == (q - 1) * b by {
        assert (q - 1) * b == q * b - b;
      }
    }
  }

  // ----- variadic division -----

  datatype DivError = NoArguments | DivisionByZero

  /** Floating-point division, which this model leaves open. */
  datatype Floats<!F> = Floats(ofInts: (int, int) -> F, byInt: (F, int) -> F)

  datatype Number<F> = Exact(n: i64) | Inexact(f: F)

  function Product(ds: seq<int>): int {
    if ds == [] then 1 else ds[0] * Product(ds[1..])
  }

  /** One exact step: none if it leaves a remainder. */
  function Step(acc: i64, d: i64): Option<i64>
    requires d != 0
  {
    if TruncatingRem(acc, d) == 0 then Some(TruncatingDiv(acc, d)) else None
  }

  function Steps(acc: i64, ds: seq<i64>): Option<i64>
    requires 0 !in ds
    decreases |ds|
  {
    if ds == [] then Some(acc)
    else
      hide Step;
      assert ds[0] in ds && forall d :: d in ds[1..] ==> d in ds;
      var n := Step(acc, ds[0]);
      if n.Some? then Steps(n.value, ds[1..]) else None
  }

  lemma {:induction false} StepExact(acc: i64, d: i64)
    requires d != 0
    ensures Step(acc, d).Some? <==> Divides(d, acc)
    ensures Step(acc, d).Some? ==>
      (Step(acc, d).value * d == acc || (acc == I64_MIN && d == -1 && Step(acc, d).value == acc))
  {
    hide TruncatingDiv, TruncatingRem;
    QuotientRemainder(acc, d);
    var q, r := TruncatingDiv(acc, d), TruncatingRem(acc, d);
    if acc == I64_MIN && d == -1 {
      assert acc == -I64_MIN * d;
    } else if r == 0 {
      assert acc == q * d;
    } else if Divides(d, acc) {
      var k: int :| acc == k * d;
      assert (k - q) * d == r by {
        assert (k - q) * d == k * d - q * d;
      }
      SmallMultiple(k - q, d, r);
    }
  }

  lemma {:induction false} SmallMultiple(k: int, d: int, r: int)
    requires k * d == r && Abs(r) < Abs(d)
    ensures r == 0
  {
    if k > 0 {
      MulAtLeast(Abs(d), k);
      Signs(k, d);
    } else if k < 0 {
      MulAtLeast(Abs(d), -k);
      Signs(k, d);
    }
  }

  lemma {:induction false} Signs(k: int, d: int)
    ensures Abs(k * d) == Abs(d) * Abs(k)
  {
    if d >= 0 && k < 0 {
      assert k * d == -((-k) * d);
    } else if d < 0 && k >= 0 {
      assert k * d == -(k * (-d));
    } else if d < 0 {
      assert k * d == (-k) * (-d);
    }
  }

  /** `d * p` divides what `d` divides just when `p` divides the quotient. */
  lemma {:induction false} DividesProduct(a: int, d: int, p: int, q: int)
    requires d != 0 && a == q * d
    ensures Divides(d * p, a) <==> Divides(p, q)
  {
    if Divides(d * p, a) {
      var k: int :| a == k * (d * p);
      assert k * (d * p) == (k * p) * d;
      assert q == k * p by {
        Cancel(q, k * p, d);
      }
    }
    if Divides(p, q) {
      var k: int :| q == k * p;
      assert (k * p) * d == k * (d * p);
    }
  }

  lemma {:induction false} Cancel(x: int, y: int, d: int)
    requires d != 0 && x * d == y * d
    ensures x == y
  {
    assert (x - y) * d == 0;
  }

  lemma {:induction false} DividesDown(d: int, p: int, a: int)
    requires Divides(d * p, a)
    ensures Divides(d, a)
  {
    var k: int :| a == k * (d * p);
    assert a == (k * p) * d;
  }

  lemma {:induction false} DividesNegated(d: int, a: int)
    ensures Divides(d, -a) <==> Divides(d, a)
  {
    if Divides(d, a) {
      var k: int :| a == k * d;
      assert -a == (-k) * d;
    }
    if Divides(d, -a) {
      var k: int :| -a == k * d;
      assert a == (-k) * d;
    }
  }

  /** Every step is exact just when the product of the divisors divides the first number. */
  lemma {:induction false} StepsExact(acc: i64, ds: seq<i64>)
    requires 0 !in ds
    ensures Steps(acc, ds).Some? <==> Divides(Product(ds), acc)
    ensures Steps(acc, ds).Some? ==> Divides(TWO64, Steps(acc, ds).value * Product(ds) - acc)
    decreases |ds|
  {
    if ds == [] {
      assert acc == acc * 1 && 0 == 0 * TWO64;
    } else {
      assert ds[0] in ds && forall d :: d in ds[1..] ==> d in ds;
      var d, p := ds[0], Product(ds[1..]);
      StepExact(acc, d);
      if Step(acc, d).None? {
        if Divides(d * p, acc) {
          DividesDown(d, p, acc);
        }
      } else {
        var n := Step(acc, d).value;
        StepsExact(n, ds[1..]);
        if n * d == acc {
          DividesProduct(acc, d, p, n);
        } else {
          var m: int := -I64_MIN;
          assert acc == m * d;
          DividesProduct(acc, d, p, m);
          DividesNegated(p, n);
        }
        if Steps(n, ds[1..]).Some? {
          ProductCongruent(acc, d, p, n, Steps(n, ds[1..]).value);
        }
      }
    }
  }

  lemma {:induction false} ProductCongruent(acc: i64, d: i64, p: int, n: i64, m: i64)
    requires n * d == acc || (acc == I64_MIN && d == -1 && n == acc)
    requires Divides(TWO64, m * p - n)
    ensures Divides(TWO64, m * (d * p) - acc)
  {
    var k: int :| m * p - n == k * TWO64;
    assert m * (d * p) == (m * p) * d;
    assert (m * p) * d == (n + k * TWO64) * d;
    if n * d == acc {
      assert m * (d * p) - acc == (k * d) * TWO64;
    } else {
      assert m * (d * p) - acc == (k * d) * TWO64 + TWO64;
      assert (k * d) * TWO64 + TWO64 == (k * d + 1) * TWO64;
    }
  }

  /** One turn of the division loop: the next divisor, and what is left to divide by. */
  lemma {:induction false} NextDivisor(acc: i64, ds: seq<i64>, i: nat)
    requires i < |ds|
    ensures ds[..i + 1] == ds[..i] + [ds[i]] && ds[i] in ds
    ensures 0 !in ds ==>
      Steps(acc, ds[i..])
      == if TruncatingRem(acc, ds[i]) == 0 then Steps(TruncatingDiv(acc, ds[i]), ds[i + 1..]) else None
  {
    hide TruncatingRem, TruncatingDiv;
    assert ds[i..][0] == ds[i] && ds[i..][1..] == ds[i + 1..];
  }

  /** Float division by each divisor in turn. */
  function Folded<F>(fp: Floats<F>, f: F, ds: seq<i64>): F {
    if ds == [] then f else fp.byInt(Folded(fp, f, ds[..|ds| - 1]), ds[|ds| - 1])
  }

  /** The division of the first `n` divisors left the integers at divisor `k`, the first to leave a remainder. */
  ghost predicate LeavesAt<F(!new)>(fp: Floats<F>, first: i64, ds: seq<i64>, k: nat, n: nat, f: F) {
    k < n <= |ds| && 0 !in ds[..k] && ds[k] != 0
    && var acc := Steps(first, ds[..k]);
       acc.Some? && !Divides(ds[k], acc.value)
       && f == Folded(fp, fp.ofInts(acc.value, ds[k]), ds[k + 1..n])
  }

  lemma {:induction false} StepsNext(acc: i64, ds: seq<i64>, d: i64)
    requires 0 !in ds && d != 0
    ensures 0 !in ds + [d]
    ensures Steps(acc, ds + [d]) == if Steps(acc, ds).Some? then Step(Steps(acc, ds).value, d) else None
    decreases |ds|
  {
    hide Step;
    var all := ds + [d];
    if ds == [] {
      assert all[1..] == [] && all == [d];
    } else {
      assert all[0] == ds[0] && all[1..] == ds[1..] + [d];
      if Step(acc, ds[0]).Some? {
        StepsNext(Step(acc, ds[0]).value, ds[1..], d);
      }
    }
  }

  /** The step that leaves the integers. */
  lemma {:induction false} Leaves<F(!new)>(fp: Floats<F>, first: i64, ds: seq<i64>, k: nat)
    requires k < |ds| && 0 !in ds[..k] && ds[k] != 0 && Steps(first, ds[..k]).Some?
    requires TruncatingRem(Steps(first, ds[..k]).value, ds[k]) != 0
    ensures LeavesAt(fp, first, ds, k, k + 1, fp.ofInts(Steps(first, ds[..k]).value, ds[k]))
  {
    hide TruncatingRem, TruncatingDiv;
    StepExact(Steps(first, ds[..k]).value, ds[k]);
    assert ds[k + 1..k + 1] == [];
  }

  lemma {:induction false} LeavesOn<F(!new)>(fp: Floats<F>, first: i64, ds: seq<i64>, k: nat, n: nat, f: F)
    requires n < |ds| && LeavesAt(fp, first, ds, k, n, f)
    ensures LeavesAt(fp, first, ds, k, n + 1, fp.byInt(f, ds[n]))
  {
    hide Steps;
    var more := ds[k + 1..n + 1];
    assert more[..|more| - 1] == ds[k + 1..n] && more[|more| - 1] == ds[n];
  }

  /**
   `/` on integers: an exact zero among the divisors is an error whatever comes before
   it; the result is an integer exactly when the product of the divisors divides the
   first number, and then times that product it is the first number modulo 2^64.
   Otherwise it is the float division by all divisors from the first that leaves a
   remainder on.  A single argument is divided into 1.
   */
  method NativeDivide<F(!new)>(fp: Floats<F>, ints: seq<i64>) returns (r: Result<Number<F>, DivError>)
    ensures ints == [] ==> r == Err(NoArguments)
    ensures ints != [] ==>
      var first: int, ds := if |ints| == 1 then 1 else ints[0], if |ints| == 1 then ints else ints[1..];
      (r == Err(DivisionByZero) <==> 0 in ds)
      && (r.Ok? && r.value.Exact? <==> 0 !in ds && Divides(Product(ds), first))
      && (r.Ok? && r.value.Exact? ==> Divides(TWO64, r.value.n * Product(ds) - first))
      && (r.Ok? && r.value.Inexact? ==> exists k: nat :: LeavesAt(fp, first, ds, k, |ds|, r.value.f))
  {
    if ints == [] {
      return Err(NoArguments);
    }
    var acc: i64 := if |ints| == 1 then 1 else ints[0];
    var ds := if |ints| == 1 then ints else ints[1..];
    ghost var first, k: nat := acc, 0;
    var inexact: Option<F> := None;
    for i := 0 to |ds|
      invariant 0 !in ds[..i]
      invariant 0 !in ds ==> Steps(first, ds) == if inexact.Some? then None else Steps(acc, ds[i..])
      invariant inexact.None? ==> Steps(first, ds[..i]) == Some(acc)
      invariant inexact.Some? ==> LeavesAt(fp, first, ds, k, i, inexact.value)
    {
      hide LeavesAt, Steps, TruncatingRem, TruncatingDiv;
      var d := ds[i];
      NextDivisor(acc, ds, i);
      if d == 0 {
        return Err(DivisionByZero);
      }
      if inexact.Some? {
        LeavesOn(fp, first, ds, k, i, inexact.value);
        inexact := Some(fp.byInt(inexact.value, d));
      } else if TruncatingRem(acc, d) == 0 {
        StepsNext(first, ds[..i], d);
        acc := TruncatingDiv(acc, d);
      } else {
        Leaves(fp, first, ds, i);
        k := i;
        inexact := Some(fp.ofInts(acc, d));
      }
    }
    assert ds[..|ds|] == ds && ds[|ds|..] == [];
    StepsExact(first, ds);
    r := Ok(if inexact.Some? then Inexact(inexact.value) else Exact(acc));
  }
}
