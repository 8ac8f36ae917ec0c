/**
 * The iteration control of the two scalar solvers of src/optimize.py. The function and its derivative
 * are parameters; numbers are exact reals. Nothing here claims convergence: the contracts are about
 * the loop's bookkeeping, its exit condition and its update rule.
 */
module Optimize {
  import opened Outcomes
  import opened Numbers

  function Max(a: int, b: int): int
  {
    if a < b then b else a
  }

  // ---------------------------------------------------------------------------
  // NewtonMethod
  // ---------------------------------------------------------------------------

  /**
   * The point after n Newton updates x := x − f(x)/df(x) from xini; an update at a point where
   * the derivative is zero fails with a division by zero, and a failure stays a failure.
   */
  function NewtonIterate(f: real -> real, df: real -> real, xini: real, n: nat): (r: Result<real>)
    ensures r.Failure? ==> r.error == DivisionByZero
  {
    if n == 0 then Success(xini)
    else
      match NewtonIterate(f, df, xini, n - 1)
      case Failure(e) => Failure(e)
      case Success(x) => if df(x) == 0.0 then Failure(DivisionByZero) else Success(x - f(x) / df(x))
  }

  /** The loop guard: the residual is not yet within tolerance and iterations remain. */
  predicate NewtonContinues(f: real -> real, x: real, toler: real, itr: int, itrLim: int)
  {
    Abs(f(x)) >= toler && itr < itrLim
  }

  /**
   * Runs Newton updates while the guard holds. The ghost `attempts` is the number of updates
   * tried: all but possibly the last succeeded, and the last fails only at a zero derivative.
   */
  method NewtonMethod(f: real -> real, df: real -> real, xini: real, toler: real, itrLim: int)
    returns (result: Result<real>, ghost attempts: nat)
    ensures attempts <= Max(itrLim, 0)
    ensures result == NewtonIterate(f, df, xini, attempts)
    ensures forall k :: 0 <= k < attempts ==>
      NewtonIterate(f, df, xini, k).Success? && NewtonContinues(f, NewtonIterate(f, df, xini, k).value, toler, k, itrLim)
    ensures result.Success? ==> Abs(f(result.value)) < toler || attempts >= itrLim
    ensures result.Failure? ==> result.error == DivisionByZero
    ensures Abs(f(xini)) < toler || itrLim <= 0 ==> result == Success(xini) && attempts == 0
  {
    var itr := 0;
    var x := xini;
    while Abs(f(x)) >= toler && itr < itrLim
      invariant 0 <= itr <= Max(itrLim, 0)
      invariant NewtonIterate(f, df, xini, itr) == Success(x)
      invariant forall k :: 0 <= k < itr ==>
        NewtonIterate(f, df, xini, k).Success? && NewtonContinues(f, NewtonIterate(f, df, xini, k).value, toler, k, itrLim)
      decreases itrLim - itr
    {
      if df(x) == 0.0 {
        return Failure(DivisionByZero), itr + 1;
      }
      x := x - f(x) / df(x);
      itr := itr + 1;
    }
    return Success(x), itr;
  }

  /** Running n + m updates is running m updates from the point reached after n. */
  lemma {:induction false} NewtonIterateCompose(f: real -> real, df: real -> real, xini: real, n: nat, m: nat)
    requires NewtonIterate(f, df, xini, n).Success?
    ensures NewtonIterate(f, df, xini, n + m) == NewtonIterate(f, df, NewtonIterate(f, df, xini, n).value, m)
  {
    if m > 0 {
      NewtonIterateCompose(f, df, xini, n, m - 1);
    }
  }

  /** A failed update is never recovered from. */
  lemma {:induction false} NewtonFailureSticks(f: real -> real, df: real -> real, xini: real, n: nat, m: nat)
    requires NewtonIterate(f, df, xini, n).Failure?
    ensures NewtonIterate(f, df, xini, n + m).Failure?
  {
    if m > 0 {
      NewtonFailureSticks(f, df, xini, n, m - 1);
    }
  }

  /** An exact root with a non-zero derivative is a fixed point of the update. */
  lemma {:induction false} NewtonRootIsFixed(f: real -> real, df: real -> real, xini: real, m: nat)
    requires f(xini) == 0.0 && df(xini) != 0.0
    ensures NewtonIterate(f, df, xini, m) == Success(xini)
  {
    if m > 0 {
      NewtonRootIsFixed(f, df, xini, m - 1);
    }
  }

  /** On f(x) = x² − 4 from 1 the first two updates reach 2.5 and then 2.05, approaching the root 2. */
  lemma NewtonExample()
    ensures NewtonIterate(x => x * x - 4.0, x => 2.0 * x, 1.0, 1) == Success(2.5)
    ensures NewtonIterate(x => x * x - 4.0, x => 2.0 * x, 1.0, 2) == Success(2.05)
  {
  }

  // ---------------------------------------------------------------------------
  // GradientDescent
  // ---------------------------------------------------------------------------

  /** The point after n updates x := x − alpha·df(x) from xini. */
  function DescentIterate(df: real -> real, alpha: real, xini: real, n: nat): real
  {
    if n == 0 then xini
    else
      var x := DescentIterate(df, alpha, xini, n - 1);
      x - alpha * df(x)
  }

  /**
   * Runs descent updates while the gradient is not within tolerance and iterations remain. The ghost
   * `updates` is the number of updates made. The objective f takes no part in the computation.
   */
  method GradientDescent(f: real -> real, df: real -> real, xini: real, alpha: real, toler: real, itrLim: int)
    returns (x: real, ghost updates: nat)
    ensures updates <= Max(itrLim, 0)
    ensures x == DescentIterate(df, alpha, xini, updates)
    ensures forall k :: 0 <= k < updates ==> Abs(df(DescentIterate(df, alpha, xini, k))) >= toler
    ensures Abs(df(x)) < toler || updates >= itrLim
    ensures Abs(df(xini)) < toler || itrLim <= 0 ==> x == xini && updates == 0
    ensures alpha == 0.0 ==> x == xini
  {
    var itr := 0;
    x := xini;
    while Abs(df(x)) >= toler && itr < itrLim
      invariant 0 <= itr <= Max(itrLim, 0)
      invariant x == DescentIterate(df, alpha, xini, itr)
      invariant forall k :: 0 <= k < itr ==> Abs(df(DescentIterate(df, alpha, xini, k))) >= toler
      decreases itrLim - itr
    {
      x := x - alpha * df(x);
      itr := itr + 1;
    }
    updates := itr;
    if alpha == 0.0 {
      DescentZeroStepStays(df, xini, itr);
    }
  }

  /** A zero step size never moves the point. */
  lemma {:induction false} DescentZeroStepStays(df: real -> real, xini: real, n: nat)
    ensures DescentIterate(df, 0.0, xini, n) == xini
  {
    if n > 0 {
      DescentZeroStepStays(df, xini, n - 1);
    }
  }

  /** Once a stationary point (zero gradient) is reached, the iterates stay there. */
  lemma {:induction false} DescentStationaryStays(df: real -> real, alpha: real, xini: real, n: nat, m: nat)
    requires df(DescentIterate(df, alpha, xini, n)) == 0.0
    ensures DescentIterate(df, alpha, xini, n + m) == DescentIterate(df, alpha, xini, n)
  {
    if m > 0 {
      DescentStationaryStays(df, alpha, xini, n, m - 1);
    }
  }

  function Pow(b: real, n: nat): real
  {
    if n == 0 then 1.0 else b * Pow(b, n - 1)
  }

  /** On f(x) = x² (gradient 2x) from −1 with step 0.1, every update scales the point by 0.8 towards 0. */
  lemma {:induction false} DescentOnParabola(n: nat)
    ensures DescentIterate(x => 2.0 * x, 0.1, -1.0, n) == -Pow(0.8, n)
  {
    if n > 0 {
      DescentOnParabola(n - 1);
    }
  }
}
