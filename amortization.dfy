/**
 * The monthly-payment rule of `LoanMortgageAccount` (Login.java).
 *
 * The Java code evaluates the amortising-loan formula in `double`. The model
 * evaluates it exactly over `real`, and where the Java division meets a zero
 * denominator it yields the IEEE 754 value Java produces there: a positive or
 * negative infinity, or NaN for 0/0 and infinity/infinity.
 */
module Amortization {

  /** A `double` result of the formula: a finite value or an IEEE 754 special value. */
  datatype Quantity = Finite(value: real) | PositiveInfinity | NegativeInfinity | NotANumber

  function Pow(b: real, n: nat): (r: real)
    ensures b != 0.0 ==> r != 0.0
    ensures b >= 0.0 ==> r >= 0.0
  {
    if n == 0 then 1.0 else b * Pow(b, n - 1)
  }

  function Abs(x: real): real {
    if x < 0.0 then -x else x
  }

  /**
   * `(1 + r)^n` is exactly 1, so that the denominator of the formula is zero:
   * a zero term, a zero rate, or a monthly factor of -1 raised to an even power.
   */
  predicate PowerIsOne(interestRate: real, loanTermMonths: int) {
    loanTermMonths == 0 || interestRate == 0.0 || (interestRate == -24.0 && loanTermMonths % 2 == 0)
  }

  /** `(1 + r)^n` is `Math.pow(0.0, negative)`, an infinity. */
  predicate PowerIsInfinite(interestRate: real, loanTermMonths: int) {
    interestRate == -12.0 && loanTermMonths < 0
  }

  /** `loanAmount * interestRate / 12`: one month's interest on the outstanding loan. */
  function MonthlyInterest(loanAmount: real, interestRate: real): (interest: real)
    ensures interest == 0.0 <==> loanAmount == 0.0 || interestRate == 0.0
    ensures interest > 0.0 <==> (loanAmount > 0.0 && interestRate > 0.0) || (loanAmount < 0.0 && interestRate < 0.0)
  {
    var product := loanAmount * interestRate;
    assert loanAmount > 0.0 && interestRate > 0.0 ==> product > 0.0;
    assert loanAmount < 0.0 && interestRate < 0.0 ==> product > 0.0;
    assert loanAmount > 0.0 && interestRate < 0.0 ==> product < 0.0;
    assert loanAmount < 0.0 && interestRate > 0.0 ==> product < 0.0;
    product / 12.0
  }

  /**
   * `calculateMonthlyPayment`: `P * r * (1 + r)^n / ((1 + r)^n - 1)` with `r` the
   * annual rate over 12 and `n` the term in months (`Math.pow` accepts a negative `n`).
   * The result is finite unless the power is exactly 1 or infinite; when it is 1
   * the division is by zero and gives an infinity with the sign of one month's
   * interest, or NaN when that interest is zero; when it is infinite the result is NaN.
   */
  function MonthlyPayment(loanAmount: real, interestRate: real, loanTermMonths: int): (due: Quantity)
    ensures due.Finite? <==> !PowerIsOne(interestRate, loanTermMonths) && !PowerIsInfinite(interestRate, loanTermMonths)
    ensures due == PositiveInfinity <==> PowerIsOne(interestRate, loanTermMonths) && MonthlyInterest(loanAmount, interestRate) > 0.0
    ensures due == NegativeInfinity <==> PowerIsOne(interestRate, loanTermMonths) && MonthlyInterest(loanAmount, interestRate) < 0.0
  {
    var monthlyRate := interestRate / 12.0;
    var base := 1.0 + monthlyRate;
    var exponent := if loanTermMonths >= 0 then loanTermMonths else -loanTermMonths;
    PowIsOne(base, exponent);
    assert exponent % 2 == loanTermMonths % 2;
    if loanTermMonths < 0 && base == 0.0 then
      // Math.pow(0.0, negative) is +infinity; the quotient is then infinity over infinity, or NaN already.
      NotANumber
    else
      var power := if loanTermMonths >= 0 then Pow(base, loanTermMonths) else 1.0 / Pow(base, -loanTermMonths);
      assert power == 1.0 <==> Pow(base, exponent) == 1.0;
      var numerator := loanAmount * monthlyRate * power;
      assert power == 1.0 ==> numerator == MonthlyInterest(loanAmount, interestRate);
      if power == 1.0 then
        (if numerator > 0.0 then PositiveInfinity else if numerator < 0.0 then NegativeInfinity else NotANumber)
      else
        Finite(numerator / (power - 1.0))
  }

  /** Java's `paymentAmount >= monthlyPayment` for a finite payment, where NaN compares false. */
  predicate Covers(payment: real, due: Quantity) {
    match due
    case Finite(v) => payment >= v
    case PositiveInfinity => false
    case NegativeInfinity => true
    case NotANumber => false
  }

  /**
   * `loanAmount -= (paymentAmount - monthlyInterest)`, with the interest taken on
   * the loan before the payment: the loan shrinks exactly when the payment
   * exceeds that interest, and paying the loan plus the interest clears it.
   */
  function LoanAfterPayment(loanAmount: real, interestRate: real, payment: real): (remaining: real)
    ensures remaining < loanAmount <==> payment > MonthlyInterest(loanAmount, interestRate)
    ensures remaining == loanAmount <==> payment == MonthlyInterest(loanAmount, interestRate)
    ensures payment == loanAmount + MonthlyInterest(loanAmount, interestRate) ==> remaining == 0.0
  {
    loanAmount - (payment - MonthlyInterest(loanAmount, interestRate))
  }

  /** "Pay at least the monthly payment": a larger payment is accepted whenever a smaller one is. */
  lemma CoversMonotone(payment: real, larger: real, due: Quantity)
    requires Covers(payment, due) && payment <= larger
    ensures Covers(larger, due)
  {
  }

  lemma {:induction false} PowAboveOne(b: real, n: nat)
    requires b > 1.0 && n >= 1
    ensures Pow(b, n) > 1.0
  {
    if n > 1 {
      PowAboveOne(b, n - 1);
      var x := Pow(b, n - 1);
      assert b * x > 1.0 * x;
    }
  }

  lemma {:induction false} PowBelowOne(a: real, n: nat)
    requires 0.0 <= a < 1.0 && n >= 1
    ensures Pow(a, n) < 1.0
  {
    if n > 1 {
      PowBelowOne(a, n - 1);
      var x := Pow(a, n - 1);
      assert a * x <= 1.0 * x;
    }
  }

  lemma {:induction false} PowOfOne(n: nat)
    ensures Pow(1.0, n) == 1.0
  {
    if n > 0 {
      PowOfOne(n - 1);
    }
  }

  lemma {:induction false} PowOfMinusOne(n: nat)
    ensures Pow(-1.0, n) == if n % 2 == 0 then 1.0 else -1.0
  {
    if n > 0 {
      PowOfMinusOne(n - 1);
    }
  }

  lemma {:induction false} PowAbs(b: real, n: nat)
    ensures Abs(Pow(b, n)) == Pow(Abs(b), n)
  {
    if n > 0 {
      PowAbs(b, n - 1);
      var x := Pow(b, n - 1);
      if b < 0.0 {
        if x < 0.0 { assert b * x == (-b) * (-x); } else { assert -(b * x) == (-b) * x; }
      } else {
        if x < 0.0 { assert -(b * x) == b * (-x); }
      }
    }
  }

  /** A power is exactly 1 only for a zero exponent, a base of 1, or a base of -1 raised to an even power. */
  lemma PowIsOne(b: real, n: nat)
    ensures Pow(b, n) == 1.0 <==> n == 0 || b == 1.0 || (b == -1.0 && n % 2 == 0)
  {
    if n == 0 {
    } else if b == 1.0 {
      PowOfOne(n);
    } else if b == -1.0 {
      PowOfMinusOne(n);
    } else {
      PowAbs(b, n);
      if Abs(b) > 1.0 {
        PowAboveOne(Abs(b), n);
      } else {
        PowBelowOne(Abs(b), n);
      }
    }
  }

  /**
   * For a positive loan at a positive rate over at least one month, the payment
   * due is finite and larger than one month's interest.
   */
  lemma PaymentExceedsInterest(loanAmount: real, interestRate: real, loanTermMonths: int)
    requires loanAmount > 0.0 && interestRate > 0.0 && loanTermMonths >= 1
    ensures MonthlyPayment(loanAmount, interestRate, loanTermMonths).Finite?
    ensures MonthlyPayment(loanAmount, interestRate, loanTermMonths).value > MonthlyInterest(loanAmount, interestRate)
  {
    var r := interestRate / 12.0;
    var x := Pow(1.0 + r, loanTermMonths);
    PowAboveOne(1.0 + r, loanTermMonths);
    var i := loanAmount * r;
    assert i > 0.0;
    assert MonthlyInterest(loanAmount, interestRate) == i;
    assert i * x / (x - 1.0) == i + i / (x - 1.0);
    assert i / (x - 1.0) > 0.0;
  }

  /** Under those conditions an accepted payment strictly reduces the outstanding loan. */
  lemma AcceptedPaymentReducesLoan(loanAmount: real, interestRate: real, loanTermMonths: int, payment: real)
    requires loanAmount > 0.0 && interestRate > 0.0 && loanTermMonths >= 1
    requires Covers(payment, MonthlyPayment(loanAmount, interestRate, loanTermMonths))
    ensures LoanAfterPayment(loanAmount, interestRate, payment) < loanAmount
  {
    PaymentExceedsInterest(loanAmount, interestRate, loanTermMonths);
  }

  /**
   * With a one-month term the payment due is the loan plus one month's interest,
   * and paying exactly that leaves nothing outstanding.
   */
  lemma LastMonthClearsLoan(loanAmount: real, interestRate: real)
    requires interestRate != 0.0
    ensures MonthlyPayment(loanAmount, interestRate, 1) == Finite(loanAmount + MonthlyInterest(loanAmount, interestRate))
    ensures LoanAfterPayment(loanAmount, interestRate, loanAmount + MonthlyInterest(loanAmount, interestRate)) == 0.0
  {
    var r := interestRate / 12.0;
    var b := 1.0 + r;
    assert Pow(b, 0) == 1.0 && Pow(b, 1) == b * Pow(b, 0);
    assert Pow(b, 1) == b && b != 1.0 && b - 1.0 == r;
    FiniteAmountDue(loanAmount, interestRate, 1);
    assert (loanAmount * r * b) / r == loanAmount * b;
    assert loanAmount * b == loanAmount + loanAmount * r;
    assert MonthlyInterest(loanAmount, interestRate) == loanAmount * r;
  }

  /** For a non-negative term whose power is not 1, the amount due is the formula's finite value. */
  lemma FiniteAmountDue(loanAmount: real, interestRate: real, loanTermMonths: nat)
    requires Pow(1.0 + interestRate / 12.0, loanTermMonths) != 1.0
    ensures var power := Pow(1.0 + interestRate / 12.0, loanTermMonths);
      MonthlyPayment(loanAmount, interestRate, loanTermMonths) == Finite(loanAmount * (interestRate / 12.0) * power / (power - 1.0))
  {
  }

  /**
   * At a zero interest rate the formula is 0/0, so no payment is ever accepted,
   * whatever the loan and the term.
   */
  lemma InterestFreeLoanDeclinesEveryPayment(loanAmount: real, loanTermMonths: int, payment: real)
    ensures !Covers(payment, MonthlyPayment(loanAmount, 0.0, loanTermMonths))
  {
    if loanTermMonths >= 0 {
      PowOfOne(loanTermMonths);
    } else {
      PowOfOne(-loanTermMonths);
    }
  }

  /**
   * With a zero term `(1 + r)^0 - 1` is zero: the payment due is an infinity whose
   * sign is that of the first month's interest (NaN when it is zero), so every
   * payment is accepted when that interest is negative and none otherwise.
   */
  lemma ZeroTermLoan(loanAmount: real, interestRate: real, payment: real)
    ensures Covers(payment, MonthlyPayment(loanAmount, interestRate, 0)) <==> MonthlyInterest(loanAmount, interestRate) < 0.0
  {
  }
}
