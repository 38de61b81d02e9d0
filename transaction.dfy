/**
 * The ledger's transaction record (`Transaction` in Login.java).
 *
 * The Java constructor reads the wall clock and a `java.util.Random`; both are
 * outside the model, so their readings arrive as a `Stamp`: the formatted date
 * and the integer drawn by `nextInt(100000)`. What the model does define is how
 * the draw becomes the identifier text (`String.valueOf`).
 */
module Transactions {

  /** The values `Random.nextInt(100000)` can return. */
  type Draw = n: int | 0 <= n < 100000

  /** What the environment supplies when a transaction is created. */
  datatype Stamp = Stamp(date: string, draw: Draw)

  datatype Transaction = Transaction(date: string, transactionId: string, amount: real, description: string)

  predicate IsDigit(c: char) {
    '0' <= c <= '9'
  }

  predicate AllDigits(s: string) {
    forall i | 0 <= i < |s| :: IsDigit(s[i])
  }

  /** Canonical decimal text: at least one digit, no leading zero unless it is "0". */
  predicate IsDecimal(s: string) {
    |s| >= 1 && AllDigits(s) && (s[0] == '0' ==> |s| == 1)
  }

  function DigitChar(d: int): (c: char)
    requires 0 <= d < 10
    ensures IsDigit(c) && c as int - '0' as int == d
  {
    ('0' as int + d) as char
  }

  /** `String.valueOf(n)` for a non-negative `int`: canonical decimal text. */
  function DecimalText(n: nat): (s: string)
    ensures IsDecimal(s)
    decreases n
  {
    if n < 10 then [DigitChar(n)] else DecimalText(n / 10) + [DigitChar(n % 10)]
  }

  /** The number a string of digits denotes (the reading of `Integer.parseInt` on such text). */
  function DecimalValue(s: string): nat
    requires AllDigits(s)
  {
    if s == [] then 0
    else 10 * DecimalValue(s[..|s| - 1]) + (s[|s| - 1] as int - '0' as int)
  }

  function Pow10(k: nat): (r: nat)
    ensures r >= 1
  {
    if k == 0 then 1 else 10 * Pow10(k - 1)
  }

  /** The decimal text of `n` denotes `n`. */
  lemma {:induction false} DecimalRoundTrip(n: nat)
    ensures DecimalValue(DecimalText(n)) == n
    decreases n
  {
    if n >= 10 {
      DecimalRoundTrip(n / 10);
      var s := DecimalText(n);
      var p := DecimalText(n / 10);
      assert s == p + [DigitChar(n % 10)];
      assert s[..|s| - 1] == p;
    }
  }

  /** A number below 10^k has at most k digits. */
  lemma {:induction false} DecimalLength(n: nat, k: nat)
    requires k >= 1 && n < Pow10(k)
    ensures |DecimalText(n)| <= k
    decreases n
  {
    if n >= 10 {
      assert k >= 2;
      assert n / 10 < Pow10(k - 1);
      DecimalLength(n / 10, k - 1);
    }
  }

  /** `generateTransactionId`: the draw written in decimal; one to five digits that read back as the draw. */
  function TransactionId(draw: Draw): (id: string)
    ensures IsDecimal(id) && |id| <= 5
    ensures DecimalValue(id) == draw
  {
    DecimalRoundTrip(draw);
    assert Pow10(5) == 100000;
    DecimalLength(draw, 5);
    DecimalText(draw)
  }

  /**
   * Two transactions get the same identifier exactly when the random draws were equal:
   * identifiers are only as unique as the draws.
   */
  lemma TransactionIdCollision(a: Draw, b: Draw)
    ensures TransactionId(a) == TransactionId(b) <==> a == b
  {
  }

  /**
   * The `Transaction(amount, description)` constructor: the amount and the
   * description are stored as given, with no validation of sign or wording;
   * the date and identifier come from the stamp.
   */
  function NewTransaction(amount: real, description: string, stamp: Stamp): (t: Transaction)
    ensures t.amount == amount && t.description == description
    ensures t.date == stamp.date
    ensures IsDecimal(t.transactionId) && DecimalValue(t.transactionId) == stamp.draw
  {
    Transaction(stamp.date, TransactionId(stamp.draw), amount, description)
  }
}
