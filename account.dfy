/**
 * `BankAccount` and its three subclasses in Login.java, as one class whose
 * `kind` selects the withdrawal policy. `Basic` is a plain `BankAccount`, which
 * Java allows to be instantiated directly.
 *
 * The object invariant `Valid` ties the balance to the history: replaying the
 * recorded transactions from zero gives the balance, so every change of the
 * balance is logged and nothing else is.
 */
module Accounts {
  import opened Transactions
  import opened Amortization

  datatype Kind =
    | Basic
    | Savings(interestRate: real)
    | Checking(overdraftLimit: real)
    | LoanMortgage(loanAmount: real, interestRate: real, loanTermMonths: int)

  // The descriptions the Java code writes, spelled as it spells them.
  const InitialLabel: string := "Initial Transaction"
  const DepositLabel: string := "Deposit"
  const WithdrawalLabel: string := "Withdrawl"
  const CheckingWithdrawalLabel: string := "Withdraw"
  const LoanPaymentLabel: string := "Loan Payment"

  /** What a recorded transaction did to the balance: opening amounts and deposits add, the rest subtract. */
  function Effect(t: Transaction): real {
    if t.description == InitialLabel || t.description == DepositLabel then t.amount else -t.amount
  }

  /** The balance obtained by replaying a history from zero. */
  function Replay(history: seq<Transaction>): real {
    if history == [] then 0.0 else Effect(history[0]) + Replay(history[1..])
  }

  lemma {:induction false} ReplayAppend(history: seq<Transaction>, t: Transaction)
    ensures Replay(history + [t]) == Replay(history) + Effect(t)
  {
    if history == [] {
      assert [] + [t] == [t];
      assert [t][1..] == [];
    } else {
      assert (history + [t])[1..] == history[1..] + [t];
      ReplayAppend(history[1..], t);
    }
  }

  /** The descriptions each variant can record. */
  predicate Permitted(kind: Kind, description: string) {
    match kind
    case Basic => description in {InitialLabel, DepositLabel, WithdrawalLabel}
    case Savings(_) => description in {InitialLabel, DepositLabel, WithdrawalLabel}
    case Checking(_) => description in {InitialLabel, DepositLabel, CheckingWithdrawalLabel}
    case LoanMortgage(_, _, _) => description in {DepositLabel, LoanPaymentLabel}
  }

  class Account {
    const accountNumber: int
    const accountHolder: string
    var balance: real
    var history: seq<Transaction>
    var kind: Kind

    ghost predicate Valid()
      reads this
    {
      && balance == Replay(history)
      && forall i | 0 <= i < |history| :: Permitted(kind, history[i].description)
    }

    /** `BankAccount(accountNumber, accountHolder)`: zero balance, empty history. */
    constructor Init(accountNumber: int, accountHolder: string)
      ensures this.accountNumber == accountNumber && this.accountHolder == accountHolder
      ensures balance == 0.0 && history == [] && kind == Basic
      ensures Valid()
    {
      this.accountNumber := accountNumber;
      this.accountHolder := accountHolder;
      balance := 0.0;
      history := [];
      kind := Basic;
    }

    /** `BankAccount(accountNumber, accountHolder, balance)`: the opening balance is its only transaction. */
    constructor InitFunded(accountNumber: int, accountHolder: string, balance: int, stamp: Stamp)
      ensures this.accountNumber == accountNumber && this.accountHolder == accountHolder
      ensures this.balance == balance as real && kind == Basic
      ensures history == [NewTransaction(balance as real, InitialLabel, stamp)]
      ensures Valid()
    {
      this.accountNumber := accountNumber;
      this.accountHolder := accountHolder;
      this.balance := balance as real;
      history := [NewTransaction(balance as real, InitialLabel, stamp)];
      kind := Basic;
    }

    /** `SavingsAccount(...)`: the funded base constructor plus an interest rate. */
    constructor InitSavings(accountNumber: int, accountHolder: string, balance: int, interestRate: real, stamp: Stamp)
      ensures this.accountNumber == accountNumber && this.accountHolder == accountHolder
      ensures this.balance == balance as real && kind == Savings(interestRate)
      ensures history == [NewTransaction(balance as real, InitialLabel, stamp)]
      ensures Valid()
    {
      this.accountNumber := accountNumber;
      this.accountHolder := accountHolder;
      this.balance := balance as real;
      history := [NewTransaction(balance as real, InitialLabel, stamp)];
      kind := Savings(interestRate);
    }

    /** `CheckingAccount(...)`: the funded base constructor plus an overdraft limit. */
    constructor InitChecking(accountNumber: int, accountHolder: string, balance: int, overdraftLimit: real, stamp: Stamp)
      ensures this.accountNumber == accountNumber && this.accountHolder == accountHolder
      ensures this.balance == balance as real && kind == Checking(overdraftLimit)
      ensures history == [NewTransaction(balance as real, InitialLabel, stamp)]
      ensures Valid()
    {
      this.accountNumber := accountNumber;
      this.accountHolder := accountHolder;
      this.balance := balance as real;
      history := [NewTransaction(balance as real, InitialLabel, stamp)];
      kind := Checking(overdraftLimit);
    }

    /** `LoanMortgageAccount(...)`: the zero-balance base constructor plus the loan's terms. */
    constructor InitLoanMortgage(accountNumber: int, accountHolder: string, loanAmount: real, interestRate: real, loanTermMonths: int)
      ensures this.accountNumber == accountNumber && this.accountHolder == accountHolder
      ensures balance == 0.0 && history == []
      ensures kind == LoanMortgage(loanAmount, interestRate, loanTermMonths)
      ensures Valid()
    {
      this.accountNumber := accountNumber;
      this.accountHolder := accountHolder;
      balance := 0.0;
      history := [];
      kind := LoanMortgage(loanAmount, interestRate, loanTermMonths);
    }

    /** `deposit`: adds the amount, whatever its sign, and logs one "Deposit" entry. */
    method Deposit(amount: real, stamp: Stamp)
      requires Valid()
      modifies this`balance, this`history
      ensures Valid()
      ensures balance == old(balance) + amount
      ensures history == old(history) + [NewTransaction(amount, DepositLabel, stamp)]
    {
      ReplayAppend(history, NewTransaction(amount, DepositLabel, stamp));
      balance := balance + amount;
      history := history + [NewTransaction(amount, DepositLabel, stamp)];
    }

    /**
     * `withdraw`, dispatched on the variant: the base rule (also Savings') allows
     * amounts up to the balance, Checking up to the balance plus the overdraft
     * limit, and a loan account declines every withdrawal. A declined
     * withdrawal changes nothing.
     */
    method Withdraw(amount: real, stamp: Stamp) returns (ok: bool)
      requires Valid()
      modifies this`balance, this`history
      ensures Valid()
      ensures (kind.Basic? || kind.Savings?) ==> (ok <==> amount <= old(balance))
      ensures kind.Checking? ==> (ok <==> amount <= old(balance) + kind.overdraftLimit)
      ensures kind.LoanMortgage? ==> !ok
      ensures ok ==> balance == old(balance) - amount
      ensures ok ==> history == old(history) + [NewTransaction(amount, if kind.Checking? then CheckingWithdrawalLabel else WithdrawalLabel, stamp)]
      ensures !ok ==> balance == old(balance) && history == old(history)
      ensures ok && !kind.Checking? ==> balance >= 0.0
      ensures ok && kind.Checking? ==> balance >= -kind.overdraftLimit
    {
      match kind
      case Basic =>
        ok := WithdrawWithin(amount, balance, WithdrawalLabel, stamp);
      case Savings(_) =>
        ok := WithdrawWithin(amount, balance, WithdrawalLabel, stamp);
      case Checking(overdraftLimit) =>
        ok := WithdrawWithin(amount, balance + overdraftLimit, CheckingWithdrawalLabel, stamp);
      case LoanMortgage(_, _, _) =>
        ok := false;
    }

    /** The shared shape of an accepted-or-declined withdrawal against a threshold. */
    method WithdrawWithin(amount: real, threshold: real, description: string, stamp: Stamp) returns (ok: bool)
      requires Valid() && Permitted(kind, description) && description != InitialLabel && description != DepositLabel
      modifies this`balance, this`history
      ensures Valid()
      ensures ok <==> amount <= threshold
      ensures ok ==> balance == old(balance) - amount && history == old(history) + [NewTransaction(amount, description, stamp)]
      ensures !ok ==> balance == old(balance) && history == old(history)
    {
      ok := amount <= threshold;
      if ok {
        ReplayAppend(history, NewTransaction(amount, description, stamp));
        balance := balance - amount;
        history := history + [NewTransaction(amount, description, stamp)];
      }
    }

    /**
     * `makeLoanPayment`: a payment that covers the monthly payment due is taken
     * from the balance, reduces the loan by its part above one month's interest
     * and is logged as "Loan Payment"; any other payment changes nothing.
     */
    method MakeLoanPayment(payment: real, stamp: Stamp)
      requires Valid() && kind.LoanMortgage?
      modifies this`balance, this`history, this`kind
      ensures Valid() && kind.LoanMortgage?
      ensures kind.interestRate == old(kind.interestRate) && kind.loanTermMonths == old(kind.loanTermMonths)
      ensures Covers(payment, MonthlyPayment(old(kind.loanAmount), old(kind.interestRate), old(kind.loanTermMonths))) ==>
        && balance == old(balance) - payment
        && kind.loanAmount == LoanAfterPayment(old(kind.loanAmount), old(kind.interestRate), payment)
        && history == old(history) + [NewTransaction(payment, LoanPaymentLabel, stamp)]
      ensures !Covers(payment, MonthlyPayment(old(kind.loanAmount), old(kind.interestRate), old(kind.loanTermMonths))) ==>
        balance == old(balance) && kind == old(kind) && history == old(history)
    {
      var LoanMortgage(loanAmount, interestRate, loanTermMonths) := kind;
      var monthlyInterest := MonthlyInterest(loanAmount, interestRate);
      var monthlyPayment := MonthlyPayment(loanAmount, interestRate, loanTermMonths);
      if Covers(payment, monthlyPayment) {
        ReplayAppend(history, NewTransaction(payment, LoanPaymentLabel, stamp));
        balance := balance - payment;
        kind := LoanMortgage(loanAmount - (payment - monthlyInterest), interestRate, loanTermMonths);
        history := history + [NewTransaction(payment, LoanPaymentLabel, stamp)];
      }
    }
  }
}
