/**
 * Client code using only the contracts of the ledger: the registration flow of
 * the application (a savings account of 500 saved under its holder) and the
 * accept/decline cases of each variant.
 */
module Scenarios {
  import opened Wrappers
  import opened Transactions
  import opened Amortization
  import opened Accounts
  import opened Management

  method SavingsWithdrawals(stamp: Stamp) {
    var account := new Account.InitSavings(123, "alice", 500, 0.02, stamp);
    var ok := account.Withdraw(600.0, stamp);
    assert !ok && account.balance == 500.0 && |account.history| == 1;
    ok := account.Withdraw(500.0, stamp);
    assert ok && account.balance == 0.0;
    assert account.history[1].description == "Withdrawl" && account.history[1].amount == 500.0;
  }

  method CheckingOverdraft(stamp: Stamp) {
    var account := new Account.InitChecking(7, "bob", 100, 50.0, stamp);
    var ok := account.Withdraw(140.0, stamp);
    assert ok && account.balance == -40.0;
    ok := account.Withdraw(20.0, stamp);
    assert !ok && account.balance == -40.0;
  }

  method LoanPayments(stamp: Stamp) {
    var account := new Account.InitLoanMortgage(9, "carol", 12000.0, 0.06, 12);
    var ok := account.Withdraw(10.0, stamp);
    assert !ok && account.history == [];
    PaymentExceedsInterest(12000.0, 0.06, 12);
    account.MakeLoanPayment(50.0, stamp);
    assert account.kind.loanAmount == 12000.0 && account.history == [];
    account.Deposit(1000.0, stamp);
    assert account.balance == 1000.0;
  }

  method RegisterAndLookUp(stamp: Stamp) {
    var manager := new AccountManager(None);
    var account := new Account.InitSavings(123, "alice", 500, 0.02, stamp);
    manager.SaveAccountDetails(account);
    assert manager.GetAccountByName("alice") == account;
    assert manager.GetAccountByName("bob") == null;
    var found := manager.GetAccountByNumber(123);
    assert manager.accounts.Values == {account};
    assert found == account;
    found := manager.GetAccountByNumber(124);
    assert found == null;
  }

  /** The account screen: look the account up by name, deposit, withdraw, and save it back. */
  method AccountScreen(manager: AccountManager, name: string, stamp: Stamp)
    requires manager.Valid()
    modifies manager, manager.accounts.Values
  {
    var looked := manager.GetAccountByName(name);
    if looked != null {
      var before := looked.balance;
      looked.Deposit(25.0, stamp);
      var ok := looked.Withdraw(before + 50.0, stamp);
      assert !looked.kind.Checking? ==> !ok;
      manager.SaveAccountDetails(looked);
      assert manager.GetAccountByName(name) == looked;
    }
  }
}
