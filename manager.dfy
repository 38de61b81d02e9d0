/**
 * `BankAccountManager` in Login.java: the in-memory index of accounts keyed by
 * holder name. Writing the index to its file is outside the model; loading it
 * is represented by what the deserialisation produced, `None` standing for a
 * missing, unreadable or mistyped file.
 */
module Management {
  import opened Wrappers
  import opened Accounts

  /** Some stored account carries the given account number. */
  predicate NumberInUse(accounts: map<string, Account>, accountNumber: int) {
    exists name | name in accounts :: accounts[name].accountNumber == accountNumber
  }

  /** Every stored account sits under its own holder's name. */
  predicate KeyedByHolder(accounts: map<string, Account>) {
    forall name | name in accounts :: accounts[name].accountHolder == name
  }

  /** After an upsert the saved account's number is in use, so the number lookup cannot come back empty. */
  lemma SavedNumberInUse(accounts: map<string, Account>, account: Account)
    ensures NumberInUse(accounts[account.accountHolder := account], account.accountNumber)
  {
    var updated := accounts[account.accountHolder := account];
    assert updated[account.accountHolder] == account;
  }

  /** Every stored account satisfies the account invariant. */
  ghost predicate AllValid(accounts: map<string, Account>)
    reads accounts.Values
  {
    forall name | name in accounts :: accounts[name].Valid()
  }

  class AccountManager {
    var accounts: map<string, Account>

    /** The index holds only accounts whose balance agrees with their history. */
    ghost predicate Valid()
      reads this, accounts.Values
    {
      AllValid(accounts)
    }

    /** The constructor's `loadAccountMap`: the stored map, or an empty one when loading failed. */
    constructor (stored: Option<map<string, Account>>)
      requires stored.Some? ==> AllValid(stored.value)
      ensures Valid()
      ensures stored.Some? ==> accounts == stored.value
      ensures stored.None? ==> accounts == map[]
    {
      accounts := if stored.Some? then stored.value else map[];
    }

    /** `saveAccountDetails`: inserts or replaces the entry under the account's holder; no other entry changes. */
    method SaveAccountDetails(account: Account)
      requires Valid() && account.Valid()
      modifies this
      ensures Valid()
      ensures account.accountHolder in accounts && accounts[account.accountHolder] == account
      ensures accounts.Keys == old(accounts).Keys + {account.accountHolder}
      ensures forall name | name in old(accounts) && name != account.accountHolder :: accounts[name] == old(accounts)[name]
      ensures old(KeyedByHolder(accounts)) ==> KeyedByHolder(accounts)
    {
      accounts := accounts[account.accountHolder := account];
    }

    /** `getAccount(String)`: the entry stored under that name, or `null`. */
    function GetAccountByName(name: string): (r: Account?)
      requires Valid()
      reads this, accounts.Values
      ensures r != null <==> name in accounts
      ensures r != null ==> r == accounts[name] && r.Valid()
    {
      if name in accounts then accounts[name] else null
    }

    /**
     * `getAccount(int)`: scans the stored accounts and returns one with that number,
     * or `null` when none has it. The scan order of a `HashMap` is unspecified,
     * so when several accounts share the number any of them may be returned.
     */
    method GetAccountByNumber(accountNumber: int) returns (r: Account?)
      requires Valid()
      ensures r != null ==> r in accounts.Values && r.accountNumber == accountNumber && r.Valid()
      ensures r == null <==> !NumberInUse(accounts, accountNumber)
    {
      var unvisited := accounts.Values;
      while unvisited != {}
        invariant unvisited <= accounts.Values
        invariant forall a | a in accounts.Values && a !in unvisited :: a.accountNumber != accountNumber
        decreases |unvisited|
      {
        var account :| account in unvisited;
        if account.accountNumber == accountNumber {
          return account;
        }
        unvisited := unvisited - {account};
      }
      r := null;
      forall name | name in accounts ensures accounts[name].accountNumber != accountNumber {
        assert accounts[name] in accounts.Values;
      }
    }
  }
}
