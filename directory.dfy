/**
 * The process-wide state of the menu application: the list of customers and
 * the list of accounts that `main` keeps, the lookups by CPF and by account
 * number, registration and account opening, and the menu loop itself with
 * its console input replaced by a sequence of already-parsed menu options.
 */
module Directory {
  import opened Wrappers
  import opened Ledger
  import opened Banking

  datatype Error = AlreadyExists | CustomerNotFound | AccountNotFound
  datatype Result<T> = Ok(value: T) | Err(error: Error)
  datatype Outcome = Pass | Fail(error: Error)

  /** What `exibir_extrato` shows: the account's history and its balance. */
  datatype Statement = Statement(transactions: seq<Transaction>, balance: real)

  /**
   * One pass of the menu, with the values the prompts would have read. The
   * text an `UnknownOption` carries is none of the eight option strings:
   * each of those is read as its own constructor.
   */
  datatype MenuOption =
    | DepositOption(cpf: string, number: int, amount: real)       // "d"
    | WithdrawOption(cpf: string, number: int, amount: real)      // "s"
    | BalanceOption(cpf: string, number: int)                     // "sa"
    | StatementOption(cpf: string, number: int)                   // "e"
    | NewAccountOption(cpf: string)                               // "nc"
    | ListAccountsOption                                          // "lc"
    | NewCustomerOption(cpf: string, name: string, birthDate: string, address: string)  // "nu"
    | QuitOption                                                  // "q"
    | UnknownOption(text: string)                                 // any other text

  /** `filtrar_usuario`: the first customer in list order with this CPF, if any. */
  function FindCustomer(cpf: string, customers: seq<Customer>): (r: Option<Customer>)
    ensures r.None? <==> forall i :: 0 <= i < |customers| ==> customers[i].cpf != cpf
    ensures r.Some? ==> r.value in customers && r.value.cpf == cpf
    ensures r.Some? ==> exists i :: 0 <= i < |customers| && customers[i] == r.value &&
                                    forall j :: 0 <= j < i ==> customers[j].cpf != cpf
  {
    if customers == [] then None
    else if customers[0].cpf == cpf then Some(customers[0])
    else
      var r := FindCustomer(cpf, customers[1..]);
      if r.Some? then
        var i :| 0 <= i < |customers[1..]| && customers[1..][i] == r.value &&
                 forall j :: 0 <= j < i ==> customers[1..][j].cpf != cpf;
        assert customers[i + 1] == r.value;
        assert forall j :: 0 <= j < i + 1 ==> customers[j].cpf != cpf by {
          forall j | 0 <= j < i + 1 ensures customers[j].cpf != cpf {
            if j > 0 { assert customers[j] == customers[1..][j - 1]; }
          }
        }
        r
      else
        assert forall i :: 0 <= i < |customers| ==> customers[i].cpf != cpf by {
          forall i | 0 <= i < |customers| ensures customers[i].cpf != cpf {
            if i > 0 { assert customers[i] == customers[1..][i - 1]; }
          }
        }
        r
  }

  /**
   * The lookup `main` runs over one customer's own accounts: the first of
   * them, in order, with this number, if any.
   */
  function FindAccount(accounts: seq<Account>, number: int): (r: Option<Account>)
    ensures r.None? <==> forall i :: 0 <= i < |accounts| ==> accounts[i].number != number
    ensures r.Some? ==> r.value in accounts && r.value.number == number
    ensures r.Some? ==> exists i :: 0 <= i < |accounts| && accounts[i] == r.value &&
                                    forall j :: 0 <= j < i ==> accounts[j].number != number
  {
    if accounts == [] then None
    else if accounts[0].number == number then Some(accounts[0])
    else
      var r := FindAccount(accounts[1..], number);
      if r.Some? then
        var i :| 0 <= i < |accounts[1..]| && accounts[1..][i] == r.value &&
                 forall j :: 0 <= j < i ==> accounts[1..][j].number != number;
        assert accounts[i + 1] == r.value;
        assert forall j :: 0 <= j < i + 1 ==> accounts[j].number != number by {
          forall j | 0 <= j < i + 1 ensures accounts[j].number != number {
            if j > 0 { assert accounts[j] == accounts[1..][j - 1]; }
          }
        }
        r
      else
        assert forall i :: 0 <= i < |accounts| ==> accounts[i].number != number by {
          forall i | 0 <= i < |accounts| ensures accounts[i].number != number {
            if i > 0 { assert accounts[i] == accounts[1..][i - 1]; }
          }
        }
        r
  }

  predicate CpfsUnique(customers: seq<Customer>)
  {
    forall i, j :: 0 <= i < j < |customers| ==> customers[i].cpf != customers[j].cpf
  }

  /** The accounts are numbered 1, 2, ..., n in list order. */
  predicate NumberedInOrder(accounts: seq<Account>)
  {
    forall i :: 0 <= i < |accounts| ==> accounts[i].number == i + 1
  }

  /** With unique CPFs, the lookup by a customer's CPF finds that very customer. */
  lemma FindCustomerIsExact(customers: seq<Customer>, c: Customer)
    requires CpfsUnique(customers)
    requires c in customers
    ensures FindCustomer(c.cpf, customers) == Some(c)
  {
  }

  /** A CPF found in a prefix of the customers is found in the whole list. */
  lemma FindCustomerInPrefix(cpf: string, customers: seq<Customer>, n: nat)
    requires n <= |customers|
    requires FindCustomer(cpf, customers[..n]).Some?
    ensures FindCustomer(cpf, customers).Some?
  {
    var i :| 0 <= i < n && customers[..n][i].cpf == cpf;
    assert customers[i].cpf == cpf;
  }

  /** With numbers 1..n in list order, number k is found at position k - 1, and only numbers in 1..n are found. */
  lemma FindNumberedAccount(accounts: seq<Account>, number: int)
    requires NumberedInOrder(accounts)
    ensures FindAccount(accounts, number).Some? <==> 1 <= number <= |accounts|
    ensures 1 <= number <= |accounts| ==> FindAccount(accounts, number) == Some(accounts[number - 1])
  {
    if 1 <= number <= |accounts| {
      assert accounts[number - 1].number == number;
      var r := FindAccount(accounts, number);
      var i :| 0 <= i < |accounts| && accounts[i] == r.value &&
               forall j :: 0 <= j < i ==> accounts[j].number != number;
      assert accounts[i].number == i + 1;
    }
  }

  /** The transaction a "d" or "s" option asks for. */
  function Requested(option: MenuOption): Transaction
    requires option.DepositOption? || option.WithdrawOption?
  {
    if option.DepositOption? then Deposit(option.amount) else Withdrawal(option.amount)
  }

  /** A list that extends one that extends `prefix` extends `prefix`. */
  lemma ExtendsTransitive<T>(prefix: seq<T>, middle: seq<T>, last: seq<T>)
    requires |prefix| <= |middle| && middle[..|prefix|] == prefix
    requires |middle| <= |last| && last[..|middle|] == middle
    ensures |prefix| <= |last| && last[..|prefix|] == prefix
  {
    assert last[..|prefix|] == last[..|middle|][..|prefix|];
  }

  /** One pass of the menu added no customer, or added one with the CPF a "nu" option gave. */
  predicate CustomerGrowth(option: MenuOption, before: seq<Customer>, after: seq<Customer>)
  {
    || after == before
    || (&& option.NewCustomerOption? && |after| == |before| + 1
        && after[..|before|] == before && after[|before|].cpf == option.cpf)
  }

  /** One pass of the menu added no account, or added one owned by the CPF an "nc" option gave. */
  predicate AccountGrowth(option: MenuOption, before: seq<Account>, after: seq<Account>)
  {
    || after == before
    || (&& option.NewAccountOption? && |after| == |before| + 1
        && after[..|before|] == before && after[|before|].owner.cpf == option.cpf)
  }

  /** Every CPF given by a "nu" option among the first n options is registered. */
  predicate RegisteredAll(options: seq<MenuOption>, n: nat, customers: seq<Customer>)
    requires n <= |options|
  {
    forall i :: 0 <= i < n && options[i].NewCustomerOption? ==> FindCustomer(options[i].cpf, customers).Some?
  }

  /** One of the first n options is a "nu" option for this CPF. */
  predicate AskedToRegister(options: seq<MenuOption>, n: nat, cpf: string)
    requires n <= |options|
  {
    exists i :: 0 <= i < n && options[i].NewCustomerOption? && options[i].cpf == cpf
  }

  /** One of the first n options is an "nc" option for this CPF. */
  predicate AskedToOpen(options: seq<MenuOption>, n: nat, cpf: string)
    requires n <= |options|
  {
    exists i :: 0 <= i < n && options[i] == NewAccountOption(cpf)
  }

  /** Each customer from position `base` on was added by a "nu" option among the first n options. */
  predicate CustomersTraced(options: seq<MenuOption>, n: nat, base: nat, customers: seq<Customer>)
    requires n <= |options|
  {
    forall k :: base <= k < |customers| ==> AskedToRegister(options, n, customers[k].cpf)
  }

  /** Each account from position `base` on was opened by an "nc" option, among the first n, for its owner's CPF. */
  predicate AccountsTraced(options: seq<MenuOption>, n: nat, base: nat, accounts: seq<Account>)
    requires n <= |options|
  {
    forall k :: base <= k < |accounts| ==> AskedToOpen(options, n, accounts[k].owner.cpf)
  }

  /** A pass that grows the customers as `CustomerGrowth` allows, and registers a "nu" CPF, keeps every earlier "nu" CPF registered. */
  lemma RegisteredStep(options: seq<MenuOption>, n: nat, before: seq<Customer>, after: seq<Customer>)
    requires n < |options|
    requires RegisteredAll(options, n, before)
    requires CustomerGrowth(options[n], before, after)
    requires options[n].NewCustomerOption? ==> FindCustomer(options[n].cpf, after).Some?
    ensures RegisteredAll(options, n + 1, after)
  {
    forall i | 0 <= i < n + 1 && options[i].NewCustomerOption?
      ensures FindCustomer(options[i].cpf, after).Some?
    {
      if i < n && after != before {
        FindCustomerInPrefix(options[i].cpf, after, |before|);
      }
    }
  }

  /** A pass that grows the customers as `CustomerGrowth` allows keeps every appended customer traced to a "nu" option. */
  lemma CustomersTracedStep(options: seq<MenuOption>, n: nat, base: nat, before: seq<Customer>, after: seq<Customer>)
    requires n < |options| && base <= |before|
    requires CustomersTraced(options, n, base, before)
    requires CustomerGrowth(options[n], before, after)
    ensures CustomersTraced(options, n + 1, base, after)
  {
    forall k | base <= k < |after|
      ensures AskedToRegister(options, n + 1, after[k].cpf)
    {
      if k < |before| {
        assert after[k] == before[k];
        assert AskedToRegister(options, n, before[k].cpf);
        var i :| 0 <= i < n && options[i].NewCustomerOption? && options[i].cpf == before[k].cpf;
      } else {
        assert options[n].NewCustomerOption? && options[n].cpf == after[k].cpf;
      }
    }
  }

  /** A pass that grows the accounts as `AccountGrowth` allows keeps every appended account traced to an "nc" option. */
  lemma AccountsTracedStep(options: seq<MenuOption>, n: nat, base: nat, before: seq<Account>, after: seq<Account>)
    requires n < |options| && base <= |before|
    requires AccountsTraced(options, n, base, before)
    requires AccountGrowth(options[n], before, after)
    ensures AccountsTraced(options, n + 1, base, after)
  {
    forall k | base <= k < |after|
      ensures AskedToOpen(options, n + 1, after[k].owner.cpf)
    {
      if k < |before| {
        assert after[k] == before[k];
        assert AskedToOpen(options, n, before[k].owner.cpf);
        var i :| 0 <= i < n && options[i] == NewAccountOption(before[k].owner.cpf);
      } else {
        assert options[n] == NewAccountOption(after[k].owner.cpf);
      }
    }
  }

  /**
   * Option i is an "nc" option whose CPF is registered when it runs: it is
   * in `start`, the customers before the first option, or an earlier "nu"
   * option gave it.
   */
  predicate Opens(options: seq<MenuOption>, i: nat, start: seq<Customer>)
    requires i < |options|
  {
    && options[i].NewAccountOption?
    && (FindCustomer(options[i].cpf, start).Some? || AskedToRegister(options, i, options[i].cpf))
  }

  /** The CPFs of the options, among the first n, that open an account, in option order. */
  function OpenedCpfs(options: seq<MenuOption>, n: nat, start: seq<Customer>): seq<string>
    requires n <= |options|
  {
    if n == 0 then []
    else OpenedCpfs(options, n - 1, start) + (if Opens(options, n - 1, start) then [options[n - 1].cpf] else [])
  }

  /** The owners' CPFs of the accounts, in list order. */
  function Owners(accounts: seq<Account>): seq<string>
  {
    if accounts == [] then [] else Owners(accounts[..|accounts| - 1]) + [accounts[|accounts| - 1].owner.cpf]
  }

  /**
   * The accounts from position `base` on are exactly one per option, among
   * the first n, that opens an account, in option order, each owned by that
   * option's CPF.
   */
  predicate AccountsOpened(options: seq<MenuOption>, n: nat, start: seq<Customer>, base: nat,
                           accounts: seq<Account>)
    requires n <= |options|
  {
    base <= |accounts| && Owners(accounts[base..]) == OpenedCpfs(options, n, start)
  }

  /**
   * With every "nu" CPF so far registered and every appended customer asked
   * for by one, the next option opens an account exactly when it is an "nc"
   * option whose CPF is registered now.
   */
  lemma OpensIffRegistered(options: seq<MenuOption>, n: nat, start: seq<Customer>, customers: seq<Customer>)
    requires n < |options|
    requires |start| <= |customers| && customers[..|start|] == start
    requires RegisteredAll(options, n, customers)
    requires CustomersTraced(options, n, |start|, customers)
    ensures Opens(options, n, start) <==>
              options[n].NewAccountOption? && FindCustomer(options[n].cpf, customers).Some?
  {
    if options[n].NewAccountOption? {
      var cpf := options[n].cpf;
      if FindCustomer(cpf, customers).Some? {
        var j :| 0 <= j < |customers| && customers[j] == FindCustomer(cpf, customers).value &&
                 forall k :: 0 <= k < j ==> customers[k].cpf != cpf;
        if j < |start| {
          assert start[j].cpf == cpf;
        } else {
          assert AskedToRegister(options, n, customers[j].cpf);
        }
      }
      if FindCustomer(cpf, start).Some? {
        FindCustomerInPrefix(cpf, customers, |start|);
      } else if AskedToRegister(options, n, cpf) {
        var j :| 0 <= j < n && options[j].NewCustomerOption? && options[j].cpf == cpf;
      }
    }
  }

  /** There is one owner's CPF per account. */
  lemma OwnersLength(accounts: seq<Account>)
    ensures |Owners(accounts)| == |accounts|
  {
    if accounts != [] {
      OwnersLength(accounts[..|accounts| - 1]);
    }
  }

  /** Appending an account appends its owner's CPF. */
  lemma OwnersAppend(accounts: seq<Account>, a: Account)
    ensures Owners(accounts + [a]) == Owners(accounts) + [a.owner.cpf]
  {
    assert (accounts + [a])[..|accounts|] == accounts;
  }

  /**
   * A pass that appends one account, owned by the option's CPF, when the
   * option opens an account, and otherwise no account, keeps the accounts
   * one per opening option, in option order.
   */
  lemma AccountsOpenedStep(options: seq<MenuOption>, n: nat, start: seq<Customer>, base: nat,
                           before: seq<Account>, after: seq<Account>)
    requires n < |options|
    requires AccountsOpened(options, n, start, base, before)
    requires Opens(options, n, start) ==>
               && |after| == |before| + 1 && after[..|before|] == before
               && after[|before|].owner.cpf == options[n].cpf
    requires !Opens(options, n, start) ==> after == before
    ensures AccountsOpened(options, n + 1, start, base, after)
  {
    if Opens(options, n, start) {
      assert after[base..] == before[base..] + [after[|before|]];
      OwnersAppend(before[base..], after[|before|]);
    }
  }

  /**
   * Registering a CPF and asking twice for an account for it, with no
   * customers before, leaves exactly two new accounts, both for that CPF.
   */
  lemma RepeatedOpenings(cpf: string, name: string, birthDate: string, address: string, accounts: seq<Account>)
    requires AccountsOpened([NewCustomerOption(cpf, name, birthDate, address), NewAccountOption(cpf),
                             NewAccountOption(cpf)], 3, [], 0, accounts)
    ensures |accounts| == 2 && accounts[0].owner.cpf == cpf && accounts[1].owner.cpf == cpf
  {
    var options := [NewCustomerOption(cpf, name, birthDate, address), NewAccountOption(cpf), NewAccountOption(cpf)];
    assert options[0].NewCustomerOption? && options[0].cpf == cpf;
    assert Opens(options, 1, []) && Opens(options, 2, []);
    assert OpenedCpfs(options, 1, []) == [];
    assert OpenedCpfs(options, 3, []) == [cpf, cpf];
    OwnersLength(accounts);
    assert accounts[0..] == accounts;
    assert accounts[..1][..0] == [];
    assert Owners(accounts) == Owners(accounts[..1]) + [accounts[1].owner.cpf];
    assert Owners(accounts[..1]) == Owners(accounts[..1][..0]) + [accounts[0].owner.cpf];
    assert Owners(accounts) == [accounts[0].owner.cpf, accounts[1].owner.cpf];
  }

  /**
   * What the first n passes of the loop leave behind, for lists that were
   * `start` and `startAccounts` before them: both lists extend those, every
   * "nu" CPF is registered, every appended customer and account was asked
   * for, and the appended accounts are one per "nc" option for a registered
   * CPF, in option order.
   */
  predicate Traced(options: seq<MenuOption>, n: nat, start: seq<Customer>, startAccounts: seq<Account>,
                   customers: seq<Customer>, accounts: seq<Account>)
    requires n <= |options|
  {
    && |start| <= |customers| && customers[..|start|] == start
    && |startAccounts| <= |accounts| && accounts[..|startAccounts|] == startAccounts
    && RegisteredAll(options, n, customers)
    && CustomersTraced(options, n, |start|, customers)
    && AccountsTraced(options, n, |startAccounts|, accounts)
    && AccountsOpened(options, n, start, |startAccounts|, accounts)
  }

  /** The two lists `main` owns, and the operations its menu runs on them. */
  class Bank {
    var customers: seq<Customer>
    var accounts: seq<Account>

    ghost function Histories(): set<History>
      reads this
    {
      set a | a in accounts :: a.history
    }

    /**
     * CPFs are unique; each account has its own history, which its balance
     * agrees with; every account a customer holds is in the bank's list and
     * names that customer as owner, and every account in the list is held
     * by its owner, who is a registered customer.
     */
    ghost predicate Consistent()
      reads this, customers, accounts, Histories()
    {
      && CpfsUnique(customers)
      && (forall i, j :: 0 <= i < j < |accounts| ==> accounts[i].history != accounts[j].history)
      && (forall a :: a in accounts ==> a.Valid())
      && (forall c :: c in customers ==> forall a :: a in c.accounts ==> a in accounts && a.owner == c)
      && (forall a :: a in accounts ==> a.owner in customers && a in a.owner.accounts)
    }

    ghost predicate Valid()
      reads this, customers, accounts, Histories()
    {
      Consistent() && NumberedInOrder(accounts)
    }

    constructor ()
      ensures Valid()
      ensures customers == [] && accounts == []
    {
      customers := [];
      accounts := [];
    }

    /**
     * The account a menu option addresses: the customer found by CPF, then
     * the first of that customer's own accounts with the number.
     */
    function Locate(cpf: string, number: int): (r: Result<Account>)
      reads this, customers
      ensures r == Err(CustomerNotFound) <==> FindCustomer(cpf, customers).None?
      ensures r == Err(AccountNotFound) <==>
                FindCustomer(cpf, customers).Some? &&
                forall a :: a in FindCustomer(cpf, customers).value.accounts ==> a.number != number
      ensures r.Ok? <==>
                FindCustomer(cpf, customers).Some? &&
                exists a :: a in FindCustomer(cpf, customers).value.accounts && a.number == number
      ensures r.Ok? ==> r.value.number == number && r.value in FindCustomer(cpf, customers).value.accounts
    {
      match FindCustomer(cpf, customers)
      case None => Err(CustomerNotFound)
      case Some(c) =>
        match FindAccount(c.accounts, number)
        case None => Err(AccountNotFound)
        case Some(a) => Ok(a)
    }

    /** `criar_usuario`: refuses a CPF already registered with `AlreadyExists`, otherwise appends one new customer. */
    method CreateCustomer(cpf: string, name: string, birthDate: string, address: string)
      returns (r: Outcome)
      requires Valid()
      modifies this
      ensures Valid()
      ensures r == Pass || r == Fail(AlreadyExists)
      ensures r == Pass <==> FindCustomer(cpf, old(customers)).None?
      ensures accounts == old(accounts)
      ensures r.Fail? ==> customers == old(customers)
      ensures r == Pass ==> |customers| == |old(customers)| + 1 && customers[..|old(customers)|] == old(customers)
      ensures r == Pass ==>
                var c := customers[|old(customers)|];
                fresh(c) && c.cpf == cpf && c.name == name && c.birthDate == birthDate &&
                c.address == address && c.accounts == []
    {
      if FindCustomer(cpf, customers).Some? {
        return Fail(AlreadyExists);
      }
      var c := new Customer(address, cpf, name, birthDate);
      customers := customers + [c];
      r := Pass;
    }

    /**
     * `criar_conta`: does nothing for an unknown CPF; otherwise builds a
     * checking account with the given number and default limits, and appends
     * it to the bank's list and to its owner's.
     */
    method CreateAccount(number: int, cpf: string) returns (created: bool)
      requires Consistent()
      modifies this, customers
      ensures Consistent()
      ensures customers == old(customers)
      ensures created <==> FindCustomer(cpf, customers).Some?
      ensures !created ==> accounts == old(accounts)
      ensures !created ==> forall c :: c in customers ==> c.accounts == old(c.accounts)
      ensures created ==> |accounts| == |old(accounts)| + 1 && accounts[..|old(accounts)|] == old(accounts)
      ensures created ==>
                var a, owner := accounts[|old(accounts)|], FindCustomer(cpf, customers).value;
                && fresh(a) && fresh(a.history)
                && a.number == number && a.owner == owner && a.branch == DefaultBranch
                && a.kind == AccountKind.Checking(DefaultLimit, DefaultWithdrawalLimit)
                && a.balance == 0.0 && a.history.transactions == []
                && owner.accounts == old(owner.accounts) + [a]
                && forall c :: c in customers && c != owner ==> c.accounts == old(c.accounts)
      ensures NumberedInOrder(old(accounts)) && number == |old(accounts)| + 1 ==> NumberedInOrder(accounts)
    {
      var found := FindCustomer(cpf, customers);
      if found.None? {
        return false;
      }
      var owner := found.value;
      var account := new Account.Checking(owner, number);
      accounts := accounts + [account];
      owner.AddAccount(account);
      created := true;
    }

    /** The "nc" option: opens an account numbered one past the number of accounts. */
    method OpenAccount(cpf: string) returns (created: bool)
      requires Valid()
      modifies this, customers
      ensures Valid()
      ensures customers == old(customers)
      ensures created <==> FindCustomer(cpf, customers).Some?
      ensures !created ==> accounts == old(accounts)
      ensures !created ==> forall c :: c in customers ==> c.accounts == old(c.accounts)
      ensures created ==> |accounts| == |old(accounts)| + 1 && accounts[..|old(accounts)|] == old(accounts)
      ensures created ==>
                var a, owner := accounts[|old(accounts)|], FindCustomer(cpf, customers).value;
                && fresh(a) && fresh(a.history)
                && a.number == |old(accounts)| + 1 && a.owner == owner && a.branch == DefaultBranch
                && a.kind == AccountKind.Checking(DefaultLimit, DefaultWithdrawalLimit)
                && a.balance == 0.0 && a.history.transactions == []
                && owner.accounts == old(owner.accounts) + [a]
                && forall c :: c in customers && c != owner ==> c.accounts == old(c.accounts)
    {
      created := CreateAccount(|accounts| + 1, cpf);
    }

    /**
     * The "d" and "s" options: locate the customer's account and have the
     * customer perform `t` on it. Only that account can change, and it
     * changes as registering `t` prescribes.
     */
    method Transact(cpf: string, number: int, t: Transaction) returns (outcome: Outcome)
      requires Valid()
      modifies accounts, Histories()
      ensures Valid()
      ensures outcome == match Locate(cpf, number)
                         case Ok(_) => Pass
                         case Err(e) => Fail(e)
      ensures Locate(cpf, number).Ok? ==>
                var a := Locate(cpf, number).value;
                Registered(old(a.balance), old(a.history.transactions), t, a.balance, a.history.transactions)
      ensures forall a :: a in accounts && Locate(cpf, number) != Ok(a) ==>
                a.balance == old(a.balance) && a.history.transactions == old(a.history.transactions)
    {
      var found := FindCustomer(cpf, customers);
      if found.None? {
        return Fail(CustomerNotFound);
      }
      var customer := found.value;
      var lookup := FindAccount(customer.accounts, number);
      if lookup.None? {
        return Fail(AccountNotFound);
      }
      var account := lookup.value;
      assert account in accounts;
      customer.PerformTransaction(account, t);
      forall a | a in accounts && a != account
        ensures a.history != account.history
      {
        var i :| 0 <= i < |accounts| && accounts[i] == a;
        var j :| 0 <= j < |accounts| && accounts[j] == account;
        assert i != j;
      }
      outcome := Pass;
    }

    /** The "sa" option: the located account's balance, never negative. */
    function BalanceOf(cpf: string, number: int): (r: Result<real>)
      reads this, customers, accounts, Histories()
      requires Valid()
      ensures r.Err? <==> Locate(cpf, number).Err?
      ensures r.Err? ==> r.error == Locate(cpf, number).error
      ensures r.Ok? ==> r.value == Locate(cpf, number).value.balance && r.value >= 0.0
    {
      match Locate(cpf, number)
      case Err(e) => Err(e)
      case Ok(a) => Ok(a.CurrentBalance())
    }

    /**
     * The "e" option: the located account's history and balance; every
     * amount listed is positive and the balance is the deposits minus the
     * withdrawals listed.
     */
    function StatementOf(cpf: string, number: int): (r: Result<Statement>)
      reads this, customers, accounts, Histories()
      requires Valid()
      ensures r.Err? <==> Locate(cpf, number).Err?
      ensures r.Err? ==> r.error == Locate(cpf, number).error
      ensures r.Ok? ==>
                && r.value.transactions == Locate(cpf, number).value.history.transactions
                && r.value.balance == Locate(cpf, number).value.balance
      ensures r.Ok? ==>
                && AllPositive(r.value.transactions)
                && r.value.balance >= 0.0
                && r.value.balance == Deposited(r.value.transactions) - Withdrawn(r.value.transactions)
    {
      match Locate(cpf, number)
      case Err(e) => Err(e)
      case Ok(a) =>
        ReplayInvariant(0.0, a.history.transactions);
        Ok(Statement(a.history.transactions, a.CurrentBalance()))
    }

    /** Neither list, no customer's accounts, and no account's balance or history has changed. */
    twostate predicate Untouched()
      reads this, customers, accounts, Histories()
    {
      && customers == old(customers) && accounts == old(accounts)
      && (forall c :: c in customers ==> c.accounts == old(c.accounts))
      && (forall a :: a in accounts ==>
            a.balance == old(a.balance) && a.history.transactions == old(a.history.transactions))
    }

    /** Every object the operations of the bank may change. */
    ghost function Objects(): set<object>
      reads this
    {
      {this} + (set c | c in customers :: c as object) + (set a | a in accounts :: a as object) + Histories()
    }

    /** `Objects()` covers the bank, its customers, its accounts and their histories. */
    lemma ObjectsCoverFrame()
      ensures this in Objects()
      ensures forall c :: c in customers ==> c in Objects()
      ensures forall a :: a in accounts ==> a in Objects() && a.history in Objects()
    {
    }

    /** Every object the bank now holds was held before or is new. */
    twostate predicate OnlyNewObjects()
      reads this
    {
      forall o :: o in Objects() ==> o in old(Objects()) || fresh(o)
    }

    /** Customers and accounts are only ever appended, and whatever was appended is new. */
    twostate predicate Grew()
      reads this
    {
      && |old(customers)| <= |customers| && customers[..|old(customers)|] == old(customers)
      && |old(accounts)| <= |accounts| && accounts[..|old(accounts)|] == old(accounts)
      && (forall i :: |old(customers)| <= i < |customers| ==> fresh(customers[i]))
      && (forall i :: |old(accounts)| <= i < |accounts| ==>
            fresh(accounts[i]) && fresh(accounts[i].history))
    }

    /**
     * The effect of a "d" or "s" option: both lists and every customer's
     * accounts are as they were; the located account changes as registering
     * the requested transaction prescribes, and no other account changes.
     */
    twostate predicate Transacted(option: MenuOption)
      requires Valid()
      requires option.DepositOption? || option.WithdrawOption?
      reads this, customers, accounts, Histories()
    {
      && customers == old(customers) && accounts == old(accounts)
      && (forall c :: c in customers ==> c.accounts == old(c.accounts))
      && var target := Locate(option.cpf, option.number);
      && (target.Ok? ==>
            Registered(old(target.value.balance), old(target.value.history.transactions), Requested(option),
                       target.value.balance, target.value.history.transactions))
      && (forall a :: a in accounts && target != Ok(a) ==>
            a.balance == old(a.balance) && a.history.transactions == old(a.history.transactions))
    }

    /**
     * The effect of a "nu" option: no account changes; a registered CPF
     * leaves the customers as they were, any other CPF gets exactly one new
     * customer with the given data and no accounts. Either way the CPF is
     * registered afterwards.
     */
    twostate predicate CustomerRegistered(option: MenuOption)
      requires option.NewCustomerOption?
      reads this, customers, accounts, Histories()
    {
      && |old(customers)| <= |customers| && customers[..|old(customers)|] == old(customers)
      && accounts == old(accounts)
      && (forall c :: c in old(customers) ==> c.accounts == old(c.accounts))
      && (forall a :: a in accounts ==>
            a.balance == old(a.balance) && a.history.transactions == old(a.history.transactions))
      && (FindCustomer(option.cpf, old(customers)).Some? ==> customers == old(customers))
      && (FindCustomer(option.cpf, old(customers)).None? ==>
            && |customers| == |old(customers)| + 1
            && var c := customers[|old(customers)|];
            && c.cpf == option.cpf && c.name == option.name && c.birthDate == option.birthDate
            && c.address == option.address && c.accounts == [])
      && FindCustomer(option.cpf, customers).Some?
    }

    /**
     * The effect of an "nc" option: the customers and the existing accounts
     * are as they were; an unknown CPF changes nothing, a registered one gets
     * one new empty checking account, numbered one past the previous count,
     * appended to the bank's list and to that customer's and no one else's.
     */
    twostate predicate AccountOpened(option: MenuOption)
      requires option.NewAccountOption?
      reads this, customers, accounts, Histories()
    {
      && customers == old(customers)
      && |old(accounts)| <= |accounts| && accounts[..|old(accounts)|] == old(accounts)
      && (forall a :: a in old(accounts) ==>
            a.balance == old(a.balance) && a.history.transactions == old(a.history.transactions))
      && (FindCustomer(option.cpf, customers).None? ==>
            accounts == old(accounts) && forall c :: c in customers ==> c.accounts == old(c.accounts))
      && (FindCustomer(option.cpf, customers).Some? ==>
            && |accounts| == |old(accounts)| + 1
            && var a, owner := accounts[|old(accounts)|], FindCustomer(option.cpf, customers).value;
            && a.number == |old(accounts)| + 1 && a.owner == owner && a.branch == DefaultBranch
            && a.kind == AccountKind.Checking(DefaultLimit, DefaultWithdrawalLimit)
            && a.balance == 0.0 && a.history.transactions == []
            && owner.accounts == old(owner.accounts) + [a]
            && forall c :: c in customers && c != owner ==> c.accounts == old(c.accounts))
    }

    /** The "d" and "s" branches of `main`'s loop. */
    method TransactionBranch(option: MenuOption)
      requires Valid()
      requires option.DepositOption? || option.WithdrawOption?
      modifies accounts, Histories()
      ensures Valid() && Grew() && Transacted(option)
      ensures CustomerGrowth(option, old(customers), customers)
      ensures AccountGrowth(option, old(accounts), accounts)
    {
      var _ := Transact(option.cpf, option.number, Requested(option));
    }

    /** The "nu" branch of `main`'s loop. */
    method NewCustomerBranch(option: MenuOption)
      requires Valid()
      requires option.NewCustomerOption?
      modifies this
      ensures Valid() && Grew() && CustomerRegistered(option)
      ensures CustomerGrowth(option, old(customers), customers)
      ensures AccountGrowth(option, old(accounts), accounts)
      ensures FindCustomer(option.cpf, customers).Some?
    {
      var r := CreateCustomer(option.cpf, option.name, option.birthDate, option.address);
      if r.Fail? {
        FindCustomerInPrefix(option.cpf, customers, |customers|);
      } else {
        FindCustomerIsExact(customers, customers[|old(customers)|]);
      }
    }

    /** The "nc" branch of `main`'s loop. */
    method NewAccountBranch(option: MenuOption)
      requires Valid()
      requires option.NewAccountOption?
      modifies this, customers
      ensures Valid() && Grew() && AccountOpened(option)
      ensures CustomerGrowth(option, old(customers), customers)
      ensures AccountGrowth(option, old(accounts), accounts)
    {
      var created := OpenAccount(option.cpf);
    }

    /**
     * One pass of `main`'s loop: does what the option asks and returns true
     * only for "q". The options that only read or print change nothing.
     */
    method Dispatch(option: MenuOption) returns (quit: bool)
      requires Valid()
      modifies this, customers, accounts, Histories()
      ensures Valid() && Grew()
      ensures quit <==> option.QuitOption?
      ensures (option.DepositOption? || option.WithdrawOption?) ==> Transacted(option)
      ensures option.NewCustomerOption? ==> CustomerRegistered(option)
      ensures option.NewAccountOption? ==> AccountOpened(option)
      ensures (|| option.BalanceOption? || option.StatementOption? || option.ListAccountsOption?
               || option.QuitOption? || option.UnknownOption?) ==> Untouched()
      ensures CustomerGrowth(option, old(customers), customers)
      ensures AccountGrowth(option, old(accounts), accounts)
      ensures option.NewCustomerOption? ==> FindCustomer(option.cpf, customers).Some?
    {
      quit := false;
      match option {
        case DepositOption(_, _, _) =>
          TransactionBranch(option);
        case WithdrawOption(_, _, _) =>
          TransactionBranch(option);
        case BalanceOption(cpf, number) =>
          var _ := BalanceOf(cpf, number);
        case StatementOption(cpf, number) =>
          var _ := StatementOf(cpf, number);
        case NewAccountOption(_) =>
          NewAccountBranch(option);
        case ListAccountsOption =>
        case NewCustomerOption(_, _, _, _) =>
          NewCustomerBranch(option);
        case QuitOption =>
          quit := true;
        case UnknownOption(_) =>
      }
    }

    /** Growing only by appending new customers and accounts brings in only new objects. */
    twostate lemma GrowthBringsOnlyNewObjects()
      requires Grew()
      ensures OnlyNewObjects()
    {
      forall o | o in Objects()
        ensures o in old(Objects()) || fresh(o)
      {
        if o in customers {
          var i :| 0 <= i < |customers| && customers[i] == o;
          if i < |old(customers)| {
            var c := old(customers)[i];
            assert c in old(customers);
            assert c as object in old(set c | c in customers :: c as object);
          }
        } else if o in accounts {
          var i :| 0 <= i < |accounts| && accounts[i] == o;
          if i < |old(accounts)| {
            var a := old(accounts)[i];
            assert a in old(accounts);
            assert a as object in old(set a | a in accounts :: a as object);
          }
        } else if o in Histories() {
          var a :| a in accounts && a.history == o;
          var i :| 0 <= i < |accounts| && accounts[i] == a;
          if i < |old(accounts)| {
            assert old(accounts)[i] == a;
          }
        }
      }
    }

    /**
     * Pass `n` of `main`'s loop, running `options[n]` on a bank whose lists
     * extend `entryCustomers` and `entryAccounts`: the bank stays consistent
     * and still extends them, every CPF a "nu" option has given so far is
     * registered, each customer and account appended since was asked for by
     * an option so far, and the accounts appended since are one per "nc"
     * option so far whose CPF was registered when it ran, in option order.
     */
    method RunStep(options: seq<MenuOption>, n: nat,
                   ghost entryCustomers: seq<Customer>, ghost entryAccounts: seq<Account>)
      returns (quit: bool)
      requires Valid()
      requires n < |options|
      requires Traced(options, n, entryCustomers, entryAccounts, customers, accounts)
      modifies Objects()
      ensures Valid() && OnlyNewObjects()
      ensures quit <==> options[n].QuitOption?
      ensures Traced(options, n + 1, entryCustomers, entryAccounts, customers, accounts)
    {
      ObjectsCoverFrame();
      quit := Dispatch(options[n]);
      GrowthBringsOnlyNewObjects();
      ExtendsTransitive(entryCustomers, old(customers), customers);
      ExtendsTransitive(entryAccounts, old(accounts), accounts);
      RegisteredStep(options, n, old(customers), customers);
      CustomersTracedStep(options, n, |entryCustomers|, old(customers), customers);
      AccountsTracedStep(options, n, |entryAccounts|, old(accounts), accounts);
      if options[n].NewAccountOption? && FindCustomer(options[n].cpf, old(customers)).Some? {
        assert accounts[|old(accounts)|].owner == FindCustomer(options[n].cpf, customers).value;
      }
      OpensIffRegistered(options, n, entryCustomers, old(customers));
      AccountsOpenedStep(options, n, entryCustomers, |entryAccounts|, old(accounts), accounts);
    }

    /**
     * What holds after `handled` passes of `Run`: the bank is consistent,
     * holds only objects it held before the loop or new ones, and is
     * `Traced` from the lists it had then; and "q" was never consumed, or
     * was consumed last, as `quit` says.
     */
    twostate predicate Running(options: seq<MenuOption>, handled: nat, quit: bool)
      reads this, customers, accounts, Histories()
    {
      && handled <= |options|
      && Valid()
      && (forall i :: 0 <= i < handled - 1 ==> !options[i].QuitOption?)
      && (quit ==> 0 < handled && options[handled - 1].QuitOption?)
      && (!quit ==> forall i :: 0 <= i < handled ==> !options[i].QuitOption?)
      && (forall o :: o in Objects() ==> o in old(Objects()) || fresh(o))
      && Traced(options, handled, old(customers), old(accounts), customers, accounts)
    }

    /**
     * `main`'s loop: runs the options in order until "q" or the end of the
     * input, and returns how many it consumed. Customers and accounts are
     * only ever added, and the bank stays consistent throughout. Every CPF a
     * consumed "nu" option gave is registered at the end, every customer
     * added was asked for by a consumed "nu" option, every account added by
     * a consumed "nc" option for its owner's CPF, and the accounts added are
     * exactly one per consumed "nc" option whose CPF was registered when it
     * ran, in option order.
     */
    method Run(options: seq<MenuOption>) returns (handled: nat)
      requires Valid()
      modifies Objects()
      ensures Valid()
      ensures handled <= |options|
      ensures forall i :: 0 <= i < handled - 1 ==> !options[i].QuitOption?
      ensures handled == |options| || (0 < handled && options[handled - 1].QuitOption?)
      ensures |old(customers)| <= |customers| && customers[..|old(customers)|] == old(customers)
      ensures |old(accounts)| <= |accounts| && accounts[..|old(accounts)|] == old(accounts)
      ensures RegisteredAll(options, handled, customers)
      ensures CustomersTraced(options, handled, |old(customers)|, customers)
      ensures AccountsTraced(options, handled, |old(accounts)|, accounts)
      ensures AccountsOpened(options, handled, old(customers), |old(accounts)|, accounts)
    {
      handled := 0;
      var quit := false;
      while handled < |options| && !quit
        invariant Running(options, handled, quit)
      {
        quit := RunStep(options, handled, old(customers), old(accounts));
        handled := handled + 1;
      }
    }
  }

  /** The first half of a session: register a customer and open account number 1. */
  method ScenarioOpen() returns (bank: Bank, account: Account)
    ensures bank.Valid()
    ensures bank.Locate("12345678900", 1) == Ok(account)
    ensures account.balance == 0.0 && account.history.transactions == []
    ensures fresh(bank) && fresh(account) && fresh(account.history) && bank.accounts == [account]
    ensures |bank.customers| == 1 && bank.customers[0].cpf == "12345678900"
    ensures bank.customers[0].accounts == [account]
  {
    bank := new Bank();
    var registered := bank.CreateCustomer("12345678900", "Ana Silva", "1990-01-01", "Rua A, 1 - Centro - SP/SP");
    assert registered == Pass;
    var ana := bank.customers[0];
    var isOpen := bank.OpenAccount("12345678900");
    assert isOpen;
    account := bank.accounts[0];
    assert account.number == 1 && ana.accounts == [account];
    var duplicate := bank.CreateCustomer("12345678900", "Outra", "2000-01-01", "Rua B");
    assert duplicate == Fail(AlreadyExists) && bank.customers == [ana];
  }

  /** Deposit 500 and withdraw 200 on the account opened first. */
  method ScenarioDeposit(bank: Bank, account: Account)
    requires bank.Valid()
    requires bank.Locate("12345678900", 1) == Ok(account)
    requires account.balance == 0.0 && account.history.transactions == []
    modifies bank.accounts, bank.Histories()
    ensures bank.Valid()
    ensures bank.Locate("12345678900", 1) == Ok(account)
    ensures account.balance == 300.0
    ensures account.history.transactions == [Deposit(500.0), Withdrawal(200.0)]
  {
    var outcome := bank.Transact("12345678900", 1, Deposit(500.0));
    assert outcome == Pass && account.balance == 500.0;
    assert account.history.transactions == [Deposit(500.0)];
    assert bank.Locate("12345678900", 1) == Ok(account);
    outcome := bank.Transact("12345678900", 1, Withdrawal(200.0));
    assert outcome == Pass && account.balance == 300.0;
  }

  /**
   * The second half: deposit 500, withdraw 200, fail to withdraw 1000; the
   * statement lists the two accepted transactions and a balance of 300.
   */
  method ScenarioTransactions(bank: Bank, account: Account)
    requires bank.Valid()
    requires bank.Locate("12345678900", 1) == Ok(account)
    requires account.balance == 0.0 && account.history.transactions == []
    modifies bank.accounts, bank.Histories()
  {
    ScenarioDeposit(bank, account);
    var outcome := bank.Transact("12345678900", 1, Withdrawal(1000.0));
    assert outcome == Pass && account.balance == 300.0;
    assert account.history.transactions == [Deposit(500.0), Withdrawal(200.0)];
    assert bank.StatementOf("12345678900", 1) ==
           Ok(Statement([Deposit(500.0), Withdrawal(200.0)], 300.0));
  }

  /** Unknown account numbers and unknown CPFs are reported and change nothing. */
  method ScenarioErrors()
  {
    var bank, account := ScenarioOpen();
    var outcome := bank.Transact("12345678900", 2, Deposit(10.0));
    assert outcome == Fail(AccountNotFound);
    assert account.balance == 0.0 && account.history.transactions == [];
    outcome := bank.Transact("00000000000", 1, Deposit(10.0));
    assert outcome == Fail(CustomerNotFound);
    assert account.balance == 0.0 && account.history.transactions == [];
  }
}
