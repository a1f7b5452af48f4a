/**
 * The object graph of one bank: an account owns its history, a customer
 * holds the accounts opened for them, and a transaction is registered on an
 * account by calling the account's primitive and logging on success.
 */
module Banking {
  import opened Wrappers
  import opened Ledger

  const DefaultBranch: string := "0001"
  const DefaultLimit: real := 1000.0
  const DefaultWithdrawalLimit: int := 3

  /**
   * Which account class was built: a plain `Conta`, or a `ContaCorrente`
   * with its overdraft limit and withdrawal cap. Withdrawals read neither.
   */
  datatype AccountKind = Basic | Checking(limit: real, withdrawalLimit: int)

  /** An append-only list of accepted transactions (`Historico`). */
  class History {
    var transactions: seq<Transaction>

    constructor ()
      ensures transactions == []
    {
      transactions := [];
    }

    method Add(t: Transaction)
      modifies this
      ensures transactions == old(transactions) + [t]
    {
      transactions := transactions + [t];
    }
  }

  /** A bank account (`Conta`); its balance starts at zero and its history empty. */
  class Account {
    var balance: real
    const number: int
    const branch: string
    const owner: Customer
    const history: History
    const kind: AccountKind

    /** The balance is what the history, replayed from zero, produces. */
    ghost predicate Valid()
      reads this, history
    {
      Replay(0.0, history.transactions) == Some(balance)
    }

    /** `Conta(cliente, numero, agencia)`; the branch defaults to "0001". */
    constructor (owner: Customer, number: int, branch: string := DefaultBranch)
      ensures Valid() && fresh(history)
      ensures balance == 0.0 && history.transactions == []
      ensures this.owner == owner && this.number == number && this.branch == branch
      ensures kind == Basic
    {
      this.balance := 0.0;
      this.number := number;
      this.branch := branch;
      this.owner := owner;
      this.history := new History();
      this.kind := Basic;
    }

    /**
     * `ContaCorrente(cliente, numero, limite, limite_saques)`, always in the
     * default branch; the limit defaults to 1000.0 and the cap to 3.
     */
    constructor Checking(owner: Customer, number: int, limit: real := DefaultLimit,
                         withdrawalLimit: int := DefaultWithdrawalLimit)
      ensures Valid() && fresh(history)
      ensures balance == 0.0 && history.transactions == []
      ensures this.owner == owner && this.number == number && branch == DefaultBranch
      ensures kind == AccountKind.Checking(limit, withdrawalLimit)
    {
      this.balance := 0.0;
      this.number := number;
      this.branch := DefaultBranch;
      this.owner := owner;
      this.history := new History();
      this.kind := AccountKind.Checking(limit, withdrawalLimit);
    }

    /** `saldo_atual`: the balance, which is never negative and is deposits minus withdrawals. */
    function CurrentBalance(): (r: real)
      reads this, history
      requires Valid()
      ensures r == balance
      ensures r >= 0.0
      ensures r == Deposited(history.transactions) - Withdrawn(history.transactions)
    {
      ReplayInvariant(0.0, history.transactions);
      balance
    }

    /** `sacar`: succeeds exactly for a positive amount the balance covers. */
    method Withdraw(amount: real) returns (ok: bool)
      modifies this
      ensures ok <==> amount > 0.0 && old(balance) >= amount
      ensures balance == if ok then old(balance) - amount else old(balance)
    {
      if amount > 0.0 && balance >= amount {
        balance := balance - amount;
        return true;
      }
      return false;
    }

    /** `depositar`: succeeds exactly for a positive amount. */
    method Deposit(amount: real) returns (ok: bool)
      modifies this
      ensures ok <==> amount > 0.0
      ensures balance == if ok then old(balance) + amount else old(balance)
    {
      if amount > 0.0 {
        balance := balance + amount;
        return true;
      }
      return false;
    }
  }

  /**
   * `registrar` of `Deposito` and `Saque`: call the account's primitive and
   * append `t` to the history only when it succeeded.
   */
  method Register(t: Transaction, account: Account)
    modifies account, account.history
    ensures Registered(old(account.balance), old(account.history.transactions), t,
                       account.balance, account.history.transactions)
    ensures old(account.Valid()) ==> account.Valid()
  {
    ghost var balance0, history0 := account.balance, account.history.transactions;
    var ok;
    match t {
      case Deposit(v) =>
        ok := account.Deposit(v);
      case Withdrawal(v) =>
        ok := account.Withdraw(v);
    }
    if ok {
      account.history.Add(t);
    }
    if Replay(0.0, history0) == Some(balance0) {
      RegisterPreservesReplay(balance0, history0, t, account.balance, account.history.transactions);
    }
  }

  /** A customer (`Cliente` / `PessoaFisica`) and the accounts opened for them, in order. */
  class Customer {
    const address: string
    const cpf: string
    const name: string
    const birthDate: string
    var accounts: seq<Account>

    constructor (address: string, cpf: string, name: string, birthDate: string)
      ensures this.address == address && this.cpf == cpf
      ensures this.name == name && this.birthDate == birthDate
      ensures accounts == []
    {
      this.address := address;
      this.cpf := cpf;
      this.name := name;
      this.birthDate := birthDate;
      this.accounts := [];
    }

    /**
     * `realizar_transacao`: hands `t` to the account. It does not check that
     * the account is one of this customer's own.
     */
    method PerformTransaction(account: Account, t: Transaction)
      modifies account, account.history
      ensures Registered(old(account.balance), old(account.history.transactions), t,
                         account.balance, account.history.transactions)
      ensures old(account.Valid()) ==> account.Valid()
    {
      Register(t, account);
    }

    /** `adicionar_conta`: appends to the customer's accounts. */
    method AddAccount(account: Account)
      modifies this
      ensures accounts == old(accounts) + [account]
    {
      accounts := accounts + [account];
    }
  }
}
