# Banking domain of the POO banking system, in Dafny

This project models the in-memory banking domain of `Desafio-sistema-POO-bancario.py`: checking accounts (`Conta` / `ContaCorrente`) with a balance and an append-only history (`Historico`), deposit and withdrawal commands (`Deposito`, `Saque`) that log themselves only when the account accepts them, customers (`Cliente` / `PessoaFisica`) with their ordered list of accounts, and the lists of customers and accounts that `main` keeps, with registration by CPF, account numbering and the lookups the menu runs.

Three modules, one file each plus a small `Wrappers` module for `Option`:

- `Ledger` (ledger.dfy), pure. `Transaction` is the closed set `Deposit(amount) | Withdrawal(amount)`, in place of the abstract `Transacao` and its two subclasses. `Step` is the rule both account primitives apply. `Registered` is the state change one `registrar` makes. `Replay` applies a whole history from a starting balance. The lemmas say what a history that replays from zero implies: every amount is positive, the balance is deposits minus withdrawals, and the balance is never negative at any point.
- `Banking` (banking.dfy), imperative. `History`, `Account` and `Customer` are classes whose methods update their fields in place. `Register` is `registrar`. The object invariant `Account.Valid()` says that the balance is what the history replays to. `Register` keeps it.
- `Directory` (directory.dfy), mixed. `FindCustomer` (`filtrar_usuario`) and `FindAccount` (the `next(...)` lookup in `main`) are first-match functions. The class `Bank` holds `main`'s two lists. It has `CreateCustomer` (`criar_usuario`), `CreateAccount` (`criar_conta`), `OpenAccount` (the "nc" branch with number `len(contas)+1`), `Transact` (the "d" and "s" branches), `BalanceOf` ("sa") and `StatementOf` ("e"). `Dispatch` is one pass of `main`'s loop. It hands "d"/"s", "nu" and "nc" to `TransactionBranch`, `NewCustomerBranch` and `NewAccountBranch`, whose effects are named by the two-state predicates `Transacted`, `CustomerRegistered` and `AccountOpened`. `Run` is the loop itself, one `RunStep` per pass. `Traced` says what the passes so far leave behind, and `Running` is the loop's invariant. `Bank.Valid()` is the invariant: CPFs are unique, accounts are numbered 1..n in list order, each account has its own history in agreement with its balance, and the two lists agree on who owns which account.

Amounts are `real`: the source's floats without rounding. The code only compares, adds and subtracts them. Fields the source never reassigns (`numero`, `agencia`, `cliente`, `historico`, `cpf`, `nome`, `data_nascimento`, `endereco`, `limite`, `limite_saques`) are `const`. `Conta` and `ContaCorrente` are one class, `Account`, whose `kind` records which constructor built it, holding `limite` and `limite_saques` for a checking account. Withdrawals never read them, as in the source. `Cliente` and `PessoaFisica` are one class, `Customer`: only `PessoaFisica` is ever built. Console input is replaced by parameters: the loop takes a sequence of already-parsed `MenuOption` values. What an option computes for display is returned as a value; the printing itself is left out.

`registrar` returns nothing, so `Transact` returns `Pass` whenever the account was found, refused or not. The "d" branch announces success either way. `sacar` and `depositar` only print their refusals ("Saldo insuficiente.", "Valor inválido para depósito."), and the printing is left out. A refusal shows in the unchanged balance and history, which the postcondition of `Transact` states.

## Model

| member | source | states |
|---|---|---|
| Ledger.ReplayAppend | Desafio-sistema-POO-bancario.py:16-27 | appending one transaction to a history extends its replay by exactly one Step, so a logged entry accounts for exactly the balance change it made |
| Ledger.ReplayInvariant | Desafio-sistema-POO-bancario.py:40-61 | a history that replays from a start balance has only positive amounts, ends at start + deposits - withdrawals, and ends non-negative when the start is |
| Ledger.ReplayPrefix | Desafio-sistema-POO-bancario.py:49-54 | every prefix of a replayable history replays too and is non-negative: each withdrawal was covered by the balance at its time |
| Ledger.RegisterPreservesReplay | Desafio-sistema-POO-bancario.py:16-27 | one registration, accepted or refused, keeps the balance equal to the replay of the history |
| Banking.History.constructor | Desafio-sistema-POO-bancario.py:31-32 | a new history is empty |
| Banking.History.Add | Desafio-sistema-POO-bancario.py:34-35 | `adicionar_transacao` appends exactly the one entry at the end and keeps the earlier ones |
| Banking.Account.constructor | Desafio-sistema-POO-bancario.py:39-44 | a new account has balance 0, a fresh empty history, and the given owner, number and branch, which defaults to "0001" |
| Banking.Account.Checking | Desafio-sistema-POO-bancario.py:64-68 | a checking account is a new account in branch "0001" that stores its limit and withdrawal cap, which default to 1000 and 3 |
| Banking.Account.CurrentBalance | Desafio-sistema-POO-bancario.py:46-47 | `saldo_atual` returns the balance, which is never negative and equals deposits minus withdrawals in the history |
| Banking.Account.Withdraw | Desafio-sistema-POO-bancario.py:49-54 | `sacar` succeeds exactly when the amount is positive and covered by the balance, then subtracts exactly the amount; otherwise the balance is unchanged |
| Banking.Account.Deposit | Desafio-sistema-POO-bancario.py:56-61 | `depositar` succeeds exactly when the amount is positive, then adds exactly the amount; otherwise the balance is unchanged |
| Banking.Register | Desafio-sistema-POO-bancario.py:16-27 | `registrar` appends the transaction exactly when the account primitive accepts it; a refusal changes neither the balance nor the history; the account invariant is kept |
| Banking.Customer.constructor | Desafio-sistema-POO-bancario.py:84-88 | a new customer stores address, CPF, name and birth date and holds no accounts |
| Banking.Customer.PerformTransaction | Desafio-sistema-POO-bancario.py:76-77 | `realizar_transacao` registers the transaction on any account it is given, with no ownership check |
| Banking.Customer.AddAccount | Desafio-sistema-POO-bancario.py:79-80 | `adicionar_conta` appends the account to the customer's list |
| Directory.FindCustomer | Desafio-sistema-POO-bancario.py:126-128 | `filtrar_usuario` returns the first customer in list order with the CPF, and None exactly when no customer has it |
| Directory.FindAccount | Desafio-sistema-POO-bancario.py:180 | the lookup returns the first of the given accounts with the number, and None exactly when none has it |
| Directory.FindCustomerInPrefix | Desafio-sistema-POO-bancario.py:126-128 | a CPF that the lookup finds among the first n customers is still found once more customers are appended |
| Directory.FindCustomerIsExact | Desafio-sistema-POO-bancario.py:109-123 | with CPFs kept unique by registration, looking up a registered customer's CPF yields that customer |
| Directory.FindNumberedAccount | Desafio-sistema-POO-bancario.py:239-241 | in a list numbered 1..n in order, number k is found exactly when 1 <= k <= n, at position k - 1 |
| Directory.Bank.constructor | Desafio-sistema-POO-bancario.py:164-165 | the session starts with no customers and no accounts, and the bank invariant holds |
| Directory.Bank.Locate | Desafio-sistema-POO-bancario.py:171-180 | CustomerNotFound exactly when no customer has the CPF; AccountNotFound exactly when that customer holds no account with the number; otherwise one of that customer's own accounts with that number |
| Directory.Bank.CreateCustomer | Desafio-sistema-POO-bancario.py:109-124 | `criar_usuario` reports `AlreadyExists` and leaves the customers unchanged when the CPF exists, otherwise passes and appends exactly one fresh customer with the given data and no accounts; CPFs stay unique |
| Directory.Bank.CreateAccount | Desafio-sistema-POO-bancario.py:130-141 | `criar_conta` does nothing for an unknown CPF; otherwise appends one fresh checking account, numbered as given and with the default limits, to the bank's list and to the owner's list, and to no other customer's |
| Directory.Bank.OpenAccount | Desafio-sistema-POO-bancario.py:239-241 | the "nc" branch numbers the new account len(contas)+1, so the accounts stay numbered 1..n in list order |
| Directory.Bank.Transact | Desafio-sistema-POO-bancario.py:170-205 | the "d" and "s" branches report a missing customer or account; otherwise the located account changes as `registrar` prescribes; no other account changes; the bank invariant is kept |
| Directory.Bank.BalanceOf | Desafio-sistema-POO-bancario.py:207-221 | the "sa" branch gives the located account's balance, which is never negative, or the lookup's error |
| Directory.Bank.StatementOf | Desafio-sistema-POO-bancario.py:223-237 | the "e" branch gives the located account's history and balance; every listed amount is positive and the balance is the listed deposits minus the listed withdrawals |
| Directory.RegisteredStep | Desafio-sistema-POO-bancario.py:246-247 | after a pass that appends customers only as "nu" does and registers the "nu" CPF, every CPF given by a "nu" option so far is registered |
| Directory.CustomersTracedStep | Desafio-sistema-POO-bancario.py:246-247 | after a pass that appends a customer only for "nu", every customer appended since the start was asked for by a "nu" option with its CPF |
| Directory.AccountsTracedStep | Desafio-sistema-POO-bancario.py:239-241 | after a pass that appends an account only for "nc", every account appended since the start was asked for by an "nc" option with its owner's CPF |
| Directory.Bank.TransactionBranch | Desafio-sistema-POO-bancario.py:170-205 | the "d" and "s" branches leave both lists and every customer's accounts alone, change the located account as registering the deposit or withdrawal prescribes, and change no other account |
| Directory.Bank.NewCustomerBranch | Desafio-sistema-POO-bancario.py:246-247 | the "nu" branch changes no account, keeps the customers for a registered CPF, otherwise appends one customer with the given data, and leaves the CPF registered |
| Directory.Bank.NewAccountBranch | Desafio-sistema-POO-bancario.py:239-241 | the "nc" branch keeps the customers and the existing accounts; for a registered CPF it appends one empty checking account numbered len(contas)+1 to the bank's list and to that customer's only |
| Directory.Bank.Dispatch | Desafio-sistema-POO-bancario.py:168-254 | one pass of the menu: "d"/"s", "nu" and "nc" have exactly the effects of the three branches above; "sa", "e", "lc", "q" and any other text change nothing; the bank invariant is kept; it quits exactly on "q" |
| Directory.OpensIffRegistered | Desafio-sistema-POO-bancario.py:130-141 | with every "nu" CPF so far registered and every customer added since asked for by one, an option opens an account exactly when `criar_conta`'s lookup finds its CPF: it is an "nc" whose CPF was there before the loop or given by an earlier "nu" |
| Directory.AccountsOpenedStep | Desafio-sistema-POO-bancario.py:239-241 | a pass that appends one account for the option's CPF when the option opens an account, and none otherwise, keeps the owners' CPFs of the accounts added since the loop began equal, in order, to the CPFs of the options so far that open an account |
| Directory.RepeatedOpenings | Desafio-sistema-POO-bancario.py:239-241 | after "nu" for a CPF and two "nc" for it, the accounts added are exactly two, both for that CPF: each "nc" opens its own account |
| Directory.Bank.RunStep | Desafio-sistema-POO-bancario.py:167-254 | one pass of the loop quits exactly on "q", keeps the bank invariant, keeps the lists extending those at the start of the loop, and brings in only new objects; every "nu" CPF so far stays registered, every added customer and account is traced to the option that asked for it, and the accounts added are one per "nc" option so far for a registered CPF, in option order |
| Directory.Bank.Run | Desafio-sistema-POO-bancario.py:163-254 | the loop consumes options until the first "q" or the end of the input and keeps the bank invariant; at the end every CPF a consumed "nu" option gave is registered, every customer and account added was asked for by a consumed "nu" or "nc" option, and the accounts added are exactly one per consumed "nc" option whose CPF was registered when it ran, in option order and owned by that CPF |

`ScenarioOpen`, `ScenarioDeposit`, `ScenarioTransactions` and `ScenarioErrors` in directory.dfy are client methods. They walk through one session using only the contracts above: register a customer, open account 1, deposit 500, withdraw 200, and fail to withdraw 1000. The statement is then `[Deposit(500), Withdrawal(200)]` with balance 300. A duplicate CPF, an unknown account number and an unknown CPF are refused and change nothing.

## Left out

- `menu`, every `input` prompt and every `print`. These are console I/O. `listar_contas` only prints, so the "lc" option does nothing in the model. `exibir_extrato` only formats what `StatementOf` returns.
- The results of the "sa" and "e" options are computed and then discarded in `Dispatch`. The source prints them.
- The refusal messages `sacar` and `depositar` print, and the misleading ones: "Depósito realizado com sucesso!" after a refused deposit, and "Saldo insuficiente." for a non-positive withdrawal. They are output only and change no state.
- `float(...)` and `int(...)` parsing of the input, with the exceptions they raise on bad text. Floating-point rounding, NaN and infinities, and `:.2f` formatting. Amounts are exact reals.
- The birth-date slicing and `date.fromisoformat`, with its exceptions. The birth date is an opaque string.
- End of input. Python's `input` would raise at end of input, while `Run` simply stops when its sequence of options runs out.
- `transacao.__class__.__name__` and the `ABC`/`abstractmethod` machinery. The kinds of transaction are the constructors of a closed datatype.
- Reassignment of fields the source never reassigns. They are `const`, which keeps the frames small.
- Transact: it does not distinguish a refused deposit or withdrawal in its result, because the source only prints those refusals and `registrar` returns nothing. The refusal is stated through the unchanged balance and history.
- Directory.Bank.RunStep and Directory.Bank.Run: neither states that a consumed "d" or "s" option took effect, nor the balance and history of each account after a sequence of options, nor the data of the customers "nu" adds. They state which customers and accounts were added and why, and that the accounts added are one per "nc" for a registered CPF, in order. The full effect of each single option is stated by `Dispatch`. Carrying those effects through the loop makes the loop's proof too costly for the verifier.
