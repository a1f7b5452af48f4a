/** The shared Option type. */
module Wrappers {
  datatype Option<+T> = None | Some(value: T)
}

/**
 * The value side of the banking domain: transaction records and the rules an
 * account applies to them. An account's balance moves only by `Step`, and a
 * history is the sequence of transactions that `Step` accepted.
 */
module Ledger {
  import opened Wrappers

  /** A transaction request and, once accepted, a history entry (`Deposito`, `Saque`). */
  datatype Transaction = Deposit(amount: real) | Withdrawal(amount: real)

  /**
   * The balance after applying `t` at balance `balance`, or None when the
   * account refuses it: a deposit needs a positive amount, a withdrawal a
   * positive amount that the balance covers. The account's limits are not consulted.
   */
  function Step(balance: real, t: Transaction): Option<real>
  {
    match t
    case Deposit(v) => if v > 0.0 then Some(balance + v) else None
    case Withdrawal(v) => if v > 0.0 && balance >= v then Some(balance - v) else None
  }

  /**
   * The state change one registration makes: on acceptance the balance
   * moves by `Step` and exactly `t` is appended to the history; on refusal
   * neither changes.
   */
  ghost predicate Registered(balance: real, history: seq<Transaction>, t: Transaction,
                             balance': real, history': seq<Transaction>)
  {
    match Step(balance, t)
    case Some(b) => balance' == b && history' == history + [t]
    case None => balance' == balance && history' == history
  }

  /** Applies a history, oldest entry first, from `start`; None if some entry would be refused. */
  function Replay(start: real, history: seq<Transaction>): Option<real>
    decreases |history|
  {
    if history == [] then Some(start)
    else match Step(start, history[0])
      case None => None
      case Some(b) => Replay(b, history[1..])
  }

  /** Sum of the amounts of the deposits in `history`. */
  function Deposited(history: seq<Transaction>): real
  {
    if history == [] then 0.0
    else (if history[0].Deposit? then history[0].amount else 0.0) + Deposited(history[1..])
  }

  /** Sum of the amounts of the withdrawals in `history`. */
  function Withdrawn(history: seq<Transaction>): real
  {
    if history == [] then 0.0
    else (if history[0].Withdrawal? then history[0].amount else 0.0) + Withdrawn(history[1..])
  }

  predicate AllPositive(history: seq<Transaction>)
  {
    forall i :: 0 <= i < |history| ==> history[i].amount > 0.0
  }

  /** Replaying a history extended by one entry is replaying the history, then stepping. */
  lemma {:induction false} ReplayAppend(start: real, history: seq<Transaction>, t: Transaction)
    decreases |history|
    ensures Replay(start, history + [t]) ==
            match Replay(start, history)
            case None => None
            case Some(b) => Step(b, t)
  {
    if history == [] {
      assert history + [t] == [t];
    } else {
      assert (history + [t])[0] == history[0];
      assert (history + [t])[1..] == history[1..] + [t];
      match Step(start, history[0])
      case None =>
      case Some(b) => ReplayAppend(b, history[1..], t);
    }
  }

  /**
   * A history that replays from `start` contains only positive amounts, and
   * ends at `start` plus its deposits minus its withdrawals, never below zero
   * when `start` is not.
   */
  lemma {:induction false} ReplayInvariant(start: real, history: seq<Transaction>)
    requires Replay(start, history).Some?
    ensures Replay(start, history).value == start + Deposited(history) - Withdrawn(history)
    ensures AllPositive(history)
    ensures start >= 0.0 ==> Replay(start, history).value >= 0.0
    decreases |history|
  {
    if history != [] {
      var b := Step(start, history[0]).value;
      ReplayInvariant(b, history[1..]);
      forall i | 0 <= i < |history|
        ensures history[i].amount > 0.0
      {
        if i > 0 { assert history[i] == history[1..][i - 1]; }
      }
    }
  }

  /**
   * Every prefix of a history that replays from a non-negative start also
   * replays: the balance was covered, and never negative, at every point.
   */
  lemma {:induction false} ReplayPrefix(start: real, history: seq<Transaction>, k: nat)
    requires start >= 0.0
    requires Replay(start, history).Some?
    requires k <= |history|
    ensures Replay(start, history[..k]).Some?
    ensures Replay(start, history[..k]).value >= 0.0
    decreases k
  {
    if k == 0 {
      assert history[..k] == [];
    } else {
      var b := Step(start, history[0]).value;
      assert history[..k][0] == history[0];
      assert history[..k][1..] == history[1..][..k - 1];
      ReplayPrefix(b, history[1..], k - 1);
    }
  }

  /** Registering keeps a history and balance that replay from zero in step with each other. */
  lemma RegisterPreservesReplay(balance: real, history: seq<Transaction>, t: Transaction,
                                balance': real, history': seq<Transaction>)
    requires Replay(0.0, history) == Some(balance)
    requires Registered(balance, history, t, balance', history')
    ensures Replay(0.0, history') == Some(balance')
  {
    ReplayAppend(0.0, history, t);
  }
}
