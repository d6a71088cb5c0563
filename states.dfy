/**
 The behaviour of the ticket vending machine as a pure transition table.

 The machine owns five state objects (one per slot below) built from four
 handler classes; the slot that is active decides which class handles each of
 the four user actions. A handler prints one fixed message and may name the
 slot the machine moves to next.
 */
module States {

  datatype Option<T> = None | Some(value: T)

  /** The five state objects a machine holds, one per field. */
  datatype Slot = Idle | WaitingForMoney | MoneyReceived | TicketDispensed | TransactionCanceled

  /** The four handler classes the state objects are built from. */
  datatype Behaviour = IdleBehaviour | MoneyReceivedBehaviour | TicketDispensedBehaviour | TransactionCanceledBehaviour

  /** The four actions a user can request; the inserted amount is never read. */
  datatype Action = SelectTicket | InsertMoney(amount: int) | DispenseTicket | CancelTransaction

  /** What a handler does: the line it prints and the slot it sets, if any. */
  datatype Response = Response(message: string, target: Option<Slot>)

  /** The machine as an observer sees it: the active slot and everything printed so far. */
  datatype Config = Config(current: Slot, log: seq<string>)

  const TicketSelected := "Билет выбран. Внесите деньги."
  const SelectTicketFirst := "Сначала выберите билет."
  const NothingToCancel := "Нечего отменять."
  const TicketAlreadySelected := "Билет уже выбран."
  const MoneyAlreadyInserted := "Деньги уже внесены."
  const TicketDispensedThanks := "Билет выдан. Спасибо за покупку!"
  const TransactionCanceledMsg := "Транзакция отменена."
  const FinishedStartOver := "Процесс завершен. Начните заново."
  const TicketAlreadyDispensed := "Билет уже выдан."
  const FinishedNothingToCancel := "Транзакция завершена. Нечего отменять."
  const CanceledStartOver := "Процесс отменен. Начните заново."
  const ProcessCanceled := "Процесс отменен."
  const AlreadyCanceled := "Транзакция уже отменена."

  /** The class of the object the machine's constructor stores for each slot.
      The waiting-for-money object is built from the money-received class. */
  function BehaviourOf(s: Slot): (b: Behaviour)
    ensures b == MoneyReceivedBehaviour <==> s == WaitingForMoney || s == MoneyReceived
    ensures b == IdleBehaviour <==> s == Idle
    ensures b == TicketDispensedBehaviour <==> s == TicketDispensed
    ensures b == TransactionCanceledBehaviour <==> s == TransactionCanceled
  {
    match s
    case Idle => IdleBehaviour
    case WaitingForMoney => MoneyReceivedBehaviour
    case MoneyReceived => MoneyReceivedBehaviour
    case TicketDispensed => TicketDispensedBehaviour
    case TransactionCanceled => TransactionCanceledBehaviour
  }

  /** The handler table: what each class's override does for each action.
      Only the idle class's select and the money-received class's dispense and
      cancel call setState, and none of them depends on the inserted amount. */
  function Respond(b: Behaviour, a: Action): (r: Response)
    ensures r.target.Some? <==> (b == IdleBehaviour && a.SelectTicket?) || (b == MoneyReceivedBehaviour && (a.DispenseTicket? || a.CancelTransaction?))
    ensures r.target.Some? ==> Targetable(r.target.value)
    ensures a.InsertMoney? && a.amount != 0 ==> r == Respond(b, InsertMoney(0))
    // the contract refers to the answer for amount 0; this measure orders the two
    decreases if a.InsertMoney? && a.amount != 0 then 1 else 0
  {
    match b
    case IdleBehaviour =>
      (match a
       case SelectTicket => Response(TicketSelected, Some(WaitingForMoney))
       case InsertMoney(_) => Response(SelectTicketFirst, None)
       case DispenseTicket => Response(SelectTicketFirst, None)
       case CancelTransaction => Response(NothingToCancel, None))
    case MoneyReceivedBehaviour =>
      (match a
       case SelectTicket => Response(TicketAlreadySelected, None)
       case InsertMoney(_) => Response(MoneyAlreadyInserted, None)
       case DispenseTicket => Response(TicketDispensedThanks, Some(TicketDispensed))
       case CancelTransaction => Response(TransactionCanceledMsg, Some(Idle)))
    case TicketDispensedBehaviour =>
      (match a
       case SelectTicket => Response(FinishedStartOver, None)
       case InsertMoney(_) => Response(FinishedStartOver, None)
       case DispenseTicket => Response(TicketAlreadyDispensed, None)
       case CancelTransaction => Response(FinishedNothingToCancel, None))
    case TransactionCanceledBehaviour =>
      (match a
       case SelectTicket => Response(CanceledStartOver, None)
       case InsertMoney(_) => Response(CanceledStartOver, None)
       case DispenseTicket => Response(ProcessCanceled, None)
       case CancelTransaction => Response(AlreadyCanceled, None))
  }

  /** The slot active after a handler answered `r` while `s` was active. */
  function Resolve(r: Response, s: Slot): (t: Slot)
  {
    match r.target
    case Some(t) => t
    case None => s
  }

  /** The slot active after action `a` is dispatched while `s` is active. */
  function NextSlot(s: Slot, a: Action): (t: Slot)
    ensures t == s || Targetable(t)
    ensures a.InsertMoney? ==> t == s
    ensures s == TicketDispensed || s == TransactionCanceled ==> t == s
    ensures s == WaitingForMoney && t != s ==> t == NextSlot(MoneyReceived, a)
    decreases if s == WaitingForMoney then 1 else 0
  {
    Resolve(Respond(BehaviourOf(s), a), s)
  }

  /** The line printed when action `a` is dispatched while `s` is active. */
  function Output(s: Slot, a: Action): (line: string)
    ensures a.InsertMoney? && a.amount != 0 ==> line == Output(s, InsertMoney(0))
    ensures s == WaitingForMoney ==> line == Output(MoneyReceived, a)
    decreases (if s == WaitingForMoney then 1 else 0) + (if a.InsertMoney? && a.amount != 0 then 1 else 0)
  {
    Respond(BehaviourOf(s), a).message
  }

  /** One dispatched action: move to the next slot and print exactly one line
      after everything printed before. */
  function Step(c: Config, a: Action): (c': Config)
    ensures |c'.log| == |c.log| + 1
    ensures c'.log[..|c.log|] == c.log
    ensures c'.log[|c.log|] == Output(c.current, a)
  {
    Config(NextSlot(c.current, a), c.log + [Output(c.current, a)])
  }

  /** A sequence of dispatched actions, performed first to last. */
  function Run(c: Config, acts: seq<Action>): (c': Config)
    decreases |acts|
  {
    if acts == [] then c else Run(Step(c, acts[0]), acts[1..])
  }

  /** A fresh machine: idle, nothing printed. */
  function Initial(): (c: Config)
  {
    Config(Idle, [])
  }

  /** The slots some setState call of a handler names. */
  predicate Targetable(s: Slot)
  {
    s == Idle || s == WaitingForMoney || s == TicketDispensed
  }

  /** Slot `s` is active after some sequence of actions on a fresh machine. */
  ghost predicate Reachable(s: Slot)
  {
    exists acts: seq<Action> :: Run(Initial(), acts).current == s
  }

  /** No action moves the machine out of `s`. */
  ghost predicate Absorbing(s: Slot)
  {
    forall a: Action :: NextSlot(s, a) == s
  }

  /** `n` copies of `x`. */
  function Repeat<T>(x: T, n: nat): (r: seq<T>)
    ensures |r| == n
    ensures forall i :: 0 <= i < n ==> r[i] == x
  {
    if n == 0 then [] else [x] + Repeat(x, n - 1)
  }

  // ---------------------------------------------------------------------------
  // Single actions
  // ---------------------------------------------------------------------------

  /** From idle only selecting a ticket moves the machine, to waiting-for-money;
      the other three actions print their fixed line and stay idle. */
  lemma IdleActions(amount: int)
    ensures NextSlot(Idle, SelectTicket) == WaitingForMoney && Output(Idle, SelectTicket) == "Билет выбран. Внесите деньги."
    ensures NextSlot(Idle, InsertMoney(amount)) == Idle && Output(Idle, InsertMoney(amount)) == "Сначала выберите билет."
    ensures NextSlot(Idle, DispenseTicket) == Idle && Output(Idle, DispenseTicket) == "Сначала выберите билет."
    ensures NextSlot(Idle, CancelTransaction) == Idle && Output(Idle, CancelTransaction) == "Нечего отменять."
  {
  }

  /** Waiting-for-money and money-received are objects of the same class, so they
      answer every action alike; dispensing moves to ticket-dispensed, cancelling
      to idle, and the other two actions change nothing. */
  lemma WaitingActsAsMoneyReceived(a: Action)
    ensures BehaviourOf(WaitingForMoney) == BehaviourOf(MoneyReceived)
    ensures Output(WaitingForMoney, a) == Output(MoneyReceived, a)
    ensures NextSlot(WaitingForMoney, a) == (if a.SelectTicket? || a.InsertMoney? then WaitingForMoney else NextSlot(MoneyReceived, a))
    ensures a == DispenseTicket ==> NextSlot(WaitingForMoney, a) == TicketDispensed && NextSlot(MoneyReceived, a) == TicketDispensed
    ensures a == CancelTransaction ==> NextSlot(WaitingForMoney, a) == Idle && NextSlot(MoneyReceived, a) == Idle
    ensures a.SelectTicket? || a.InsertMoney? ==> NextSlot(WaitingForMoney, a) == WaitingForMoney && NextSlot(MoneyReceived, a) == MoneyReceived
  {
  }

  /** Inserting money never moves the machine, and what it prints does not depend
      on the amount. */
  lemma InsertMoneyInert(s: Slot, x: int, y: int)
    ensures NextSlot(s, InsertMoney(x)) == s
    ensures Output(s, InsertMoney(x)) == Output(s, InsertMoney(y))
  {
  }

  /** Ticket-dispensed and transaction-canceled are the slots no action leaves. */
  lemma AbsorbingSlots(s: Slot)
    ensures Absorbing(s) <==> s == TicketDispensed || s == TransactionCanceled
  {
    if !(s == TicketDispensed || s == TransactionCanceled) {
      assert NextSlot(s, if s == Idle then SelectTicket else DispenseTicket) != s;
    }
  }

  /** Every setState call of a handler names idle, waiting-for-money or
      ticket-dispensed, and each of those three is named by some handler. */
  lemma SetStateTargets(b: Behaviour, a: Action, s: Slot)
    ensures Respond(b, a).target.Some? ==> Targetable(Respond(b, a).target.value)
    ensures (exists b': Behaviour, a': Action :: Respond(b', a').target == Some(s)) ==> Targetable(s)
    ensures Targetable(s) ==> exists b': Behaviour, a': Action :: Respond(b', a').target == Some(s)
  {
    if exists b': Behaviour, a': Action :: Respond(b', a').target == Some(s) {
      var b': Behaviour, a': Action :| Respond(b', a').target == Some(s);
      assert Targetable(Respond(b', a').target.value);
    }
    if Targetable(s) {
      var b' := if s == WaitingForMoney then IdleBehaviour else MoneyReceivedBehaviour;
      var a' := if s == WaitingForMoney then SelectTicket else if s == Idle then CancelTransaction else DispenseTicket;
      assert Respond(b', a').target == Some(s);
    }
  }

  // ---------------------------------------------------------------------------
  // Sequences of actions
  // ---------------------------------------------------------------------------

  /** A run of n actions prints exactly n lines and keeps what was printed before. */
  lemma {:induction false} RunAppendsOnePerAction(c: Config, acts: seq<Action>)
    ensures |Run(c, acts).log| == |c.log| + |acts|
    ensures Run(c, acts).log[..|c.log|] == c.log
    decreases |acts|
  {
    if acts != [] {
      var c' := Step(c, acts[0]);
      RunAppendsOnePerAction(c', acts[1..]);
      assert Run(c', acts[1..]).log[..|c.log|] == c'.log[..|c.log|];
    }
  }

  /** Running from a slot that only setState targets can name never leaves those slots. */
  lemma {:induction false} RunStaysTargetable(c: Config, acts: seq<Action>)
    requires Targetable(c.current)
    ensures Targetable(Run(c, acts).current)
    decreases |acts|
  {
    if acts != [] {
      RunStaysTargetable(Step(c, acts[0]), acts[1..]);
    }
  }

  /** From a fresh machine exactly idle, waiting-for-money and ticket-dispensed are
      reachable; money-received and transaction-canceled never become active. */
  lemma ReachableSlots(s: Slot)
    ensures Reachable(s) <==> Targetable(s)
  {
    if Reachable(s) {
      var acts: seq<Action> :| Run(Initial(), acts).current == s;
      RunStaysTargetable(Initial(), acts);
    }
    if s == Idle {
      assert Run(Initial(), []).current == s;
    } else if s == WaitingForMoney {
      assert Run(Initial(), [SelectTicket]).current == s;
    } else if s == TicketDispensed {
      assert Run(Initial(), [SelectTicket, DispenseTicket]).current == s;
    }
  }

  /** Once ticket-dispensed or transaction-canceled is active, no run leaves it. */
  lemma {:induction false} AbsorbingRun(c: Config, acts: seq<Action>)
    requires c.current == TicketDispensed || c.current == TransactionCanceled
    ensures Run(c, acts).current == c.current
    decreases |acts|
  {
    if acts != [] {
      AbsorbingRun(Step(c, acts[0]), acts[1..]);
    }
  }

  /** Two slots whose objects share a class print the same lines for every run, and
      at every point the slots they are in again share a class: waiting-for-money
      cannot be told apart from money-received by what the machine prints. */
  lemma {:induction false} SameBehaviourSameRun(s1: Slot, s2: Slot, log: seq<string>, acts: seq<Action>)
    requires BehaviourOf(s1) == BehaviourOf(s2)
    ensures Run(Config(s1, log), acts).log == Run(Config(s2, log), acts).log
    ensures BehaviourOf(Run(Config(s1, log), acts).current) == BehaviourOf(Run(Config(s2, log), acts).current)
    decreases |acts|
  {
    if acts != [] {
      var c1, c2 := Step(Config(s1, log), acts[0]), Step(Config(s2, log), acts[0]);
      assert c1.log == c2.log;
      SameBehaviourSameRun(c1.current, c2.current, c1.log, acts[1..]);
    }
  }

  /** Cancelling any number of times from idle stays idle and prints
      "Нечего отменять." once per call. */
  lemma {:induction false} CancelFromIdleIdempotent(log: seq<string>, n: nat)
    ensures Run(Config(Idle, log), Repeat(CancelTransaction, n)) == Config(Idle, log + Repeat("Нечего отменять.", n))
    decreases n
  {
    if n > 0 {
      var acts := Repeat(CancelTransaction, n);
      assert acts[1..] == Repeat(CancelTransaction, n - 1);
      assert Step(Config(Idle, log), acts[0]) == Config(Idle, log + ["Нечего отменять."]);
      CancelFromIdleIdempotent(log + ["Нечего отменять."], n - 1);
      assert log + ["Нечего отменять."] + Repeat("Нечего отменять.", n - 1) == log + Repeat("Нечего отменять.", n);
    }
  }

  /** The fixed script of the entry point: select, insert 100, dispense, cancel. */
  function Script(): (acts: seq<Action>)
    ensures |Run(Initial(), acts).log| == |acts| == 4
    ensures Run(Initial(), acts).current == TicketDispensed
  {
    [SelectTicket, InsertMoney(100), DispenseTicket, CancelTransaction]
  }

  /** The script ends in ticket-dispensed after printing its four lines in order. */
  lemma ScriptOutcome()
    ensures Run(Initial(), Script()) == Config(TicketDispensed, [
      "Билет выбран. Внесите деньги.",
      "Деньги уже внесены.",
      "Билет выдан. Спасибо за покупку!",
      "Транзакция завершена. Нечего отменять."])
  {
  }
}
