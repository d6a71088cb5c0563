/**
 The ticket vending machine as an object whose active state is a mutable field.

 Each of the four user actions is dispatched to the handler class of the active
 state object; the handler prints its line (appended to `log`, which stands for
 the console) and may call `SetState`. Every method's postcondition gives the
 new `current` and `log`; those of the handler and action methods tie them to
 the transition table of module States.
 */
module Machine {
  import opened States

  class TicketMachine {
    /** The active state object, named by its slot. */
    var current: Slot
    /** Every line printed so far, oldest first. */
    var log: seq<string>

    /** The machine as an observer sees it. */
    function State(): Config
      reads this
    {
      Config(current, log)
    }

    /** A fresh machine holds its five state objects and starts idle. */
    constructor ()
      ensures current == Idle && log == []
      ensures State() == Initial()
    {
      current := Idle;
      log := [];
    }

    /** Makes `s` the active state object; prints nothing. */
    method SetState(s: Slot)
      modifies this`current
      ensures current == s
    {
      current := s;
    }

    /** The console: one line after everything printed before. */
    method PrintLine(line: string)
      modifies this`log
      ensures log == old(log) + [line]
    {
      log := log + [line];
    }

    /** The overrides of the idle class: selecting a ticket moves to the
        waiting-for-money object; the other actions only print. */
    method HandleIdle(a: Action)
      modifies this
      ensures log == old(log) + [Respond(IdleBehaviour, a).message]
      ensures current == Resolve(Respond(IdleBehaviour, a), old(current))
      ensures a.SelectTicket? ==> current == WaitingForMoney
      ensures !a.SelectTicket? ==> current == old(current)
    {
      match a
      case SelectTicket =>
        PrintLine(TicketSelected);
        SetState(WaitingForMoney);
      case InsertMoney(_) =>
        PrintLine(SelectTicketFirst);
      case DispenseTicket =>
        PrintLine(SelectTicketFirst);
      case CancelTransaction =>
        PrintLine(NothingToCancel);
    }

    /** The overrides of the money-received class, shared by the waiting-for-money
        and money-received objects: dispensing moves to ticket-dispensed,
        cancelling to idle, the other actions only print. */
    method HandleMoneyReceived(a: Action)
      modifies this
      ensures log == old(log) + [Respond(MoneyReceivedBehaviour, a).message]
      ensures current == Resolve(Respond(MoneyReceivedBehaviour, a), old(current))
      ensures a.DispenseTicket? ==> current == TicketDispensed
      ensures a.CancelTransaction? ==> current == Idle
      ensures a.SelectTicket? || a.InsertMoney? ==> current == old(current)
    {
      match a
      case SelectTicket =>
        PrintLine(TicketAlreadySelected);
      case InsertMoney(_) =>
        PrintLine(MoneyAlreadyInserted);
      case DispenseTicket =>
        PrintLine(TicketDispensedThanks);
        SetState(TicketDispensed);
      case CancelTransaction =>
        PrintLine(TransactionCanceledMsg);
        SetState(Idle);
    }

    /** The overrides of the ticket-dispensed class: they only print. */
    method HandleTicketDispensed(a: Action)
      modifies this
      ensures log == old(log) + [Respond(TicketDispensedBehaviour, a).message]
      ensures current == old(current)
    {
      match a
      case SelectTicket =>
        PrintLine(FinishedStartOver);
      case InsertMoney(_) =>
        PrintLine(FinishedStartOver);
      case DispenseTicket =>
        PrintLine(TicketAlreadyDispensed);
      case CancelTransaction =>
        PrintLine(FinishedNothingToCancel);
    }

    /** The overrides of the transaction-canceled class: they only print. */
    method HandleTransactionCanceled(a: Action)
      modifies this
      ensures log == old(log) + [Respond(TransactionCanceledBehaviour, a).message]
      ensures current == old(current)
    {
      match a
      case SelectTicket =>
        PrintLine(CanceledStartOver);
      case InsertMoney(_) =>
        PrintLine(CanceledStartOver);
      case DispenseTicket =>
        PrintLine(ProcessCanceled);
      case CancelTransaction =>
        PrintLine(AlreadyCanceled);
    }

    /** Hands `a` to the class of the active state object. */
    method Dispatch(a: Action)
      modifies this
      ensures current == NextSlot(old(current), a)
      ensures log == old(log) + [Output(old(current), a)]
    {
      match BehaviourOf(current)
      case IdleBehaviour => HandleIdle(a);
      case MoneyReceivedBehaviour => HandleMoneyReceived(a);
      case TicketDispensedBehaviour => HandleTicketDispensed(a);
      case TransactionCanceledBehaviour => HandleTransactionCanceled(a);
    }

    method SelectTicket()
      modifies this
      ensures current == NextSlot(old(current), Action.SelectTicket)
      ensures log == old(log) + [Output(old(current), Action.SelectTicket)]
      ensures State() == Step(old(State()), Action.SelectTicket)
    {
      Dispatch(Action.SelectTicket);
    }

    method InsertMoney(amount: int)
      modifies this
      ensures current == old(current)
      ensures current == NextSlot(old(current), Action.InsertMoney(amount))
      ensures log == old(log) + [Output(old(current), Action.InsertMoney(amount))]
      ensures State() == Step(old(State()), Action.InsertMoney(amount))
    {
      Dispatch(Action.InsertMoney(amount));
    }

    method DispenseTicket()
      modifies this
      ensures current == NextSlot(old(current), Action.DispenseTicket)
      ensures log == old(log) + [Output(old(current), Action.DispenseTicket)]
      ensures State() == Step(old(State()), Action.DispenseTicket)
    {
      Dispatch(Action.DispenseTicket);
    }

    method CancelTransaction()
      modifies this
      ensures current == NextSlot(old(current), Action.CancelTransaction)
      ensures log == old(log) + [Output(old(current), Action.CancelTransaction)]
      ensures State() == Step(old(State()), Action.CancelTransaction)
    {
      Dispatch(Action.CancelTransaction);
    }
  }

  /** The entry point's fixed script on a fresh machine: it ends with the ticket
      dispensed, having printed four lines in order. */
  method RunScript() returns (m: TicketMachine)
    ensures fresh(m)
    ensures m.State() == Run(Initial(), Script())
    ensures m.current == TicketDispensed
    ensures m.log == [
      "Билет выбран. Внесите деньги.",
      "Деньги уже внесены.",
      "Билет выдан. Спасибо за покупку!",
      "Транзакция завершена. Нечего отменять."]
  {
    m := new TicketMachine();
    m.SelectTicket();
    m.InsertMoney(100);
    m.DispenseTicket();
    m.CancelTransaction();
    ScriptOutcome();
  }
}
