# Ticket vending machine — a verified model

The repository is a small demonstration of the state pattern in Java. A
`TicketMachine` holds five state objects: idle, waiting-for-money,
money-received, ticket-dispensed and transaction-canceled. One of them is
active (`currentState`). The machine offers four actions: select a ticket,
insert money, dispense the ticket, cancel the transaction. Each action is
handed to the active state object. Its handler prints one fixed Russian line
and may call `setState` to make another state object active. The entry point
runs a fixed script of four actions on a fresh machine.

The model has two modules.

- `States` (`states.dfy`) is the pure transition table. `Slot` names the five
  state objects. `Behaviour` names the four handler classes. `BehaviourOf`
  says which class each object is built from. `Respond` gives each class's
  answer to each action: the printed line and the slot passed to `setState`, if
  any. `NextSlot`, `Output`, `Step` and `Run` lift this to one action and to a
  sequence of actions on a `Config` (active slot plus printed lines). The
  lemmas prove what the transition structure implies: which slots are
  reachable, which are absorbing, which actions never move the machine, and
  that waiting-for-money cannot be told apart from money-received.
- `Machine` (`machine.dfy`) is the object. `TicketMachine` has a mutable
  `current` slot and a `log: seq<string>` that stands for the console. One
  handler method per Java state class prints through `PrintLine` and moves
  through `SetState`. The four public actions dispatch on the class of the
  active object. Every method's postcondition gives the new `current` and
  `log`, and nothing else can change. For the handler and action methods the
  new state is given in terms of the `States` table.
  `RunScript` is the entry point's script.

The waiting-for-money object is built from the money-received class (line 142
of src/Main.java). The model keeps this: `BehaviourOf(WaitingForMoney)` is
`MoneyReceivedBehaviour`. So right after a ticket is selected, inserting money
prints "Деньги уже внесены." and dispensing delivers the ticket.

The ticket-dispensed and transaction-canceled classes print different lines
for different actions (for example "Билет уже выдан." for a second dispense,
src/Main.java:92). The model uses the code's exact strings.

## Model

| member | source | states |
|---|---|---|
| Machine.TicketMachine.constructor | src/Main.java:140-148 | a fresh machine is idle and has printed nothing |
| Machine.TicketMachine.PrintLine | src/Main.java:21 | one printed line is appended after everything printed before; the active slot is untouched |
| Machine.TicketMachine.SetState | src/Main.java:150-152 | the given slot becomes active and nothing is printed |
| Machine.TicketMachine.HandleIdle | src/Main.java:19-38 | prints the idle class's line for the action; only select moves, to waiting-for-money; the rest keep the slot |
| Machine.TicketMachine.HandleMoneyReceived | src/Main.java:49-69 | prints the money-received class's line; dispense moves to ticket-dispensed, cancel to idle, select and insert keep the slot |
| Machine.TicketMachine.HandleTicketDispensed | src/Main.java:80-98 | prints the ticket-dispensed class's line and never changes the slot |
| Machine.TicketMachine.HandleTransactionCanceled | src/Main.java:109-127 | prints the transaction-canceled class's line and never changes the slot |
| Machine.TicketMachine.Dispatch | src/Main.java:154-168 | the handler of the active object's class runs: new slot is NextSlot, exactly one line Output is appended |
| Machine.TicketMachine.SelectTicket | src/Main.java:154-156 | one table step for select: new slot and one appended line, nothing else changes |
| Machine.TicketMachine.InsertMoney | src/Main.java:158-160 | one table step for insert: the slot never changes, one line is appended |
| Machine.TicketMachine.DispenseTicket | src/Main.java:162-164 | one table step for dispense: new slot and one appended line |
| Machine.TicketMachine.CancelTransaction | src/Main.java:166-168 | one table step for cancel: new slot and one appended line |
| Machine.RunScript | src/Main.java:193-199 | the script on a fresh machine ends in ticket-dispensed after printing its four lines in order, and agrees with Run |
| States.BehaviourOf | src/Main.java:141-145 | the class each stored object is built from: waiting-for-money and money-received exactly share the money-received class, every other slot has a class of its own |
| States.Respond | src/Main.java:19-127 | the sixteen overrides: setState is called exactly by idle's select and money-received's dispense and cancel, always naming idle, waiting-for-money or ticket-dispensed; no answer depends on the inserted amount |
| States.NextSlot | src/Main.java:154-168 | after dispatch the slot is unchanged or one of the three setState targets; insert never moves; ticket-dispensed and transaction-canceled never move; waiting-for-money moves where money-received moves |
| States.Output | src/Main.java:154-168 | the dispatched line does not depend on the inserted amount, and waiting-for-money prints what money-received prints |
| States.Step | src/Main.java:154-168 | one dispatched action appends exactly one line, the dispatched one, after the lines printed before |
| States.Script | src/Main.java:196-199 | the entry point's four calls, which from a fresh machine print four lines and end in ticket-dispensed |
| States.IdleActions | src/Main.java:19-38 | from idle, select prints its line and moves to waiting-for-money; insert, dispense and cancel print their lines and stay idle |
| States.WaitingActsAsMoneyReceived | src/Main.java:141-145 | waiting-for-money has the money-received class: same lines, dispense to ticket-dispensed, cancel to idle, select and insert change nothing |
| States.InsertMoneyInert | src/Main.java:25-117 | inserting money never changes the slot, and the printed line does not depend on the amount |
| States.AbsorbingSlots | src/Main.java:80-127 | a slot no action leaves is exactly ticket-dispensed or transaction-canceled |
| States.SetStateTargets | src/Main.java:22-68 | every setState call names idle, waiting-for-money or ticket-dispensed, and each of the three is named by some handler |
| States.RunAppendsOnePerAction | src/Main.java:150-168 | a run of n actions appends exactly n lines and keeps earlier lines |
| States.RunStaysTargetable | src/Main.java:22-68 | a run that starts in idle, waiting-for-money or ticket-dispensed stays among them |
| States.ReachableSlots | src/Main.java:140-188 | the slots reachable from a fresh machine are exactly idle, waiting-for-money and ticket-dispensed |
| States.AbsorbingRun | src/Main.java:80-127 | no run leaves ticket-dispensed or transaction-canceled |
| States.SameBehaviourSameRun | src/Main.java:142-143 | two slots of the same class print the same lines on every run and stay in slots of the same class |
| States.CancelFromIdleIdempotent | src/Main.java:35-38 | cancelling n times from idle stays idle and prints "Нечего отменять." n times |
| States.ScriptOutcome | src/Main.java:193-199 | the script from a fresh machine ends in ticket-dispensed with its four lines in order |

## Left out

- Console output: `System.out.println` is modelled as appending to the `log` sequence; no real I/O.
- The `double amount` of `insertMoney` is an unbounded `int` in the model. It is never read, so floating point does not matter.
- The unused `java.util.Scanner` import has no counterpart.
- Object identity and the back-reference from each state object to its machine: state objects are the five `Slot` values, and a handler's `machine.setState(...)` is a call of `SetState` on the machine itself.
- The `TicketMachineState` interface is the `Behaviour` datatype plus the `match` in `Dispatch`; there is no dynamic dispatch.
- The five getters (`getIdleState` to `getTransactionCanceledState`) each return the object held in one field. With objects represented by slots, the getter for a field is that slot itself, so the handlers name the slot directly. That `getMoneyReceivedState` and `getTransactionCanceledState` are never used shows up as `States.SetStateTargets` and `States.ReachableSlots`.
- The entry point `Main.main` is `Machine.RunScript`, which returns the machine so that its final slot and printed lines can be stated.
