# Design-pattern demos: stateful cores in Dafny

This project models the four stateful demos of a collection of object-oriented
design-pattern examples written in Java, and proves what each promises:

- **Beverage vending machine** (`state_pattern.dfy`, module `StatePattern`):
  a `VendingMachine` holds one of three states (no money, has money, sold) and
  forwards `insertMoney`, `ejectMoney`, `selectBeverage` and `vend` to it; the
  state prints one line and may call `setState`. Each state class becomes a
  reaction function, the machine a class with a mutable `state` field and a
  ghost history (`requests`, `log`) tied to pure run functions.
- **Classroom and its iterator** (`iterator_pattern.dfy`, module
  `IteratorPattern`): a fixed-size `Student` array filled in place through a
  fill pointer, and an iterator sharing that array. The iterator's `hasNext`
  reads one slot past the end of a full classroom; this is modelled as a
  `Failure(IndexOutOfBounds)` result and reported under Findings.
- **Composite menu** (`composite_pattern.dfy`, module `CompositePattern`):
  menu trees as a datatype, the mutable `Menu` object (child list, cached
  iterator) as a class, and the stack-based pre-order `MenuComponentIterator`
  as a class over a stack of frames (a child list and a cursor).
- **Smart-home commands** (`command_patterns.dfy`, module `CommandPatterns`):
  `SmartLamp` and `SmartLock` objects, the three concrete commands as a
  datatype that refers to its device, and a two-button `RemoteControl`.

`wrappers.dfy` holds the `Option` and `Result` datatypes used for Java's
`null` returns and thrown exceptions.

Where a comment in the source and its code disagree, the model follows the
code: a new `SmartLamp` is off although its comment says on, and the vending
machine has the three states the code implements, not the four its opening
comment announces.

## Model

| member | source | states |
|---|---|---|
| `StatePattern.SoldReacts` | StatePattern.java:42-69 | In the sold state only `vend` calls `setState`, to no money, printing "Vending..."; the other three requests only print. |
| `StatePattern.NoMoneyReacts` | StatePattern.java:72-99 | With no money only `insertMoney` calls `setState`, to has money, printing "Money inserted."; eject, select and vend only print. |
| `StatePattern.HasMoneyReacts` | StatePattern.java:102-130 | With money in, `ejectMoney` moves to no money and `selectBeverage` to sold; `insertMoney` and `vend` only print. |
| `StatePattern.React` | StatePattern.java:157-168 | The machine forwards each request to the current state; a requested transition always leads to a different state. |
| `StatePattern.ChangesOnlyOnTableMoves` | StatePattern.java:50-129 | The state changes exactly on the four table moves (no money + insert, has money + eject or select, sold + vend) and stays put on the other eight pairs. |
| `StatePattern.MessageIdentifiesMove` | StatePattern.java:50-129 | The twelve printed lines are pairwise distinct, so a line determines the (state, request) pair that printed it. |
| `StatePattern.SoldEnteredOnlyBySelecting` | StatePattern.java:121-124 | The only way into the sold state is `selectBeverage` with money in. |
| `StatePattern.HasMoneyEnteredOnlyByInserting` | StatePattern.java:80-83 | The only way into the has-money state is `insertMoney` with no money. |
| `StatePattern.Visited` | StatePattern.java:146-177 | The states passed through by a request sequence: one more than the requests, starting at the start state. |
| `StatePattern.Outputs` | StatePattern.java:50-129 | Serving a request sequence prints exactly one line per request. |
| `StatePattern.VisitedStep` | StatePattern.java:157-177 | Each consecutive pair of visited states is one forwarding step of the machine. |
| `StatePattern.OutputAt` | StatePattern.java:157-168 | The k-th printed line is the line the k-th visited state prints for the k-th request. |
| `StatePattern.SoldRequiresPurchase` | StatePattern.java:65-68 | Between a vend from sold and the next time the machine is sold, money was inserted with no money in and then a beverage selected. |
| `StatePattern.VendsSeparatedByPurchase` | StatePattern.java:67 | Between two "Vending..." lines the log holds a "Money inserted." line followed by a "Beverage selected." line. |
| `StatePattern.VendingMachine.constructor` | StatePattern.java:146-154 | A new machine is in the no-money state with an empty history. |
| `StatePattern.VendingMachine.SetState` | StatePattern.java:175-177 | `setState` installs exactly the given state. |
| `StatePattern.VendingMachine.Forward` | StatePattern.java:157-168 | Delegation: the current state's line is returned and logged, the state becomes the transition's target, and the history invariant is kept. |
| `StatePattern.VendingMachine.InsertMoney` | StatePattern.java:157-159 | From no money: has money and "Money inserted."; from any other state the state is unchanged. |
| `StatePattern.VendingMachine.EjectMoney` | StatePattern.java:160-162 | From has money: no money and "Ejecting money..."; otherwise the state is unchanged. |
| `StatePattern.VendingMachine.SelectBeverage` | StatePattern.java:163-165 | From has money: sold and "Beverage selected."; otherwise the state is unchanged. |
| `StatePattern.VendingMachine.Vend` | StatePattern.java:166-168 | From sold: no money and "Vending..."; otherwise the state is unchanged. |
| `StatePattern.Demo` | StatePattern.java:194-203 | The demo (eject, vend, insert, select, vend on a new machine) prints the five expected lines in order and ends with no money. |
| `IteratorPattern.Student.constructor` | IteratorPattern.java:18-20 | A new student has null name and number. |
| `IteratorPattern.Student.GetName` | IteratorPattern.java:22-24 | `getName` answers the name field, null until a name is set. |
| `IteratorPattern.Student.GetNumber` | IteratorPattern.java:26-28 | `getNumber` answers the number field, null until a number is set. |
| `IteratorPattern.Student.SetNumber` | IteratorPattern.java:30-32 | After `setNumber(n)`, `getNumber` answers `n` and the name is untouched. |
| `IteratorPattern.Student.SetName` | IteratorPattern.java:34-36 | After `setName(n)`, `getName` answers `n` and the number is untouched. |
| `IteratorPattern.Classroom.constructor` | IteratorPattern.java:48-51 | `Classroom(n)`: `n` null slots, `position` 0, empty roster, invariant established. |
| `IteratorPattern.Classroom.AddStudent` | IteratorPattern.java:54-65 | With a free slot: the student goes to slot `position`, `position` grows by one and the roster gains the entry at its end; when full: nothing changes and "Max number reached" is reported. Other slots are untouched and the prefix-filled/suffix-null invariant is kept. |
| `IteratorPattern.Classroom.CreateIterator` | IteratorPattern.java:68-70 | A new iterator over the same array, with its cursor at 0. |
| `IteratorPattern.HasNextAsWritten` | IteratorPattern.java:102-106 | `hasNext` as written: fails (out-of-bounds read) exactly when the cursor equals the array length; otherwise true exactly when the slot under the cursor is filled. |
| `IteratorPattern.HasNextIntended` | IteratorPattern.java:102-106 | The intended `hasNext`: true exactly when the cursor is inside the array on a filled slot; agrees with the written one at every cursor except the array length, where the written one fails. |
| `IteratorPattern.ClassroomIterator.constructor` | IteratorPattern.java:96-99 | The iterator shares the given array and starts at slot 0. |
| `IteratorPattern.ClassroomIterator.HasNext` | IteratorPattern.java:102-106 | Computes `hasNext` as written on the shared array, including the failing read. |
| `IteratorPattern.ClassroomIterator.HasNextFixed` | IteratorPattern.java:102-106 | Computes the corrected `hasNext`. |
| `IteratorPattern.ClassroomIterator.Next` | IteratorPattern.java:109-113 | Returns the slot under the cursor and advances the cursor by one; reading past the end fails and leaves the cursor alone. |
| `IteratorPattern.ListStudents` | IteratorPattern.java:125-129 | The client loop prints the whole roster in insertion order; it then ends normally when the classroom has a free slot, and fails with the out-of-bounds read exactly when the classroom is full. |
| `IteratorPattern.ListStudentsFixed` | IteratorPattern.java:125-129 | With the corrected `hasNext` the client loop prints the whole roster in insertion order for every classroom. |
| `IteratorPattern.Demo` | IteratorPattern.java:119-133 | The demo prints "Theodore 0234", "Janet 3423", "Michael 2743" in that order and ends normally. |
| `IteratorPattern.FullClassroomDemo` | IteratorPattern.java:102-106 | A one-seat classroom holding one student makes the client loop print "Theodore 0234" and then fail with the out-of-bounds read. |
| `CompositePattern.AddTo` | CompositePattern.java:23-25 | `add` on a menu appends the component after the existing children, which are kept in order; on a menu item it throws. |
| `CompositePattern.RemoveFrom` | CompositePattern.java:27-29 | `remove` on a menu takes one occurrence of the component out of the children (nothing when it is absent); on a menu item it throws. |
| `CompositePattern.RemoveFirst` | CompositePattern.java:119-121 | Removal takes exactly one copy of the element out of the list, as multisets. |
| `CompositePattern.RemoveFirstAbsent` | CompositePattern.java:119-121 | Removing an element that is not in the list leaves it unchanged. |
| `CompositePattern.RemoveFirstCutsFirstOccurrence` | CompositePattern.java:119-121 | Removing a present element cuts out its first occurrence and keeps the order of everything else. |
| `CompositePattern.PriceOf` | CompositePattern.java:35-37 | `getPrice` answers the price of a menu item and throws on a menu. |
| `CompositePattern.ChildIterator` | CompositePattern.java:84-97 | A menu item's iterator is empty; a sub-menu's iterator yields exactly the sub-menu's descendants. |
| `CompositePattern.FlattenMembers` | CompositePattern.java:150-184 | The pre-order listing of a list of components holds exactly those components and everything below them. |
| `CompositePattern.DescendantsAreBelow` | CompositePattern.java:150-184 | The traversal below a component yields exactly the components that hang below it. |
| `CompositePattern.MenuComponentIterator.constructor` | CompositePattern.java:153-155 | The new iterator's stack holds just the given iterator. |
| `CompositePattern.MenuComponentIterator.HasNext` | CompositePattern.java:158-169 | Pops only exhausted iterators from the top and nothing still pending is lost; answers true exactly when something remains, which is exactly when the stack is not empty, and then the top iterator is live. |
| `CompositePattern.MenuComponentIterator.Next` | CompositePattern.java:172-183 | Null when nothing remains; otherwise returns the first pending component and the pending sequence loses exactly that element (its own descendants come next). |
| `CompositePattern.Drain` | CompositePattern.java:208-211 | The client `while (hasNext()) next()` loop collects everything the iterator had pending, in order, and leaves it exhausted. |
| `CompositePattern.Traverse` | CompositePattern.java:150-184 | Iterating a fresh iterator over a tree yields its descendants in pre-order, root excluded, and yields exactly the components below the root. |
| `CompositePattern.Menu.constructor` | CompositePattern.java:104-110 | A new menu has its name, no children and no cached iterator. |
| `CompositePattern.Menu.Add` | CompositePattern.java:114-116 | The menu's new value is `add` applied to its old value. |
| `CompositePattern.Menu.Remove` | CompositePattern.java:119-121 | The menu's new value is `remove` applied to its old value. |
| `CompositePattern.Menu.CreateIterator` | CompositePattern.java:135-141 | The first call builds and caches an iterator over the children, pending their pre-order listing; every later call returns that same object. |
| `CompositePattern.DemoListing` | CompositePattern.java:191-205 | The pre-order listing of the demo's main menu is its three items, then the dessert menu, then the dessert menu's two items. |
| `CompositePattern.Demo` | CompositePattern.java:190-212 | The demo yields Pizza, Pasta, Beef Roast, Desert Menu, Supangle, Puding in that order. |
| `CommandPatterns.SmartLamp.constructor` | CommandPatterns.java:15-19 | A new lamp carries its name and is off. |
| `CommandPatterns.SmartLamp.On` | CommandPatterns.java:22-24 | The lamp is on afterwards whatever it was before (so `on` is idempotent); only `isOn` may change. |
| `CommandPatterns.SmartLamp.Off` | CommandPatterns.java:27-29 | The lamp is off afterwards whatever it was before; only `isOn` may change. |
| `CommandPatterns.SmartLock.constructor` | CommandPatterns.java:37-39 | A new lock carries its name and is unlocked. |
| `CommandPatterns.SmartLock.Lock` | CommandPatterns.java:43-45 | Locked afterwards whatever it was before; only `isLocked` may change. |
| `CommandPatterns.SmartLock.Unlock` | CommandPatterns.java:48-50 | Unlocked afterwards whatever it was before; only `isLocked` may change. |
| `CommandPatterns.Execute` | CommandPatterns.java:85-123 | `LockCommand` locks, `UnlockCommand` unlocks and `LightOnCommand` turns on their own device, and no other object changes. |
| `CommandPatterns.RemoteControl.constructor` | CommandPatterns.java:140-143 | The remote holds the two given commands. |
| `CommandPatterns.RemoteControl.Button1Pressed` | CommandPatterns.java:151-153 | Executes exactly the first button's command; only its device may change. |
| `CommandPatterns.RemoteControl.Button2Pressed` | CommandPatterns.java:155-157 | Executes exactly the second button's command; only its device may change. |
| `CommandPatterns.Demo` | CommandPatterns.java:163-184 | Building the devices, commands and three remotes changes no device: the lamp stays off and the lock unlocked. |

## Left out

- Console output: every `System.out`/`System.err` line is a returned string (or a ghost log), not an effect; a line printed before an exception is returned beside the failure.
- Concurrency: the demos are single-threaded and so is the model.
- `VendingMachine` getters (`getSoldState`, `getNoMoneyState`, `getHasMoneyState`): states are values here, so the getters are the constants `Sold`, `NoMoney`, `HasMoney`, and "the current state is one of the machine's three state objects" holds by the type.
- `VendingMachine.vendBeverage`: never called by any state or the demo.
- The sold-out state announced in the opening comment of StatePattern.java: it is not implemented in the code.
- `Classroom(n)` with a negative `n` (Java throws `NegativeArraySizeException`): the capacity is a `nat`.
- `Student` setters called with `null`, and the `remove` default of `java.util.Iterator`: not used by the demo.
- `print` of `MenuItem` and `Menu`: console output, and the item's line formats a `double`; the composite demo yields component names instead of printed lines.
- `MenuItem.price` is a `real` that is only stored and returned; no floating-point behaviour is modelled.
- `getName` and `createIterator` defaults of `MenuComponent`: both subclasses override them, so they are never reached; a name is the datatype's `name` field.
- Children of a menu are tree values: a sub-menu object changed after it was added to its parent is not seen through the parent, and `remove` compares by value, where Java compares object identity.
- The list iterator under a `MenuComponentIterator` is a snapshot of the child list: Java's fail-fast check on a list changed during iteration is not modelled.
- `CompositePattern.MenuComponentIterator.Next`: a sub-menu's iterator is pushed as a fresh frame over its children, where Java pushes that sub-menu's cached iterator; the two differ only when that cached iterator was already consumed (the same `Menu` object reached twice, or iterated before).
- `CompositePattern.Demo`: the Java demo wraps `mainMenu.createIterator()` in a second `MenuComponentIterator`; the model drives the menu's own iterator directly. The wrapped version yields the same names only because the dessert menu's cached iterator object is shared by both stacks, and that sharing is not modelled.
- The lambda and method-reference buttons of the command demo are modelled as the command objects that make the same call.
- `SmartLamp.name` and `SmartLock.name` are never reassigned, so they are constants here.

## Findings

| source | as written | input that shows it | evidently intended | confidence | as-written member | corrected member |
|---|---|---|---|---|---|---|
| IteratorPattern.java:103 | `hasNext` tests `count<=students.length` and then reads `students[count]` | a `Classroom(1)` holding one student: after the first `next`, `hasNext` reads slot 1 of a one-slot array | `count<students.length`, answering false at the end of a full classroom | high (not executed) | `IteratorPattern.FullClassroomDemo` | `IteratorPattern.ListStudentsFixed` |
