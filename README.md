# Design-pattern examples: canvas undo and replay, chat commands, storage proxy, pizza decorators

This project is a Dafny model of four C++ design-pattern examples, with proofs about the model.

- **Canvas undo and replay** (`canvas_replay.dfy`, module `CanvasReplay`). This is the memento, null object and iterator example. A `Canvas` keeps its current shapes. After every `addShape` and `clearAll` it stores an immutable `CanvasMemento` in its `History`. On `undo` it adopts whatever the history hands back. There are two kinds of history:
  - `CanvasHistory` is a stack of mementos: `undo` pops one and returns the new top.
  - `NullHistory` is a single slot: `addState` overwrites it and `undo` returns it unchanged.

  A `ForwardsIterator` is an index cursor over the live vector of a `CanvasHistory`. `ReplayCanvas::replay` drives it to the end.
- **Chat commands** (`chat_commands.dfy`, module `ChatCommands`). A `ChatGroup` has a subscriber list that supports subscribe, unsubscribe-by-name and publish. A `SendMessageCommand` publishes one message to one group. A chain of responsibility (`BaseHandler`, `NotEmptyValidator`, `LengthValidator`, `PostMessageHandler`) validates the command and executes it only if every validator lets it through.
- **Storage proxy** (`storage_proxy.dfy`, module `StorageProxy`). A `SecureStorageProxy` hands out what its `SecureStorage` holds only when its access code is 1431.
- **Pizza decorators** (`pizza_decorator.dfy`, module `PizzaDecorator`). `Toppings`, `MushroomToppings` and `ExtraCheese` wrap a pizza and extend its description.

## How the model is built

- **Objects become classes.** Objects whose fields the C++ code changes in place become Dafny classes with the same fields: `CanvasHistory.oldStates`, `NullHistory.state`, `ForwardsIterator.currentPosition`, `Canvas.shapes`, `ReplayCanvas.shapes`, `ChatGroup.subscribers` and `Handler.next`. Each mutating method says, with `modifies`, what it changes and what the new state is.
- **Values become datatypes.** Immutable values become datatypes: `CanvasMemento`, subscribers, storages and pizzas.
- **Virtual dispatch becomes a tagged choice.** Dafny classes have no inheritance here, so each virtual call site becomes a tagged choice:
  - `History *` is `HistoryRef`, holding either a `CanvasHistory` or a `NullHistory` object.
  - The four handler classes are one `Handler` class with a `kind` tag.
  - `Storage` and `Pizza` are datatypes with one constructor per class.
- **A pure layer for the canvas.** The canvas classes are proved against pure functions on their abstract values: `HistoryValue`, `CanvasValue`, and `Run` over a sequence of client calls. The lemmas about undo, re-synchronisation and the null object are stated on those functions.
- **Printing becomes returned traces.** `ChatGroup.Publish` returns one `Delivery` per `notify` call. `ReplayCanvas.Replay` returns the shapes it would print at each step.
- **Immutability comes for free.** Mementos, storages and pizzas are immutable values. So a recorded snapshot cannot change afterwards, and repeated `GetContents` calls on one proxy give the same result.

### Behaviour of the code worth noting

- `CanvasHistory` starts with no snapshot. Undo needs at least two stored snapshots. Below that, `pop_back` followed by `back` is undefined behaviour, so `CanvasHistory.Undo` and `Canvas.Undo` require it. There is no clamping and no error value.
- `ForwardsIterator::isFinished` tests `position >= size`, not `==`. The iterator holds a reference to the live vector, not a copy. So snapshots recorded after it was created are still iterated. After an undo has popped under it, the cursor may pass the end, and the iterator simply reports finished.
- `ForwardsIterator::next` uses `vector::at`, which throws `std::out_of_range` past the end. That is a defined error, so `Next` returns `OutOfRange` and leaves the cursor where it was. It does not require "not finished".
- Mementos hold only the shapes; there is no timestamp.

## Model

| member | source | states |
|---|---|---|
| CanvasReplay.RecordsOneSnapshot | behavioral/combination3/combination3.cpp:87-98 | with a CanvasHistory, addShape(x) makes the shapes the old ones followed by x and appends exactly one snapshot equal to them; clearAll empties the shapes and appends exactly one empty snapshot |
| CanvasReplay.StackUndoPopsOne | behavioral/combination3/combination3.cpp:59-63 | CanvasHistory undo on two or more snapshots removes exactly the last, keeps every earlier one in place, and returns the new last one |
| CanvasReplay.StepSyncs | behavioral/combination3/combination3.cpp:87-98 | every permitted addShape, clearAll or undo leaves the canvas shapes equal to the most recently stored snapshot, for both history kinds |
| CanvasReplay.RunSyncs | behavioral/combination3/combination3.cpp:87-98 | after any non-empty sequence of permitted calls, from any starting state, the shapes equal the latest stored snapshot |
| CanvasReplay.UndoRevertsAdd | behavioral/combination3/combination3.cpp:56-63 | with a CanvasHistory in sync with the canvas, undo right after addShape is permitted and restores both the previous shapes and the previous history |
| CanvasReplay.UndoRevertsAdds | behavioral/combination3/combination3.cpp:56-98 | with a CanvasHistory in sync, n addShape calls followed by n undos are all permitted and restore the canvas and its history exactly |
| CanvasReplay.NullUndoIsNeutral | behavioral/combination3/combination3.cpp:74-79 | with a NullHistory in sync with the canvas, undo changes neither the shapes nor the history |
| CanvasReplay.NullHistoryNeverFails | behavioral/combination3/combination3.cpp:69-80 | with a NullHistory every sequence of calls is defined and the history stays a single slot; afterwards an undo never changes the shapes |
| CanvasReplay.ForwardsIterator.constructor | behavioral/combination3/combination3.cpp:30 | the cursor starts at 0 over the given history |
| CanvasReplay.ForwardsIterator.Next | behavioral/combination3/combination3.cpp:31-38 | stated through IsFinished (position >= size, as isFinished tests): when not finished, returns the snapshot at the cursor and advances it by one; when finished, returns OutOfRange and leaves the cursor; keeps position <= size |
| CanvasReplay.CanvasHistory.constructor | behavioral/combination3/combination3.cpp:47-48 | a new CanvasHistory stores no snapshot |
| CanvasReplay.CanvasHistory.AddState | behavioral/combination3/combination3.cpp:56-58 | appends the snapshot at the end and keeps the rest |
| CanvasReplay.CanvasHistory.Undo | behavioral/combination3/combination3.cpp:59-63 | requires two snapshots; drops the last and returns the new last |
| CanvasReplay.CanvasHistory.GetForwardsIterator | behavioral/combination3/combination3.cpp:64-66 | returns a new iterator at position 0 that views this history's live sequence |
| CanvasReplay.NullHistory.constructor | behavioral/combination3/combination3.cpp:73 | the slot starts as the empty snapshot |
| CanvasReplay.NullHistory.AddState | behavioral/combination3/combination3.cpp:74-76 | overwrites the slot with the new snapshot |
| CanvasReplay.NullHistory.Undo | behavioral/combination3/combination3.cpp:77-79 | returns the slot unchanged and changes nothing |
| CanvasReplay.Canvas.constructor | behavioral/combination3/combination3.cpp:86 | empty shapes, the given history, which is not touched |
| CanvasReplay.Canvas.AddShape | behavioral/combination3/combination3.cpp:87-90 | shapes become the old shapes followed by the new one; the history records one snapshot equal to them (appended, or overwriting the slot); the canvas is in sync |
| CanvasReplay.Canvas.Undo | behavioral/combination3/combination3.cpp:91-94 | the canvas adopts what the history's undo returns: the previous snapshot for a CanvasHistory (one popped), the unchanged slot for a NullHistory |
| CanvasReplay.Canvas.ClearAll | behavioral/combination3/combination3.cpp:95-98 | shapes become empty and the history records one empty snapshot |
| CanvasReplay.Canvas.GetShapes | behavioral/combination3/combination3.cpp:99 | returns the current shapes |
| CanvasReplay.ReplayCanvas.constructor | behavioral/combination3/combination3.cpp:106 | holds a fresh iterator at position 0 over the given history |
| CanvasReplay.ReplayCanvas.Replay | behavioral/combination3/combination3.cpp:107-117 | from cursor p over N snapshots, takes exactly N - p steps showing the snapshots from p on in recording order; ends finished, with the shapes of the last snapshot whenever it took a step |
| CanvasReplay.NullCanvasScenario | behavioral/combination3/combination3.cpp:120-156 | the program's run: after four addShape calls and three undos over a NullHistory the shapes are still rhombus, triangle, square, circle |
| CanvasReplay.StackCanvasScenario | behavioral/combination3/combination3.cpp:47-63 | the same calls over an unseeded CanvasHistory: the three undos give [rhombus, triangle, square], [rhombus, triangle], [rhombus] |
| CanvasReplay.ReplayScenario | behavioral/combination3/combination3.cpp:26-38 | an iterator taken before a later clearAll still replays that snapshot, after the earlier ones in order |
| ChatCommands.Deliveries | behavioral/command_design_pattern.cpp:45-49 | one notification per list entry, in list order, each carrying the group name and the message |
| ChatCommands.RemoveByName | behavioral/command_design_pattern.cpp:42-44 | no entry with the name is left, nothing new appears, and a list without that name is unchanged |
| ChatCommands.RemoveByNameAppend | behavioral/command_design_pattern.cpp:42-44 | removal is entry by entry and keeps the relative order of what stays |
| ChatCommands.RemoveByNameSingle | behavioral/command_design_pattern.cpp:43 | a single entry stays exactly when its name differs |
| ChatCommands.RemoveByNameIdempotent | behavioral/command_design_pattern.cpp:42-44 | unsubscribing the same name twice equals doing it once |
| ChatCommands.RemoveByNameKeepsOthers | behavioral/command_design_pattern.cpp:42-44 | every subscriber with another name stays as many times as it was listed |
| ChatCommands.ChatGroup.constructor | behavioral/command_design_pattern.cpp:38 | the group has its name and no subscribers |
| ChatCommands.ChatGroup.Subscribe | behavioral/command_design_pattern.cpp:39-41 | appends the subscriber at the end and leaves the others unchanged |
| ChatCommands.ChatGroup.Unsubscribe | behavioral/command_design_pattern.cpp:42-44 | removes every subscriber whose name equals the given one's |
| ChatCommands.ChatGroup.Publish | behavioral/command_design_pattern.cpp:45-49 | the loop notifies each subscriber once, in subscription order, with (group name, message), and changes nothing |
| ChatCommands.SubscribeThenUnsubscribe | behavioral/command_design_pattern.cpp:39-44 | subscribing s and then unsubscribing its name gives what unsubscribing the name from the earlier list gives |
| ChatCommands.SendMessageCommand.constructor | behavioral/command_design_pattern.cpp:64 | the command keeps its group and message |
| ChatCommands.SendMessageCommand.Execute | behavioral/command_design_pattern.cpp:65-67 | executing is exactly one publish of the message to the group |
| ChatCommands.NatToString | behavioral/command_design_pattern.cpp:119 | the decimal text of the minimum length: non-empty, digits only, leading zero only for 0 |
| ChatCommands.ParseNatToString | behavioral/command_design_pattern.cpp:119 | the decimal text reads back as the number it was written from |
| ChatCommands.Respond | behavioral/command_design_pattern.cpp:90-131 | the handle call along a null-terminated chain of handler kinds: when it executes the command, a PostMessageHandler is on the chain and the answer is "Message Sent!" |
| ChatCommands.ExecutedIffReached | behavioral/command_design_pattern.cpp:90-131 | along any chain, the command is executed if and only if some PostMessageHandler is reached with every handler before it letting the message pass |
| ChatCommands.SentIffExecuted | behavioral/command_design_pattern.cpp:90-131 | along any chain, the response is "Message Sent!" if and only if the command was executed |
| ChatCommands.SendMessageChainSendsIff | behavioral/command_design_pattern.cpp:148-163 | over Base, NotEmpty, Length(2), PostMessage: "" gives "Please enter a value", a message of length 1 gives "Please enter a value longer than 2", length 2 or more gives "Message Sent!", and execution happens if and only if the length is at least 2 |
| ChatCommands.Handler.constructor | behavioral/command_design_pattern.cpp:81-83 | a new handler has its kind and no next handler |
| ChatCommands.Handler.SetNext | behavioral/command_design_pattern.cpp:86-89 | stores the argument as next and returns it |
| ChatCommands.Handler.Handle | behavioral/command_design_pattern.cpp:98-131 | returns the response of the chain starting here (empty-message error without forwarding, length error below the minimum, "Message Sent!" after one execute); its deliveries are those of one publish exactly when executed, none otherwise |
| ChatCommands.Handler.Forward | behavioral/command_design_pattern.cpp:90-95 | hands the command to the next handler and returns its result, or "Success!" when there is none |
| ChatCommands.BuildSendMessageChain | behavioral/command_design_pattern.cpp:148-153 | the chained setNext calls build the linear chain Base, NotEmpty, Length(2), PostMessage ending in null |
| ChatCommands.BuildGroups | behavioral/command_design_pattern.cpp:135-146 | the two groups hold Jim, Barb and Barb, Hannah in subscription order |
| ChatCommands.SendThrough | behavioral/command_design_pattern.cpp:160-163 | one handle call on the chain main builds: an empty message answers "Please enter a value", a message of length 1 answers "Please enter a value longer than 2", and neither delivers anything; a longer message answers "Message Sent!" and delivers it once to every subscriber of its group |
| ChatCommands.SendMessageScenario | behavioral/command_design_pattern.cpp:134-163 | the program's four commands give the two errors and two "Message Sent!", and only the two long messages are delivered, to each group's subscribers in order |
| StorageProxy.MakeProxy | structural/proxy/securestorage.cpp:37 | the proxy holds the code and a storage built from the given data |
| StorageProxy.GetContents | structural/proxy/securestorage.cpp:38-42 | a proxy returns either the wrapped contents or "", and anything non-empty only when its code passes auth |
| StorageProxy.StorageReturnsData | structural/proxy/securestorage.cpp:17-22 | a secure storage returns exactly the data it was built from |
| StorageProxy.ProxyGrantsWithCode | structural/proxy/securestorage.cpp:33-39 | with code 1431 the proxy returns the wrapped contents |
| StorageProxy.ProxyDeniesOtherCodes | structural/proxy/securestorage.cpp:38-41 | with any other code the proxy returns "" |
| StorageProxy.ProxyTransparentIff | structural/proxy/securestorage.cpp:33-41 | the proxy returns the wrapped data if and only if the code is 1431 or the data is empty |
| StorageProxy.SecretScenario | structural/proxy/securestorage.cpp:47-50 | the program's proxy with code 1431 returns "Top Secret Information" |
| PizzaDecorator.BaseDescriptions | structural/decorator/pizza.cpp:14-47 | the plain pizzas are "Margherita Pizza", "Hawaiian Pizza" and "Pepperoni Pizza" |
| PizzaDecorator.DecoratorAppendsSuffix | structural/decorator/pizza.cpp:55-89 | Toppings forwards the wrapped description unchanged; MushroomToppings and ExtraCheese append " with mushroom toppings" and " with extra cheese" to it |
| PizzaDecorator.WrappedDescriptionIsPrefix | structural/decorator/pizza.cpp:55-89 | the description of any pizza wrapped at any depth is a prefix of the outer description |
| PizzaDecorator.BaseNameIsPrefix | structural/decorator/pizza.cpp:14-89 | every description begins with the description of the plain pizza at the bottom |
| PizzaDecorator.MushroomPepperoniScenario | structural/decorator/pizza.cpp:109 | MushroomToppings over the Pepperoni pizza reads "Pepperoni Pizza with mushroom toppings" |
| PizzaDecorator.CheeseHawaiianScenario | structural/decorator/pizza.cpp:110 | ExtraCheese over the Hawaiian pizza reads "Hawaiian Pizza with extra cheese" |
| PizzaDecorator.CheeseMushroomPepperoniScenario | structural/decorator/pizza.cpp:111 | ExtraCheese over MushroomToppings over Pepperoni reads "Pepperoni Pizza with mushroom toppings with extra cheese" |

## Left out

- Console output: every `std::cout`, including `ChatUser::notify` and the printing in `replay` and `getContents`. Publish and replay return traces instead.
- Memory management: `new`/`delete`, the `CanvasHistory` and `BaseHandler` destructors, the mementos leaked by undo and by `NullHistory`, and the `MessageCommand` destructor, which is declared but never defined. Datatype values and garbage-collected objects make these irrelevant to behaviour.
- Pizza prices (`price()`): double arithmetic.
- `structural/facade/weather.cpp`, `structural/adapter/cloud_storage.cpp`, `structural/bridge/vehicles_engine.cpp` and `structural/composite/shapes.cpp` are not part of this model. They hold hard-coded floats, `rand()`, printing-only virtual calls and a plain pointer append.
- CanvasReplay.CanvasHistory.Undo: requires two stored snapshots. The source's behaviour with fewer (undefined) is not modelled.
- ChatCommands.Handler.Handle: requires the chain from this handler to be linear and to end in a null next. A cyclic chain is not modelled. The source would recurse around it forever unless a failing validator or a PostMessageHandler stopped it.
- ChatCommands.Handler.Handle: a message's length is its number of Dafny characters, while `std::string::length()` counts the bytes of its encoding. The two agree on ASCII text, and every message `main` sends is ASCII. A non-ASCII message such as "é" (two bytes in UTF-8) is rejected by `LengthValidator(2)` here but sent by the source.
- ChatCommands.Respond: measures length in characters, not bytes, as in the line above.
- ChatCommands.SendMessageChainSendsIff: the length-1 and length-2-or-more cases count characters, not bytes, as in the line above.
- ChatCommands.SendThrough: the length-1 and length-2-or-more cases count characters, not bytes, as in the line above.
- LengthValidator: `minLength` is a natural number. The source compares a `size_t` length with a signed `int`, so that a negative minimum would reject every message. That conversion is not reproduced.
- `SendMessageCommand::get_message` is the command's constant `message` field, read directly.
- Subscribers are values carrying their name. Object identity of the `ChatUser` instances is not modelled; unsubscribe compares names and notify only prints.
- Toppings built over a null `Pizza*` are not modelled: a datatype value always wraps a pizza.
