# The restaurant's replication protocol, verified

A kitchen process keeps every table's orders in memory, publishes a full snapshot of a table
whenever it changes, and loses whatever it publishes while its broker connection is down. Browser
windows fold the snapshots they receive and must end up showing what the kitchen holds, in spite of
losses, duplicates, late retained messages, resets and restarts. No lock, no queue and no
acknowledgement is involved. This project models that system and proves what it promises.

`dafny verify dfyconfig.toml` checks everything.

## How the project is laid out

| file | module | what it holds |
|---|---|---|
| Models.dfy | Models | orders, snapshots, commands, settings |
| OrderLists.dfy | OrderLists | insertion-ordered order lists: finish, trim |
| StoreModel.dfy | StoreModel | the store as a value: what each synchronous method computes |
| Store.dfy | HeapStore | the store as objects changed in place, proved against StoreModel; snapshot isolation |
| KitchenModel.dfy | KitchenModel | the kitchen as a transition system; one action per stretch between two awaits, but for an announce's and a reset's first publish, which follows the listing with nothing enabled in between |
| KitchenInvariants.dfy, KitchenProofs.dfy | same names | the invariants, and that every action keeps them |
| Kitchen.dfy | HeapKitchen | the coroutines as methods; every await hands control to an arbitrary schedule of the other tasks; each coroutine is proved to be a run of KitchenModel |
| Session.dfy | Session | the session protocol, and what keeping to it means |
| Transport.dfy | Transport | the transport as methods: connect, announce, consume, lose, retry, say goodbye; an account of every script and every letter |
| Replies.dfy | Replies | what an arriving order is answered, and where |
| Reducer.dfy | Reducer | the browser's version guard and what folding it means |
| Browser.dfy | Browser | the browser's stores, changed in place by each message |
| Replication.dfy, ReplicationProofs.dfy, Convergence.dfy | same names | a versioned source, a lossy FIFO link, a broker with retained slots, and windows; what one delivery does |
| System.dfy | RestaurantSystem | kitchen, link, broker and windows together |
| Runs.dfy, Safety.dfy | same names | whole runs: what every state satisfies, and what the kitchen promises of every dish |
| Windows.dfy | BrowserWindows | whole runs: exactly what windows show |
| SelfHealing.dfy, Losses.dfy | same names | whole runs: exactly when retained slots are right, and what a lost publish does |
| Witnesses.dfy | Witnesses | reachable states that show what can go wrong |
| Embedding.dfy | Embedding | the coroutines' sessions are runs of the whole system |
| Drain.dfy | Drain | the cooks finish, side by side |
| Topics.dfy, WireFormat.dfy, FoodNames.dfy, Countdown.dfy | same names | topic strings, JSON snapshots, the two name checks, the countdown arithmetic |

A run (`Runs.IsRun`) starts with a fresh kitchen and is any sequence of kitchen actions, link events
(loss, arrival), broker deliveries (live, retained, redelivered) and windows coming and going. The
clock is one monotone integer. Whether a publish is taken by the link is a free choice of each event
while the link is up, and impossible while it is down. A process that ends, whether killed or by an
exception out of an announce, is followed by a restart with an empty store and a new generation.

## What the environment is assumed to do

- Within one connection messages arrive in the order they were handed over, across all tables. That is
  a little more than section 4.6 of MQTT 3.1.1 demands, which orders the messages of each topic.
  A redelivery (section 4.3.2, QoS 1) replays a suffix of what a subscription has received, in order.
- A new subscription is owed the retained message of each table as of that moment (section 3.3.1.3).
  Nothing is assumed about when it comes: it may come after any number of live messages, of later
  generations too. Where a theorem about windows needs it not to come late, that is a stated condition
  on the run.
- The broker does not lose its own state, and a broken connection delivers nothing more once a new
  session has begun.
- A snapshot is handed to the publisher in the same stretch of code that took it, or, for an announce
  or a reset, in the stretch that publishes it.
- Identifiers drawn with `uuid4` are never equal; they are modelled by the serial number of the draw.

## Findings

- A dish never becomes FAILED. The handler that would mark it runs only after a publish has raised, and
  by then the dish is already SERVED, so the second finish finds nothing to do
  (`KitchenProofs.RaiseIsHarmless`, `Safety.OneTerminalTransition`).
- A window can be taken back a generation, and left there. The browser accepts any snapshot of a
  different generation, so a retained message that comes after a live one of a later generation
  replaces it, although nothing has been lost and nothing is left to send. The event contract says the
  version guard makes out-of-order delivery safe; it does within a generation only.
  `Witnesses.WindowCanGoBack` is a run, `BrowserWindows.WindowsConvergeExactly` and `GoesBackExactly`
  say exactly when it happens, and the next change of that table or the next announce repairs it.
- A lost publish is not always made good soon by the resync, although the publisher's comment counts on
  that. A publish that fails on a session that stays up is followed by no announce until the link is lost
  (`Losses.NoResyncWhileUp`), and until then a window shows the table again exactly when some later
  publish hands over the table's present state (`Losses.LostUntilRepublished`).
  `Witnesses.PublishCanStayLost` is a run that ends with no task left to publish anything.
- Parsing an order topic can raise, although its documentation says it does not: `isdigit` lets through
  digits that `int` does not read, a superscript two for one, and numerals longer than `int` converts.
  `Topics.RaisesExactly` says which topics raise; the handler around it logs the exception and drops the
  message. Digits of other scripts do parse, so that more than one topic orders for a table
  (`Topics.BeyondAscii`).
- The broker's retained slot can go back to an older version: an announce takes all its snapshots first,
  and a cook that serves while it is publishing is overtaken by the older snapshot. Subscribed windows
  are not fooled; a window that opens later is, until the next change of that table or the next
  announce. `SelfHealing.SlotCurrentExactly` says exactly when, `Witnesses.SlotCanFallBehind` is a run of
  a restaurant with two tables. It takes two: the table listed first is handed over in the stretch that
  lists the tables, so its slot is right after every lossless announce (`SelfHealing.FirstSlotHeals`).
- The snapshot returned by a finish does not always show the dish as finished: trimming goes by order of
  insertion, so a slow dish can be evicted by its own finish, at any limit, the default of 10 included
  (`OrderLists.FinishShowsExactly`; `Witnesses.FinishCanEvictItself` is a run for every limit).
- If publishing an accepted order raises something that is not a broker error, the order stays COOKING
  and no cook is ever spawned (`Safety.CookedUnlessOrphaned`,
  `Witnesses.OrderCanBeOrphaned`). The reconnecting publisher never raises broker errors.
- The number of cook tasks is not bounded by the order limits, since a task that is still publishing has
  already served (`Witnesses.TasksCanExceedLimits`); the number of tasks still to serve is
  (`Safety.BusyCooksBounded`).
- The browser and the kitchen trim names differently: the kitchen also strips U+001C to U+001F
  (`FoodNames.KitchenIsLaxer`). Everything the browser sends is accepted unchanged all the same.
- Identifier lengths are checked before trimming, so an identifier of spaces is accepted as the empty
  string (`FoodNames.EmptyIdentifierExactly`).
- The progress bar can be full with a second left, for cook times of 200 seconds and more
  (`Countdown.FullMeansDone`).
- docs/EVENT-CONTRACT.md speaks of MQTT 5 and shows a fractional `cookSeconds`; the code and
  docs/DESIGN-DECISIONS.md use MQTT 3.1.1, and the code and the client's parser whole seconds. The model
  follows the code.
- `create_store` does not pass a history limit, so the store's default applies. The model takes the limit
  as a setting.

## Model

| member | source | states |
|---|---|---|
| BrowserWindows.WindowsConvergeExactly | backend/src/restaurant/kitchen.py:102-112 | Convergence, exactly: once an announce begun on a live link has been published and nothing has been lost since it began, a window subscribed all that time that has received what was sent shows a table as the store holds it, if and only if no retained message of an earlier generation came to it late with nothing current after it; whatever accepts, serves, resets and redeliveries came in between, and even if the announce published an older snapshot after a newer one |
| BrowserWindows.WindowsConverge | backend/src/restaurant/transport.py:185-203 | so, if no retained message comes late after the announce begins, the window shows exactly the store: same tables, generation, versions and orders |
| BrowserWindows.ShowsExactly | frontend/src/lib/state.ts:34-46 | in any run whatsoever a window shows a table as the store holds it if and only if it has been given a current snapshot and none of an earlier generation since |
| BrowserWindows.DrainedShowsExactly | frontend/src/lib/stores.ts:63-74 | a drained window that has been through a current snapshot shows it if and only if it was not overtaken by a late retained message |
| BrowserWindows.WindowsAgree | frontend/src/lib/state.ts:34-46 | any two converged windows show the same |
| Runs.GenerationsInOrder | backend/src/restaurant/kitchen.py:138-168 | the broker never receives a message of an earlier generation after one of a later generation, in any run |
| BrowserWindows.GoesBackExactly | frontend/src/lib/state.ts:34-46 | a delivery takes a window the broker does not redeliver to back if and only if it is a retained message of an earlier generation than shown |
| BrowserWindows.WindowNeverGoesBack | frontend/src/lib/state.ts:34-46 | so, without redelivery and without a late retained message, a window never shows a table at an earlier generation, or an earlier version within one, than before |
| Runs.SnapshotsAgree | backend/src/restaurant/store.py:96-106 | any two snapshots taken anywhere in a run with the same table, generation and version list the same orders, so dropping an equal version loses nothing |
| Runs.StreamCovers | backend/src/restaurant/transport.py:59-93 | as long as nothing is lost after an announce begins on a live link, what has been sent since holds every table's present state, or the snapshot that does is still to be published |
| Losses.NoResyncWhileUp | backend/src/restaurant/transport.py:185-217 | once a session has announced, nothing announces again until the link is lost |
| Losses.LostUntilRepublished | backend/src/restaurant/transport.py:66-93 | after a change whose publish is lost on a session that stays up, a drained window shows the table as the store holds it if and only if some later publish handed over its present state |
| Runs.RunSound | backend/src/restaurant/kitchen.py:102-405 | every state of every run satisfies the kitchen's and the wire's invariants |
| Safety.NeverOverCapacity | backend/src/restaurant/kitchen.py:288-338 | in every reachable state no table and not the restaurant exceeds its limit of cooking orders, nor a table its limit of finished orders, nor the sum of the two |
| Safety.RecordIsTrimmedHistory | backend/src/restaurant/store.py:138-178 | a table's record is its untrimmed history of this generation with only the oldest finished orders left out; accepted is kept plus evicted, and the version counts accepts plus finishes |
| Safety.AcceptedExactly | backend/src/restaurant/kitchen.py:259-347 | in every run an arriving order is accepted if and only if its table matches the topic and exists, its key is not among the last N accepted, and neither limit is reached; it is then the last in its table's history, cooking, with the drawn cook time; otherwise nothing changes |
| Replies.RefusedExactly | backend/src/restaurant/kitchen.py:259-347 | in every run, what an arriving order hands over: for a topic mismatch, an unknown table, a full restaurant and a full table, checked in that order with the duplicates in between, one rejection with that reason and table, naming the order, to its author's own error topic and not retained; for a duplicate nothing; for an accepted order one retained snapshot of its table with the order last in it |
| Replies.Addressed | backend/src/restaurant/kitchen.py:409-488 | a snapshot goes to its table's state topic and a status to the status topic, both retained; a rejection to its author's error topic, not retained, or nowhere if it has no author |
| Safety.KeysSpaced | backend/src/restaurant/store.py:82-117 | within a generation the same client key is accepted again only after at least N others, and a key counts as a duplicate exactly while it is among the last N accepted |
| Safety.TaskHasDish | backend/src/restaurant/kitchen.py:351-371 | a task that has not served yet cooks an order that is COOKING in the store, with the same cook time |
| Safety.DishHasOneTask | backend/src/restaurant/kitchen.py:186-205 | with a publisher that does not raise, every COOKING order has exactly one task still to serve it, except the one being accepted and while a reset or shutdown cancels |
| Safety.CookedUnlessOrphaned | backend/src/restaurant/kitchen.py:186-205 | a COOKING order has a cook if and only if it is not in the middle of acceptance and its own publish did not raise |
| Safety.NoOrphans | backend/src/restaurant/kitchen.py:193-205 | if no publish of an accepted order has raised, no order was left without a cook |
| Safety.BusyCooksBounded | backend/src/restaurant/kitchen.py:96-98 | tasks still to serve are bounded by the table's and the restaurant's order limits, in every reachable state |
| Safety.HistoryEvolves | backend/src/restaurant/store.py:119-164 | generations only advance, and within one the history of a table only grows while each dish in it ages |
| Safety.OneTerminalTransition | backend/src/restaurant/kitchen.py:367-405 | an order seen at two moments of a generation is unchanged, or was served once in between, not before its expected time; ready time is set exactly when it is served; it is never failed |
| Safety.SilentAfterStop | backend/src/restaurant/kitchen.py:114-117 | once shutdown has begun, no cook and no handler publishes a snapshot |
| SelfHealing.SlotsHeal | backend/src/restaurant/kitchen.py:109-112 | once an announce on a live link is published with nothing lost, the retained slot of every table no cook served meanwhile equals the store, and stays so outside an announce's or reset's own loop |
| SelfHealing.SlotCurrentExactly | backend/src/restaurant/kitchen.py:109-112 | once an announce on a live link is published with nothing lost, a table's slot says what the store holds if and only if the last publish of that table was not that of an announce in which a cook had served the table since the announce began |
| SelfHealing.StaleExactly | backend/src/restaurant/kitchen.py:109-110 | in any run, a snapshot an announce publishes is out of date if and only if a cook has served its table since that announce began |
| SelfHealing.FirstSlotHeals | backend/src/restaurant/kitchen.py:109-112 | once an announce on a live link is published with nothing lost, the slot of the table listed first equals the store, whatever the cooks did meanwhile |
| Witnesses.SlotCanFallBehind | backend/src/restaurant/kitchen.py:109-112 | with two tables, a reachable state with nothing lost and nothing left to send in which the second table's slot differs from the store, its cook having served at the await after the first table's publish |
| Witnesses.WindowCanGoBack | frontend/src/lib/state.ts:36-42 | a reachable state with nothing lost, nothing left to send and nothing owed in which a window shows an earlier generation than the store's |
| Witnesses.PublishCanStayLost | backend/src/restaurant/transport.py:66-93 | a reachable state whose session is up, with no task left and nothing left to send or deliver, in which a window does not show the store |
| Witnesses.OrderCanBeOrphaned | backend/src/restaurant/kitchen.py:186-205 | a reachable state with an order COOKING and no task at all |
| Witnesses.TasksCanExceedLimits | backend/src/restaurant/kitchen.py:96-98 | a reachable state with more cook tasks than the restaurant may have orders |
| Witnesses.FinishCanEvictItself | backend/src/restaurant/store.py:166-178 | for every history limit, a reachable state in which serving a dish takes it out of its table's record |
| SelfHealing.LateWindowsConvergeExactly | frontend/src/lib/stores.ts:63-74 | a window opened at any moment that has had its retained messages and what was sent since shows a table whose slot is right if and only if it was not overtaken by a late retained message |
| SelfHealing.LateWindowsConverge | frontend/src/lib/stores.ts:63-74 | so such a window shows the store, if no cook served during the announce and no retained message came late |
| SelfHealing.AlwaysResetFresh | backend/src/restaurant/kitchen.py:148-154 | the snapshots a reset still has to publish are never out of date |
| Convergence.BackExactly | frontend/src/lib/state.ts:34-46 | folding a snapshot takes a view back if and only if the snapshot is of an earlier generation |
| ReplicationProofs.SourceStepKeeps | backend/src/restaurant/transport.py:82-93 | version determines content, generations stay in order, and coverage by the last announce survive every publish, taken or dropped |
| ReplicationProofs.LinkStepKeeps | frontend/src/lib/state.ts:34-46 | they survive every loss, arrival, subscription, retained delivery and redelivery |
| RestaurantSystem.KitchenExplained | backend/src/restaurant/kitchen.py:102-405 | every kitchen action is, from outside, a step of a versioned source that publishes what the kitchen hands over |
| RestaurantSystem.HappensKeeps | backend/src/restaurant/kitchen.py:102-405 | every event of the whole system keeps all invariants |
| KitchenProofs.StepKeeps | backend/src/restaurant/kitchen.py:102-405 | every action in every interleaving keeps the kitchen's invariants: trimmed records, dedupe window, limits, timeliness, task and order correspondence |
| KitchenProofs.WakeFinishes | backend/src/restaurant/kitchen.py:367-378 | a cook whose sleep is over always finds its dish, and serving it in the trimmed record is serving it in the history and trimming once |
| KitchenProofs.RaiseIsHarmless | backend/src/restaurant/kitchen.py:388-405 | a publish that raises after serving finds the dish served and changes nothing |
| Drain.WorkDecreases | backend/src/restaurant/kitchen.py:351-405 | every stretch a cook runs leaves strictly fewer to run, so every schedule ends |
| Drain.NothingCooking | backend/src/restaurant/kitchen.py:193-205 | with no task left to serve and none being accepted, no order is COOKING |
| Drain.CooksOverlap | backend/src/restaurant/kitchen.py:193-205 | with no new input, the cooks run no more stretches than they have left, and past the greatest single deadline of the dishes not yet served, not the sum, nothing is COOKING anywhere |
| Drain.ServedWhenDue | backend/src/restaurant/kitchen.py:351-378 | with no new input and a clock that waits for the cooks, a dish gets for its ready time the deadline it had at the start, fixed by its own cook time, however many other dishes are cooking |
| Drain.NeverStuck | backend/src/restaurant/kitchen.py:351-382 | while a dish is unserved, a cook can run or the clock can move |
| OrderLists.TrimKeeps | backend/src/restaurant/store.py:166-178 | trimming keeps every COOKING order and exactly the last N finished ones by insertion, in order |
| OrderLists.TrimAppend | backend/src/restaurant/store.py:138-143 | trimming before an insertion loses nothing that trimming after it would keep |
| OrderLists.TrimMark | backend/src/restaurant/store.py:145-164 | trimming before a finish loses nothing that trimming after it would keep |
| OrderLists.FinishShowsExactly | backend/src/restaurant/store.py:145-178 | after a finish the dish is shown finished if and only if fewer than N finished orders were inserted after it; otherwise it is gone |
| OrderLists.OwnEviction | backend/src/restaurant/store.py:172-178 | for every limit, a list whose slow dish is evicted by its own finish |
| StoreModel.WindowSlides | backend/src/restaurant/store.py:113-117 | remembering a key the window does not hold slides the window of the last N keys by one and keeps equal keys apart |
| StoreModel.TotalChanged | backend/src/restaurant/store.py:85-94 | changing one table changes the restaurant's count of cooking orders by exactly as much |
| HeapStore.InMemoryStore.constructor | backend/src/restaurant/store.py:56-75 | a new store has exactly the tables asked for, each empty at version 0, and remembers no key |
| HeapStore.InMemoryStore.CookingCount | backend/src/restaurant/store.py:85-91 | counts the COOKING orders of a table, 0 for an unknown one |
| HeapStore.InMemoryStore.TotalCookingCount | backend/src/restaurant/store.py:93-94 | sums them over all tables |
| HeapStore.InMemoryStore.Snapshot | backend/src/restaurant/store.py:96-106 | the snapshot shows the table as it is, through copies nobody else holds |
| HeapStore.InMemoryStore.AllSnapshots | backend/src/restaurant/store.py:108-109 | one such snapshot per table, by ascending table id |
| HeapStore.InMemoryStore.RememberClientOrder | backend/src/restaurant/store.py:113-117 | the key moves to the end, and the oldest are evicted beyond the limit |
| HeapStore.InMemoryStore.Reset | backend/src/restaurant/store.py:119-136 | every table is emptied at version 0, the keys are forgotten, the generation is new |
| HeapStore.InMemoryStore.AddOrder | backend/src/restaurant/store.py:138-143 | the order is filed, the version raised, the record trimmed, and a snapshot of the result returned; no other table changes |
| HeapStore.InMemoryStore.FinishOrder | backend/src/restaurant/store.py:145-164 | the stored order object is finished in place, or nothing changes and nothing is returned when it is gone or done |
| HeapStore.TableRecord.TrimServedHistory | backend/src/restaurant/store.py:166-178 | listing the finished orders and deleting the oldest one by one computes the trim of OrderLists |
| HeapStore.ApplyAll | backend/src/restaurant/store.py:96-106 | no sequence of later adds, finishes, remembered keys and resets changes a snapshot handed out before |
| HeapStore.HandOut | backend/src/restaurant/store.py:96-106 | a snapshot goes on showing the store it was taken of |
| HeapKitchen.ReconnectingPublisher.Publish | backend/src/restaurant/transport.py:82-93 | without a client, or on a broker error, the message is dropped and nothing is raised; it raises exactly on any other error of a live client |
| HeapKitchen.Kitchen.TryAccept | backend/src/restaurant/kitchen.py:259-347 | the checks in their order, then the key and the order committed together, with the verdict and the rejection the source gives |
| HeapKitchen.Kitchen.HandleOrder | backend/src/restaurant/kitchen.py:186-205 | handling an order is a run of the transition system, with the cooks free to act at the await; one that passes the checks ends with a cook just spawned for it, with its identifier and drawn time, unless its publish raised, when it has none, or the stop signal came, when it is still in hand; one that does not leaves no key, no cook and no orphan |
| HeapKitchen.AnsweredExactly | backend/src/restaurant/kitchen.py:210-257 | a payload that does not become an order is answered if and only if it is an object with a textual client id: that client is told the validation failed, with the client order id if that is text and no table |
| HeapKitchen.UsableExactly | backend/src/restaurant/kitchen.py:210-257 | a payload becomes an order if and only if it is JSON, an object, and fits the schema |
| HeapKitchen.Kitchen.RejectUnusable | backend/src/restaurant/kitchen.py:470-488 | the answer, if there is one, is published, and the other tasks run meanwhile |
| HeapKitchen.Kitchen.Serve | backend/src/restaurant/kitchen.py:369-378 | a cook's stretch after its sleep does what the transition system's wake does, and publishes what it should |
| HeapKitchen.Kitchen.MarkFailed | backend/src/restaurant/kitchen.py:394-405 | the last-resort handler does what the transition system's raise does |
| HeapKitchen.Kitchen.Await | backend/src/restaurant/kitchen.py:351-392 | what the other tasks are scheduled to do at an await happens, each step that can in its turn; they hand over nothing but table snapshots and start no task |
| HeapKitchen.KeptSchedule | backend/src/restaurant/kitchen.py:351-392 | a schedule that can be kept is kept to the letter |
| HeapKitchen.SkippedInSchedule | backend/src/restaurant/kitchen.py:351-392 | a step that cannot happen in its turn holds up nothing after it |
| HeapKitchen.Kitchen.PublishAll | backend/src/restaurant/kitchen.py:109-110 | publishing a list of snapshots one await at a time sends what was taken, although the cooks change the stored orders meanwhile; a reset's loop can be cut short by the stop signal |
| HeapKitchen.Kitchen.AnnounceOnline | backend/src/restaurant/kitchen.py:102-112 | an announce is a run that publishes every table once and then the status; if the last publish is taken, the client has been told ONLINE once, after every listed snapshot that was taken, and nothing else but tables; an exception leaves a prefix of it and no status |
| HeapKitchen.Kitchen.CancelAllCooking | backend/src/restaurant/kitchen.py:157-168 | from the first cancellation on only time passes and tasks unwind, the store does not change, and unless the stop signal cuts the wait short no task is left |
| HeapKitchen.Kitchen.HandleReset | backend/src/restaurant/kitchen.py:138-155 | a reset cancels, waits, wipes and publishes, in that order, up to wherever the stop signal cuts it off, and does nothing when disabled; heard out it leaves a new generation with every table empty, no key, no orphan and no cook, and if every publish is taken each table has been shown empty |
| HeapKitchen.Kitchen.Shutdown | backend/src/restaurant/kitchen.py:114-117 | shutdown cancels every cook and then publishes OFFLINE as the last message |
| HeapKitchen.Kitchen.HandleMessage | backend/src/restaurant/kitchen.py:121-136 | whatever arrives on whatever topic, one that raises included, handling it is such a run with such an outcome: a reset's on the reset topic, an order's where topic and payload parse, and none elsewhere |
| HeapKitchen.PerformsKeeps | backend/src/restaurant/kitchen.py:102-405 | so the coroutines, in whatever interleaving, keep every invariant of the kitchen |
| Transport.MqttTransport.Run | backend/src/restaurant/transport.py:141-173 | any script of failures, losses, messages and stop signals, inside handlers too, yields a run that keeps the session protocol and ends detached; the scripts are played in order, all of them unless the stop signal came in the last one played or an exception ended its announce; every session that announced heard its letters; and an order is left without a cook only after its own publish met an error that is not the broker's |
| Transport.MqttTransport.RunSession | backend/src/restaurant/transport.py:175-222 | one session: attached while it lasts, detached at every exit, its announce whole, its letters heard, a goodbye exactly if it was told to stop, and gone for good exactly then |
| Transport.MqttTransport.Consume | backend/src/restaurant/transport.py:224-233 | every letter of the inbox is handled, in order, each with the actions, the answer and the outcome that are its due, up to the one the stop signal cut off, if any |
| Transport.LetterGetsCook | backend/src/restaurant/transport.py:224-233 | an order among them that was heard out and passed the checks has a cook in the world after it, or is an orphan, exactly as its publish fared |
| Transport.OrderFollows | backend/src/restaurant/kitchen.py:186-205 | in the events of an order's handling a cook is spawned only after its publish met no error but the broker's, and the order is orphaned only after it did |
| Transport.MqttTransport.SayGoodbye | backend/src/restaurant/transport.py:205-217 | shutdown starts from wherever the stop signal left the consumer: between messages, or in the middle of an acceptance, of a reset's waiting or of its publishing |
| Session.FollowsKeeps | backend/src/restaurant/transport.py:141-233 | every run of sessions keeps every invariant of the kitchen |
| Session.OnlineAfterEveryTable | backend/src/restaurant/transport.py:196-203 | in every run, whenever a client is told ONLINE, an attempt to publish every table the store has came before, in that session |
| Session.StatusSaidExactly | backend/src/restaurant/kitchen.py:109-117 | in every run a client is told OFFLINE by a goodbye whose publish is taken and by nothing else, and ONLINE by the end of an announce whose publish is taken and by nothing else |
| Session.AttachedExactly | backend/src/restaurant/transport.py:185-222 | in every run a client is attached exactly from the beginning of a session to its end |
| Session.StopsOnce | backend/src/restaurant/transport.py:212-216 | shutdown runs at most once and no session follows it |
| Session.SilentAfterGoodbye | backend/src/restaurant/transport.py:212-222 | after the goodbye nothing happens but detaching |
| Session.LastWord | backend/src/restaurant/transport.py:212-222 | nothing is handed to any client after the goodbye |
| Embedding.SessionsAreRuns | backend/src/restaurant/transport.py:141-233 | whatever the coroutines of a process do that keeps the session protocol, with any behaviour of the link, the broker and the windows woven in, is a run of the whole system and ends with the kitchen the coroutines leave, so every theorem about runs is one about them |
| Embedding.SessionsEmbed | backend/src/restaurant/transport.py:141-233 | the same from any state, as after a restart, and for every stretch of the events |
| Embedding.RestartAligns | backend/src/restaurant/kitchen.py:69-87 | a process that starts afresh is in step with the system after its restart |
| Embedding.HandedAlike | backend/src/restaurant/transport.py:82-93 | the table snapshots a client takes of an action are exactly what enters the link |
| Embedding.CoroutinesConverge | backend/src/restaurant/transport.py:185-203 | once an announce of the coroutines is through with nothing lost since, a subscribed window sent nothing late that has received what was sent shows exactly the store the coroutines hold |
| Reducer.FoldMeaning | frontend/src/lib/state.ts:34-46 | a fold holds, per table, the first highest version of that table's last unbroken run of one generation, and nothing for tables never mentioned |
| Reducer.SurvivorUnique | frontend/src/lib/state.ts:34-46 | only one snapshot answers that description |
| Reducer.RedeliveryIsHarmless | frontend/src/lib/state.ts:34-46 | after any prefix, reordering or repeating one generation's messages changes neither generation nor version held |
| Browser.Stores.IngestTableState | frontend/src/lib/stores.ts:63-74 | one message is folded into the tables, and the clock offset taken only from a live message whose time stamp parses |
| Browser.OffsetStays | frontend/src/lib/stores.ts:63-74 | without a live message whose time stamp parses, the offset stays as it was |
| Browser.Stores.IngestAll | frontend/src/lib/stores.ts:63-74 | any number of messages are their fold |
| Browser.ShowAll | frontend/src/lib/stores.ts:63-74 | what a window opened empty shows after any messages is what Reducer.FoldMeaning says |
| Topics.ParsePrinted | backend/src/restaurant/topics.py:27-76 | parsing a printed order topic gives the table back for every natural number not too long for `int`, and nothing for a negative one |
| Topics.ParsesExactly | backend/src/restaurant/topics.py:62-76 | over all strings, a topic parses as n if and only if it is an order topic around a non-empty numeral of decimal digits, of any script, that is not too long and is worth n |
| Topics.RaisesExactly | backend/src/restaurant/topics.py:62-76 | over all strings, parsing raises if and only if the topic is an order topic around digits of which one is no decimal digit, or of which there are too many for `int` |
| Topics.BeyondAscii | backend/src/restaurant/topics.py:74-76 | a superscript two for a table raises, an Arabic-Indic three is table 3 |
| Topics.OutboundNeverParses | backend/src/restaurant/topics.py:31-76 | no table-state, client-error or status topic parses as an order or raises, whatever the client's id |
| Topics.RecognisesOwn | backend/src/restaurant/topics.py:39-59 | the kitchen recognises its own topics, an error topic if and only if the client's id has no slash, and no command |
| Topics.TopicsDistinct | backend/src/restaurant/topics.py:31-32 | different tables have different state topics, so each has a retained slot of its own |
| Topics.SubscriptionCovers | backend/src/restaurant/topics.py:12-24 | over all strings, a topic parses or raises if and only if the order subscription matches it and its table level is a non-empty run of digits, and it parses if `int` converts them |
| Topics.NoEcho | backend/src/restaurant/topics.py:12-36 | no subscription of the kitchen matches a topic it publishes on |
| Topics.SplitJoin | backend/src/restaurant/topics.py:55-69 | splitting undoes joining if and only if no segment has a slash |
| Topics.Spelled | backend/src/restaurant/topics.py:12-36 | the topics, letter for letter |
| Topics.Positional | backend/src/restaurant/topics.py:27-76 | a two-digit table number is printed and read with its tens first |
| WireFormat.RoundTrip | frontend/src/lib/types.ts:91-138 | every snapshot, encoded with its wire names, is accepted and read back field for field, whatever its orders |
| WireFormat.NothingLost | backend/src/restaurant/models.py:106-150 | what was read determines the snapshot that was written |
| WireFormat.TableOnTheWire | backend/src/restaurant/models.py:106-150 | a snapshot is written with exactly these field names and values, and so is each of its orders, in order |
| WireFormat.StatusWords | frontend/src/lib/types.ts:91-116 | a status is written as COOKING, SERVED or FAILED, and read from those words only |
| WireFormat.AcceptedExactly | frontend/src/lib/types.ts:118-138 | a value is accepted as a table if and only if it carries that table's fields with those values, and every order does too |
| WireFormat.OrderAcceptedExactly | frontend/src/lib/types.ts:91-116 | a value is accepted as an order if and only if it carries that order's fields with those values |
| WireFormat.ParseTableState | frontend/src/lib/types.ts:119-138 | the loop with its early exits accepts all orders or none |
| FoodNames.AcceptedUnchanged | frontend/src/lib/state.ts:165-177 | over ASCII, what the browser accepts and sends the kitchen accepts unchanged |
| FoodNames.BrowserAcceptsExactly | frontend/src/lib/state.ts:165-177 | over ASCII, the browser accepts and sends exactly what is left of a text when its own spaces are taken off both ends, if that is not empty, not too long and free of control characters |
| FoodNames.Spaces | backend/src/restaurant/models.py:88-98 | over ASCII, the browser's spaces are tab to carriage return and the space, and the kitchen's those and U+001C to U+001F |
| FoodNames.KitchenAcceptsExactly | backend/src/restaurant/models.py:88-98 | so does the kitchen, over ASCII, with its own spaces and a limit of 80 |
| FoodNames.AgreeExactly | backend/src/restaurant/models.py:88-98 | over ASCII, the browser accepts a text as typed if and only if the kitchen would and both trim it alike |
| FoodNames.KitchenIsLaxer | backend/src/restaurant/models.py:88-98 | a text the kitchen takes and the browser refuses |
| FoodNames.EmptyIdentifierExactly | backend/src/restaurant/models.py:82-103 | an accepted identifier is empty if and only if what was sent is a permitted number of spaces |
| FoodNames.IdentifierAcceptedExactly | backend/src/restaurant/models.py:82-103 | over ASCII, an identifier is accepted if and only if it is 1 to 64 characters as sent and free of control characters once stripped, and the stripped text is kept |
| Countdown.StaleRemaining | frontend/src/lib/state.ts:99-108 | a reading up to 999 ms stale shows the whole seconds that remain, or one more exactly when the staleness crosses a second |
| Countdown.ElapsedExactly | frontend/src/lib/state.ts:74-84 | the stopwatch shows the whole seconds since the order was placed, and 0 before |
| Countdown.RemainingExactly | frontend/src/lib/state.ts:99-108 | the countdown shows the whole seconds left, and 0 from the deadline on |
| Countdown.UnreadableIsZero | frontend/src/lib/state.ts:74-125 | a time stamp that does not parse reads as nothing gone, nothing left and no progress, whatever the clocks |
| Countdown.CountdownStartsRight | frontend/src/lib/state.ts:85-108 | the first frame shows exactly the cook time |
| Countdown.CeilingWouldOverstate | frontend/src/lib/state.ts:85-97 | rounding up, the alternative the comment rejects, is right in the first frame only if the reading is not stale at all, and one too many otherwise |
| Countdown.ClocksAgree | frontend/src/lib/state.ts:74-108 | seconds gone plus seconds left are the cook time on the second and one less in between |
| Countdown.SkewCancels | frontend/src/lib/stores.ts:63-74 | with the offset the browser's store keeps, any skew between the clocks cancels, up to the latency of the last live message that told the time |
| Countdown.FullExactly | frontend/src/lib/state.ts:116-125 | progress is between 0 and 100 and is 100 if and only if 99.5 percent of the cook time has elapsed |
| Countdown.NearestPercent | frontend/src/lib/state.ts:116-125 | progress is the nearest whole percent of the cook time, halves up, at most 100, and 100 without a cook time |
| Countdown.ProgressGrows | frontend/src/lib/state.ts:99-125 | progress never falls and the countdown never rises |
| Countdown.FullMeansDone | frontend/src/lib/state.ts:116-125 | progress 100 means nothing remains at every reading if and only if the cook time is below 200 seconds |
| Countdown.StoreOrdersAssigned | backend/src/restaurant/kitchen.py:327-338 | every order in every reachable store has a deadline that agrees with its cook time |
| Countdown.TookAtLeastAssigned | frontend/src/lib/state.ts:133-139 | every served dish is shown to have taken at least its cook time, in every run |
| Countdown.DurationExactly | frontend/src/lib/state.ts:133-139 | a finished dish is shown to have taken the nearest whole number of seconds, never less than 0, and an unfinished one has no duration |

## Left out

- HeapKitchen.Kitchen.SpawnCook: a cook task keeps its order's identifier and cook time, which never change, rather than the order object it shares with the store.
- Transport.MqttTransport.Run: a consumer that ends without an error is not modelled; the client library ends it with an error.
- Topics.OrderTopic: printing a number of more digits than `int` converts, which CPython refuses too, is not modelled as raising. Which characters are digits is a parameter, of which no more is assumed than `Topics.Lawful` says.
- Embedding.SessionsAreRuns: a link that breaks before the session notices is modelled by what it does, publishes that fail and messages that no longer arrive, and counts as up until the publisher detaches.
- FoodNames.AcceptedUnchanged: restricted to ASCII, where `strip` and `trim` differ only in four characters and lengths in code points and UTF-16 units agree.
- WireFormat.RoundTrip: numbers are exact; a browser's doubles hold whole numbers exactly only up to 2 to the 53. JSON text, time stamp formatting and schema-library internals are not modelled.
- Countdown.FullExactly: fractions are exact rationals, not floating point.
- Safety.OneTerminalTransition: one monotone clock is assumed; with a clock set back a dish could be stamped before its expected time.
- The event loop: a cancelled task takes no further store step, and a stretch between two awaits is not interrupted.
- Sockets, TLS, the MQTT client libraries, the development broker, the last will and keep-alive: the link is attach, detach, a FIFO pipe and one retained slot per topic.
- A retained message is delivered once per subscription: live messages are redelivered, retained ones are not.
- HeapKitchen.UsableExactly: checking a decoded object against the schema is a parameter, and the wording of rejections is not modelled.
- Status and rejection messages take no part in the replication theorems, which are about table snapshots; HeapKitchen and Session say when they are sent.
- Log lines, log snapshots, settings loading, signal handling and process start-up.
- Components, notices, the ticking clock, session storage, `formatDuration` and `sortedTables`: presentation, or too easy to be worth a model.
- Access control, credentials and deployment.
