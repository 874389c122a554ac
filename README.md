# CppGPIO eight-channel multiplexed push buttons in Dafny

CppGPIO reads up to eight push buttons through one input line placed behind
an 8-to-1 analogue multiplexer. A scan controller, `MultiplexerControl8`,
owns the three select lines A, B and C. Its background thread visits the
selector indices 0..7 over and over. At each index it drives the select
lines from the bits of the index and then calls every registered observer.
`MultiplexerPushButton8` is such an observer. On each call it reads the
input line and runs a per-channel debounce and hold state machine over
three arrays of eight entries. The machine fires `f_pushed` when a channel
is released after at least the minimum press length (2 ms by default). It
fires `f_held` when a channel has been active for the hold length (750 ms by
default).

The model has five modules:

- `Selector` (`selector.dfy`): the `UnionMultiplexer8` overlay of a selector
  byte with its three select-line bits, as arithmetic on the index.
- `Control` (`control.dfy`): the scan controller as a class with the
  observer list, the thread-present flag and the terminate flag. It has
  `Start`, `Stop`, one scan tick and one pass of the event loop. The pass
  returns the select-line writes and observer calls it makes. The lifecycle
  of start and stop requests is also given as pure functions.
- `Debounce` (`debounce.dfy`): the state machine of `OnMultiplexerChange`
  as a pure function `Step` on the three arrays. `Step` is composed of the
  four stages the source runs: idle reset, release check, level tracking
  and hold check.
- `PushButton` (`push_button.dfy`): the button as a class that keeps the
  three arrays as `array`s and updates them in place. `OnMultiplexerChange`
  is proved to compute `Debounce.Step` and to record the callbacks it makes.
- `Traces` (`traces.dfy`): sequences of scan ticks fed to the state machine,
  and what a whole press of one button reports on its channel.

## Model

| member | source | states |
|---|---|---|
| Selector.Recombine | include/cppgpio/MultiplexerPushButton8.hpp:14-19 | the three bits read back give an index in 0..7, and line A is on exactly for indices 4..7 |
| Selector.Decompose | include/cppgpio/MultiplexerPushButton8.hpp:22-31 | the bit view of an `Index` byte recombines to the index modulo 8: the bits above the three lowest are ignored |
| Selector.DecomposeRecombine | include/cppgpio/MultiplexerPushButton8.hpp:14-31 | every select-line triple is the bit view of the index it recombines to |
| Selector.RecombineDecompose | include/cppgpio/MultiplexerPushButton8.hpp:14-31 | for indices 0..7 the index is recovered from its bit view |
| Selector.DecomposeInjective | src/MultiplexerPushButton8.cpp:61-66 | the eight indices of a pass drive eight distinct select-line triples |
| Control.MultiplexerControl8.constructor | src/MultiplexerPushButton8.cpp:10-17 | no observers, no thread, terminate clear, and the scan interval defaults to 125 microseconds |
| Control.MultiplexerControl8.Start | src/MultiplexerPushButton8.cpp:26-36 | fails exactly when a thread is present; afterwards a thread is present; agrees with `Control.Apply` |
| Control.MultiplexerControl8.Stop | src/MultiplexerPushButton8.cpp:39-52 | fails exactly when no thread is present; a successful stop sets terminate and removes the thread; agrees with `Control.Apply` |
| Control.MultiplexerControl8.Tick | src/MultiplexerPushButton8.cpp:63-74 | drives the bit view of the index, which recombines to the index, and calls each non-empty observer exactly once, in list order, with that index and view |
| Control.MultiplexerControl8.Pass | src/MultiplexerPushButton8.cpp:55-86 | with terminate set, no line is driven, no observer is called and the list is untouched; otherwise ticks 0..7 in order, then the list becomes its `remove_if` compaction |
| Control.ScanNotesOrder | src/MultiplexerPushButton8.cpp:61-74 | the calls of a pass over L non-empty observers number 8·L; call p goes to observer p mod L at index p div L, with that index's bit view |
| Control.ScanLinesAt | src/MultiplexerPushButton8.cpp:61-66 | the k-th select-line write of a pass is the bit view of index k |
| Control.CompactKeepsObservers | src/MultiplexerPushButton8.cpp:80-84 | the discarded `remove_if` keeps the list length and keeps the non-empty observers in order, so every later tick calls the same observers |
| Control.ApplyContract | src/MultiplexerPushButton8.cpp:26-52 | a start succeeds exactly when no thread is present, a stop exactly when one is; only a successful stop changes terminate, and only to set it |
| Control.TerminateSticky | src/MultiplexerPushButton8.cpp:39-52 | no sequence of starts and stops ever clears the terminate flag |
| Control.SilentAfterStop | src/MultiplexerPushButton8.cpp:26-61 | after a successful stop, whatever starts and stops follow, every pass drives no line and calls no observer |
| Debounce.Initial | include/cppgpio/MultiplexerPushButton8.hpp:157-159 | eight entries per array, all timestamps at the clock's epoch, every level inactive, no hold candidate |
| Debounce.IdleReset | src/MultiplexerPushButton8.cpp:130-142 | every other inactive channel has its timestamp set to now; every other entry is unchanged |
| Debounce.ResetStampsAt | src/MultiplexerPushButton8.cpp:131-142 | the reset loop over the entries keeps the length and resets exactly the inactive entries other than the scanned one |
| Debounce.StepTracksInput | src/MultiplexerPushButton8.cpp:161-167 | after a tick the scanned channel's last level is the level just read |
| Debounce.StepOtherChannels | src/MultiplexerPushButton8.cpp:130-142 | a tick leaves other channels' levels and hold flags alone and moves their timestamps to now exactly when they are inactive |
| Debounce.StepKeepsHeldImpliesActive | src/MultiplexerPushButton8.cpp:162-183 | every tick preserves "a hold candidate is active" |
| Debounce.StepPushed | src/MultiplexerPushButton8.cpp:147-159 | `Pushed` fires exactly on an inactive read of a hold candidate whose time since its last transition has reached the minimum press length; it is then the only event and reports that time |
| Debounce.StepHeld | src/MultiplexerPushButton8.cpp:161-183 | `Held` fires exactly on an active read of a hold candidate whose time has reached the hold length; on a rising edge it fires only for a zero hold length; it reports that time and clears the candidate |
| Debounce.StepEventBounds | src/MultiplexerPushButton8.cpp:147-183 | at most one event per tick, always for the scanned index, with a duration at least the threshold that fired it |
| PushButton.Delivered | src/MultiplexerPushButton8.cpp:154-157 | an event reaches its callback exactly when that callback is set; order is kept and nothing is added |
| PushButton.DeliveredAppend | src/MultiplexerPushButton8.cpp:147-183 | the calls for two event runs are the calls for the first run, then those for the second |
| PushButton.MultiplexerPushButton8.constructor | src/MultiplexerPushButton8.cpp:89-96 | the table is `Debounce.Initial`; the thresholds are the arguments, defaulting to 2 ms and 750 ms; no callback is set |
| PushButton.MultiplexerPushButton8.Start | src/MultiplexerPushButton8.cpp:105-115 | starts the input line and appends one observer reaching this button to the controller's list on every call; always succeeds |
| PushButton.MultiplexerPushButton8.Stop | src/MultiplexerPushButton8.cpp:118-122 | stops the input line only and always succeeds; the controller's list is untouched |
| PushButton.MultiplexerPushButton8.OnMultiplexerChange | src/MultiplexerPushButton8.cpp:125-184 | the arrays become `Debounce.Step` of their old value; the callbacks made are the set ones among its events, in order; "hold candidate implies active" is kept |
| Traces.RunKeepsHeldImpliesActive | src/MultiplexerPushButton8.cpp:125-184 | any sequence of scan ticks keeps "a hold candidate is active" |
| Traces.QuietWhileActive | src/MultiplexerPushButton8.cpp:130-183 | while a channel stays active and short of the hold length, ticks of any index fire nothing for it and leave its entries alone |
| Traces.RisingEdge | src/MultiplexerPushButton8.cpp:161-167 | the tick that sees a channel go active starts its timer, makes it a hold candidate and, with a positive hold length, fires nothing |
| Traces.FallingEdge | src/MultiplexerPushButton8.cpp:147-167 | the tick that sees an active hold candidate go inactive fires `Pushed` with its elapsed time exactly when that reaches the minimum press length; the channel ends inactive and not a candidate |
| Traces.HoldFires | src/MultiplexerPushButton8.cpp:169-183 | an active hold candidate read active at the hold length fires `Held` with its elapsed time and stays active, no longer a candidate |
| Traces.PressedPart | src/MultiplexerPushButton8.cpp:130-183 | after a rising edge and active reads short of the hold length, the channel is an active hold candidate timed from the edge, and nothing has fired for it |
| Traces.PressThenRelease | src/MultiplexerPushButton8.cpp:125-184 | a press from t0 to t1 that never reaches the hold length reports exactly `Pushed(i, t1 - t0)` when it lasted at least the minimum press length, and nothing otherwise |
| Traces.HeldPart | src/MultiplexerPushButton8.cpp:169-183 | the first active read at or after the hold length fires `Held(i, th - t0)` and leaves the channel active and no longer a candidate |
| Traces.HoldThenRelease | src/MultiplexerPushButton8.cpp:147-183 | a press held past the hold length reports exactly one `Held(i, th - t0)` on its channel, and the release fires no `Pushed` |
| Traces.RunAppend | src/MultiplexerPushButton8.cpp:125-184 | running two tick sequences one after the other is running their concatenation |
| Traces.EventsOfMembers | src/MultiplexerPushButton8.cpp:125-184 | the events of channel i in a run are exactly the run's events whose index is i |

## Left out

- Threads, `join` and `sleep_for`: `Pass` is one iteration of the event
  loop's outer `while`, run by the caller. `running` stands for "a thread
  object is present". A stop that arrives in the middle of a pass is not
  modelled, so a pass visits either all eight indices or none.
- GPIO hardware: writing a select line becomes an element of `Pass`'s
  `writes` output. The level of the input line becomes the `input`
  parameter of `OnMultiplexerChange`. Starting and stopping the input line
  become the `inputStarted` flag.
- The steady clock: the time of a tick is the `now` parameter, in
  nanoseconds. Readings are not required to increase.
- Callback bodies: a `std::function` becomes a flag saying whether it is
  set. Each call is appended to `log` (button) or returned as a
  `Notification` (controller). The controller's observers are identified by
  a handle, so the call from the controller into a button's
  `OnMultiplexerChange` is not linked in the model.
- Control.Compact: after `std::remove_if`, the tail slots hold moved-from
  callables, whose content the C++ standard leaves unspecified. The model
  takes them to be empty, as the common library implementations leave
  them.
- Selector.Decompose: bit-field layout is implementation-defined. The
  model assumes `bPinC` is bit 0, `bPinB` bit 1 and `bPinA` bit 2.
- Destructors: each calls `stop`, which is modelled on its own.
- Traces.Next: applies `Debounce.Step` only to an eight-entry table and an
  index in 0..7. Otherwise it does nothing. The controller only scans
  0..7 and a button's arrays always hold eight entries, so the second
  branch is never taken by the runs the lemmas describe.

Where the code and the documented behaviour differ, the model follows the
code:

- A press held past the hold length reports `Held` and then no `Pushed` on
  release. The hold check clears the hold candidate, and the release check
  requires it (`Traces.HoldThenRelease`).
- The header gives `MinTriggerAction` a member default of 3 ms. The
  constructor always initialises it from its argument, whose default is
  2 ms, so 3 ms is never used.
- `MultiplexerPushButton8::stop` does not remove the button's observer from
  the controller. `start` appends a new observer on every call.
- `MultiplexerControl8::stop` sets `bTerminate` and nothing clears it. A
  later `start` succeeds, but its loop scans nothing
  (`Control.SilentAfterStop`).
