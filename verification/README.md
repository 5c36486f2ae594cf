# A verified model of JetKVM's state machines

JetKVM is a KVM-over-IP device. Most of it moves data between libraries and
the kernel; this project models the parts that keep state and decide things,
and proves what every run of them keeps.

| file | what it models |
|---|---|
| `HidKeys.dfy`, `UsbKeyboard.dfy` | the six-slot key buffer with rollover, modifier and consumer bytes, and what the USB host has been told |
| `AutoRelease.dfy` | auto-release timers against keypresses, callbacks and session clears: every interleaving of the locked sections, with a clock |
| `KeepAlive.dfy` | the jitter-aware keepalive that moves those timers |
| `KeyboardMacro.dfy` | conversion and playing of configured macros, with cancellation and a shared buffer |
| `G722.dfy`, `G722Meaning.dfy` | the G.722 encoder in 32-bit integers, and what its quantisers, filter, predictor and scale factors mean |
| `RateLimit.dfy` | the login rate limiter |
| `ChangeSet.dfy`, `Graphs.dfy`, `Resolver.dfy` | file changes over an abstract file system, topological order, the two-pass resolver |
| `GadgetTx.dfy`, `GadgetSafety.dfy`, `GadgetPaths.dfy`, `GadgetDevice.dfy` | building the USB gadget transaction, what holds in every run of it, for which items, and for the device's own ten items |
| `GadgetConvergence.dfy` | what a second transaction finds to do after a first one went through |
| `Normalize.dfy`, `Console.dfy` | the serial console's normaliser, line splitter, labels and pause buffer |
| `AtxDebounce.dfy` | publishing the ATX LEDs with a debounced HDD OFF |
| `FrameStream.dfy` | the length-prefixed video frame stream |
| `Wrappers.dfy` | shared types |

Code that changes things step by step is a class or a method with loops, proved
against a function on values; runs are folds of those functions, and the main
lemmas speak about all runs.

How the surroundings are modelled:

- Each locked section is one atomic step. Clock readings, operating system
  answers and "did this HID report reach the host" are parameters. A failed
  file operation may leave anything within its own footprint, but it unmounts
  nothing, making directories never touches what is there, and only a failed
  reordering can leave a new link.
- A path is its list of components, and a change is named by its path or by a
  name of its own. The library that orders the change graph is replaced by a
  topological sort proved here; a change that depends on itself is a cycle.
- Attribute maps are sequences in any order, since a Go map is walked in any
  order. The dependencies a pass adds to a change are kept in a map by key.
- The console's characters stand for bytes. Library splitting after one line
  ending is done by the same scan as for the other modes.
- G.722 arithmetic is done in a 32-bit integer type, so that each operation
  carries a proof that it does not overflow; `>>` is floor division.

What the proofs bring out about the code:

- The rollover test in `KeypressReport` never succeeds, because the state it
  looks at was zeroed before; every pressed non-modifier key gets a timer.
- A media key's timer never finds its key, so media keys do not auto-release.
- Every key stays covered by a timer in all runs exactly when there is at most
  one input thread, given that session clears are not skipped. A clear skipped
  because the USB port is not ready strands a key that only had a timer.
- The keepalive's 225 ms staleness guard never decides anything by itself.
- Rate limiter backoff goes up to two hours although a comment says one. A
  cleanup run throws a backoff level away exactly when it removes an entry that
  would have escalated, and exactly then some later run can tell: five failures
  right after it lock the address out for less time.
- A directory is listed by name, so links count as "in order" only when their
  names increase. On the device every transaction relinks all functions exactly
  when the serial console is on, or audio and mass storage both are.
- Committing a transaction dereferences a missing reordering change exactly
  when no function is enabled. The device cannot get there: its wake function
  is always enabled.
- Normalising is idempotent on all inputs exactly when newline tags are off and
  the text shown for a tab is itself kept as it is and leaves no escape sequence
  open (empty and printable texts are such). With such tabs and newline tags on,
  it fails exactly on inputs with a line ending outside of a preserved escape
  sequence.
- An ATX timer callback that gets its lock after its timer was cancelled can
  publish a state that is no longer true; with no timer remembered, this is the
  only way the published state can differ from the observed one, and it lasts
  until the next observation. Such a callback can also publish the same state
  twice in a row, and another power LED than the observed one; exact conditions
  for all three are proved, with runs that show the first two.
- After a transaction of the device that went through, the next one disables no
  function and only unbinds, binds and, with the switches above, relinks.
- Cutting the console's input into chunks shows exactly when the last token of a
  chunk does not join cleanly: an open escape sequence whose rest is not kept
  anyway, an ESC before `[` or `]`, or half a pair of line endings.
- The second emptiness test in the macro conversion never succeeds.

## Model

| member | source | states |
|---|---|---|
| `HidKeys.Slot` | internal/usbgadget/hid_keyboard.go:652-669 | the slot a keypress uses is the first that holds the key or is free |
| `HidKeys.KeypressTracksHeld` | internal/usbgadget/hid_keyboard.go:601-691 | one keypress changes the padded buffer exactly as it changes the insertion-ordered set of held keys, emptied on a seventh press |
| `HidKeys.PressKeepsValid` | internal/usbgadget/hid_keyboard.go:648-687 | a press keeps six slots, free slots last, no media key, no stored rollover |
| `HidKeys.ReleaseKeepsValid` | internal/usbgadget/hid_keyboard.go:648-687 | so does a release, which moves later keys down |
| `HidKeys.ReportIsValid` | internal/usbgadget/hid_keyboard.go:517-554 | so does any whole report, of any length |
| `UsbKeyboard.Keyboard.ConsumerControlReport` | internal/usbgadget/hid_consumer.go:108-125 | the stored consumer byte changes with the host's, and only when the write went through |
| `UsbKeyboard.Keyboard.WriteKeyboard` | internal/usbgadget/hid_keyboard.go:452-467 | a delivered write replaces the host's keyboard report, a failed one changes nothing |
| `UsbKeyboard.Keyboard.UpdateKeysDown` | internal/usbgadget/hid_keyboard.go:487-515 | a rollover is zeroed in place in the caller's slice; the slice itself may become the stored one; the returned keys never start with the rollover code |
| `UsbKeyboard.Keyboard.ReportKeypress` | internal/usbgadget/hid_keyboard.go:601-691 | a keypress takes the stored state to the specified next one and edits no caller's buffer |
| `UsbKeyboard.Keyboard.ReportOnKeyboard` | internal/usbgadget/hid_keyboard.go:635-690 | the keyboard page part: one report with the new modifier byte and slots is sent, and the settled slots are stored |
| `UsbKeyboard.Keyboard.PlaceKey` | internal/usbgadget/hid_keyboard.go:648-684 | the in-place loop gives the pressed or released buffer |
| `UsbKeyboard.Keyboard.KeypressReport` | internal/usbgadget/hid_keyboard.go:693-714 | a pressed non-modifier key always gets a timer, a released one always loses it: the rollover test never succeeds |
| `UsbKeyboard.Keyboard.KeyboardReport` | internal/usbgadget/hid_keyboard.go:517-554 | a whole report sends consumer bits and compacted keys; it fails exactly when a write that was made failed |
| `UsbKeyboard.Keyboard.UpdateConsumer` | internal/usbgadget/hid_keyboard.go:517-554 | the consumer byte is only written when the old or the new one is not zero |
| `UsbKeyboard.StripMediaKeys` | internal/usbgadget/hid_consumer.go:58-80 | keys that are neither zero nor media keys move to the front in order; the media keys become the consumer bits |
| `UsbKeyboard.RunKeepsValid` | internal/usbgadget/hid_keyboard.go:487-554 | over every run of keypresses (auto-releases included) and reports, delivered or not, the buffer stays valid |
| `UsbKeyboard.RunTracksHeld` | internal/usbgadget/hid_keyboard.go:601-691 | over every keypress run on ordinary keys the buffer is the insertion-ordered set of held keys |
| `UsbKeyboard.RunTracksModifiers` | internal/usbgadget/hid_keyboard.go:638-647 | over every run each modifier bit is set exactly while its modifier is held |
| `UsbKeyboard.HostHasConsumer` | internal/usbgadget/hid_consumer.go:108-125 | over every run, failed writes included, the stored consumer byte is the host's |
| `UsbKeyboard.DeliveredWriteHeals` | internal/usbgadget/hid_keyboard.go:452-467 | one delivered keyboard write brings the host up to date, whatever was lost before |
| `UsbKeyboard.HostFollowsRun` | internal/usbgadget/hid_keyboard.go:452-554 | when writes are delivered the host has the stored state, or a rollover while the stored keys are zero, and the consumer bits last requested |
| `UsbKeyboard.BitsAre` | internal/usbgadget/hid_consumer.go:26-44 | which keys are media keys and modifiers, and which bit each of them has |
| `UsbKeyboard.RunTracksMedia` | internal/usbgadget/hid_keyboard.go:517-633 | on delivered runs the host's bit of a media key is set exactly while the key is held, by its last keypress or report |
| `UsbKeyboard.KeptSplits` | internal/usbgadget/hid_consumer.go:58-80 | a report's keys are kept or dropped one by one and stay in order |
| `UsbKeyboard.ReportStoresKeys` | internal/usbgadget/hid_keyboard.go:517-554 | a report stores exactly the keys in its first six slots that are no media keys, unless the first of them is the rollover code |
| `UsbKeyboard.MediaKeyIsNeverStored` | internal/usbgadget/hid_keyboard.go:264-275 | a media key's auto-release never finds its key |
| `AutoRelease.AutoReleaseTimers.ScheduleAutoRelease` | internal/usbgadget/hid_keyboard.go:193-207 | the key's timer is replaced by one due in 100 ms |
| `AutoRelease.AutoReleaseTimers.CancelAutoRelease` | internal/usbgadget/hid_keyboard.go:209-218 | the key has no timer any more, all others are untouched |
| `AutoRelease.AutoReleaseTimers.CancelAllAutoReleaseTimers` | internal/usbgadget/hid_keyboard.go:224-234 | no timer is left |
| `AutoRelease.AutoReleaseTimers.DelayAutoReleaseWithDuration` | internal/usbgadget/hid_keyboard.go:236-247 | every timer, and no other, gets the new deadline |
| `AutoRelease.AutoReleaseTimers.TakeTimer` | internal/usbgadget/hid_keyboard.go:249-261 | a callback goes on exactly when its key still has a timer, and takes it |
| `AutoRelease.BufferStepIsKeypress` | internal/usbgadget/hid_keyboard.go:601-691 | the buffer step of the interleaving model is the keyboard's own, delivered or not |
| `AutoRelease.StepKeepsInv` | internal/usbgadget/hid_keyboard.go:193-281 | every locked section, with one input thread, keeps every key covered, every timer live and every cancel safe |
| `AutoRelease.RunKeepsInv` | internal/usbgadget/hid_keyboard.go:193-281 | so does every interleaving |
| `AutoRelease.NoKeyIsStranded` | internal/usbgadget/hid_keyboard.go:193-281 | in every interleaving each key in the buffer has a live timer due within 100 ms, a fired timer whose callback will find it, a release on the way, a schedule still to run or a clear still to run |
| `AutoRelease.QuietMeansReleased` | internal/usbgadget/hid_keyboard.go:193-281 | once no timer, release, input or clear is left, the buffer is empty |
| `AutoRelease.SilenceKeepsDeadlines` | internal/usbgadget/hid_keyboard.go:236-247 | without presses and keepalives no deadline moves |
| `AutoRelease.SilenceReleases` | internal/usbgadget/hid_keyboard.go:249-281 | after more than 100 ms without them every key left is already being released |
| `AutoRelease.HeldUntilDeadline` | internal/usbgadget/hid_keyboard.go:193-281 | a key is not released before its deadline, whatever happens to other keys |
| `AutoRelease.DeadlinesAre` | internal/usbgadget/hid_keyboard.go:193-247 | the deadline is 100 ms after scheduling, and a keepalive puts it off to the time it asks for |
| `AutoRelease.TwoThreadsStrand` | internal/hidrpc/hidrpc.go:36-37 | with any number of input threads from two on there is a run that strands a key |
| `AutoRelease.CoveredExactlyWhen` | internal/hidrpc/hidrpc.go:36-37 | every key stays covered in all runs if and only if there is at most one input thread |
| `AutoRelease.SkippedClearStrands` | usb.go:66-77 | a session clear whose report is skipped strands a key if and only if it was down and only a timer would have released it |
| `AutoRelease.SkippedClearIsReached` | usb.go:66-77 | a run of one press after which a skipped clear strands the key |
| `KeepAlive.Session.HandleKeepAlive` | hidrpc.go:114-163 | the handler decides and moves its two instants as specified |
| `KeepAlive.Session.ResetKeepAliveTime` | webrtc.go:116-121 | both instants are forgotten |
| `KeepAlive.RejectedForGood` | hidrpc.go:114-163 | once a tick is rejected all later ones are, until a reset |
| `KeepAlive.BothInstantsAgree` | hidrpc.go:155-163 | the arrival and the reset instant are always the same |
| `KeepAlive.AcceptedTick` | hidrpc.go:108-163 | an accepted tick sets a deadline 100 ms ahead, less its lateness; never earlier than the one before and at most 150 ms after the tick before |
| `KeepAlive.HoldIsBounded` | hidrpc.go:108-163 | after n accepted ticks a key is held at most 100 ms per tick, plus 100 ms |
| `KeepAlive.StalenessIsRedundant` | hidrpc.go:114-163 | dropping the 225 ms guard changes no verdict |
| `KeepAlive.AcceptedExactlyWhen` | hidrpc.go:114-163 | a tick is accepted exactly when every gap since the reset is at most 100 ms |
| `KeyboardMacro.ConfigKeysToHid` | keyboard_macro_exec.go:61-80 | six bytes for up to six known names, else the first error |
| `KeyboardMacro.ConfigModifiersToHid` | keyboard_macro_exec.go:82-93 | the union of the masks, or the first unknown name |
| `KeyboardMacro.ConvertConfigMacro` | keyboard_macro_exec.go:14-59 | a press and a release for each step that is not empty, the first error otherwise; no steps is an error |
| `KeyboardMacro.ConvertedStepsAre` | keyboard_macro_exec.go:14-93 | converting fails exactly on too many keys or unknown names; otherwise each step that is not empty gives a press with its keys, modifiers and delay and a release with its delay, in order |
| `KeyboardMacro.ConvertedEndsClear` | keyboard_macro_exec.go:14-59 | every converted macro ends with a step that lets go of everything |
| `KeyboardMacro.EmptyReportReleases` | internal/usbgadget/hid_keyboard.go:517-554 | a delivered empty report leaves nothing pressed on device and host, media keys included |
| `KeyboardMacro.PlayStep` | jsonrpc.go:1296-1309 | the report of the step reaches the host, and a clear step leaves nothing pressed |
| `KeyboardMacro.ExecuteKeyboardMacro` | jsonrpc.go:1287-1327 | exactly the reports of the steps played reach the host, and an empty one on cancelling; cancelled and clear-ending macros leave nothing pressed; the shared zero buffer is unchanged although the stored state may alias it |
| `KeyboardMacro.PlayConfigMacro` | keyboard_macro_exec.go:14-93 | any configured macro, played to the end or cancelled after any step, leaves nothing pressed, and played to the end sent exactly its converted steps; an unconvertible one does nothing |
| `G722.Saturate` | internal/audio/g722.go:264-272 | values outside 16 bits go to the nearer bound, others stay |
| `G722.Scale` | internal/audio/g722.go:123-131 | the scale factor is in [32, 16384] in the low band and [8, 16384] in the high band, all shifts and table indices in range |
| `G722.Rescaled` | internal/audio/g722.go:115-131 | the logarithm stays within its limits and always stands for the scale factor |
| `G722.NextPole2` | internal/audio/g722.go:187-207 | the second pole coefficient is at most 12288 in magnitude |
| `G722.NextPole1` | internal/audio/g722.go:209-222 | the first pole coefficient is within the stability bound of section 3.6 of ITU-T G.722 |
| `G722.Predicted` | internal/audio/g722.go:177-262 | all predictor state stays in 16 bits and both poles in the stability region |
| `G722.LowSignal` | internal/audio/g722.go:84-92 | the low half-band of any 24 samples fits 16 bits, without overflow on the way |
| `G722.HighSignal` | internal/audio/g722.go:84-92 | so does the high one |
| `G722.Level` | internal/audio/g722.go:100-105 | the level chosen is the first decision level above the difference |
| `G722.LowNext` | internal/audio/g722.go:112-132 | the low band's invariant holds after any code |
| `G722.HighNext` | internal/audio/g722.go:150-169 | the high band's invariant holds after any code |
| `G722.InitialScale` | internal/audio/g722.go:68-73 | the initial scale factors are the ones of a zero logarithm |
| `G722.StreamStaysInRange` | internal/audio/g722.go:75-262 | for every stream of samples and after every pair: scale factors in range, state in 16 bits, both bands stable |
| `G722.BandsMoveByCode` | internal/audio/g722.go:112-171 | each band moves on by the bits of the emitted byte alone |
| `G722.ReceiverTracks` | internal/audio/g722.go:75-262 | a receiver reproduces both bands, coefficients and scale factors included, from the bytes alone |
| `G722Meaning.LowCodeDescribes` | internal/audio/g722.go:94-110 | the low band's code tells the sign of the difference and the cell its magnitude lies in |
| `G722Meaning.LowCodeIsClose` | internal/audio/g722.go:94-113 | the receiver's value has the sign of the difference and lies in the same group of cells, which bounds the error |
| `G722Meaning.LowCodeIsMonotone` | internal/audio/g722.go:94-113 | a larger difference never gives a smaller value at the receiver |
| `G722Meaning.HighCodeDescribes` | internal/audio/g722.go:134-150 | the high band's code tells the sign and the side of the threshold, and the receiver's value has both |
| `G722Meaning.ConstantSignal` | internal/audio/g722.go:84-92 | a constant signal is all in the low band, at half its value |
| `G722Meaning.ImpulseResponse` | internal/audio/g722.go:84-92 | a unit impulse comes out as the filter's response, with alternating signs in the high band |
| `G722Meaning.ResponseIsSymmetric` | internal/audio/g722.go:39-41 | the 24-tap response is the same from both ends |
| `G722Meaning.SecondPoleFollowsStandard` | internal/audio/g722.go:187-207 | the second pole adapts by the formula of section 3.6 of ITU-T G.722, rounded and kept to 3/4 |
| `G722Meaning.FirstPoleFollowsStandard` | internal/audio/g722.go:209-222 | so does the first, kept to 15/16 less the second |
| `G722Meaning.ZeroFollowsStandard` | internal/audio/g722.go:224-237 | so do the six zeros |
| `G722Meaning.LinesMove` | internal/audio/g722.go:177-247 | each line moves by one; the new values are the quantised difference and the two reconstructed signals |
| `G722Meaning.LineHoldsHistory` | internal/audio/g722.go:239-242 | the delay line always holds the last six differences in order |
| `G722Meaning.PolePrediction` | internal/audio/g722.go:249-253 | the pole prediction is the sum of coefficients times reconstructed signals, each rounded down |
| `G722Meaning.ZeroPrediction` | internal/audio/g722.go:255-261 | the zero prediction likewise over six differences, and the prediction is the sum of both |
| `G722Meaning.ScaleDoubles` | internal/audio/g722.go:123-131 | 2048 more in the logarithm doubles the scale factor |
| `G722Meaning.ScaleGrows` | internal/audio/g722.go:123-131 | within an octave it never falls |
| `G722Meaning.WeightsGrow` | internal/audio/g722.go:112-116 | the logarithm moves by more for larger values, whatever their sign |
| `G722Meaning.LowStep` | internal/audio/g722.go:112-132 | the difference is scaled by the old factor, and the logarithm leaks by 1/128 and moves by the weight of the code |
| `G722Meaning.HighStep` | internal/audio/g722.go:150-169 | the same in the high band |
| `G722Meaning.ByteOfPair` | internal/audio/g722.go:78-171 | the byte holds both codes, each of its own half-band of the last 24 samples |
| `G722.G722Encoder.constructor` | internal/audio/g722.go:68-73 | a fresh encoder is valid and silent |
| `G722.G722Encoder.Encode` | internal/audio/g722.go:75-175 | as many bytes as fit, each the code of its pair; the rest of the buffer is untouched; the state is that of the stream so far |
| `G722.G722Encoder.EncodePair` | internal/audio/g722.go:78-171 | one pair of samples, without overflow or index error |
| `G722.G722Encoder.SplitBands` | internal/audio/g722.go:84-92 | the filter loop computes both half-bands |
| `G722.G722Encoder.FindCode` | internal/audio/g722.go:100-110 | the search loop finds the code of the first decision level above the difference |
| `G722.G722Encoder.QuantiseLow` | internal/audio/g722.go:94-110 | the code of the low band's difference |
| `G722.G722Encoder.QuantiseHigh` | internal/audio/g722.go:134-148 | the code of the high band's difference |
| `G722.G722Encoder.EncodeLow` | internal/audio/g722.go:94-132 | code and next state of the low band, the high band untouched |
| `G722.G722Encoder.EncodeHigh` | internal/audio/g722.go:134-169 | code and next state of the high band, the low band untouched |
| `G722.G722Encoder.Rescale` | internal/audio/g722.go:115-131 | the scale factor step in place |
| `G722.G722Encoder.ScaleOf` | internal/audio/g722.go:123-131 | the shifts give the scale factor of the logarithm |
| `G722.G722Encoder.Block4` | internal/audio/g722.go:177-262 | the predictor step in place: all lines shifted, all coefficients adapted from the old state |
| `G722.G722Encoder.AdaptPoles` | internal/audio/g722.go:184-222 | both pole coefficients |
| `G722.G722Encoder.AdaptZeros` | internal/audio/g722.go:224-237 | all six zero coefficients |
| `G722.G722Encoder.ShiftLine` | internal/audio/g722.go:239-242 | the delay line moves by one |
| `G722.G722Encoder.ShiftPoles` | internal/audio/g722.go:243-247 | both short delay lines move by one and the new poles are taken over |
| `G722.G722Encoder.SumZeros` | internal/audio/g722.go:255-259 | the zero section's sum, without overflow |
| `RateLimit.WindowDoubles` | ratelimit.go:76-83 | the window is 15 minutes at first and each backoff level doubles it, up to two hours |
| `RateLimit.RateLimiter.IsAllowed` | ratelimit.go:87-118 | only a running lockout refuses, and the seconds to wait are enough and at most one too many |
| `RateLimit.RateLimiter.RecordFailure` | ratelimit.go:121-160 | exactly the address's entry changes, to the specified one |
| `RateLimit.RateLimiter.RecordSuccess` | ratelimit.go:163-167 | exactly the address's entry is forgotten |
| `RateLimit.RateLimiter.Cleanup` | ratelimit.go:61-73 | exactly the stale entries are forgotten |
| `RateLimit.FailureKeepsInv` | ratelimit.go:121-160 | an allowed failure keeps any nine failures 15 minutes apart |
| `RateLimit.RunKeepsInv` | ratelimit.go:61-167 | so does every legal run, with its successes and cleanup runs |
| `RateLimit.AtMostEight` | ratelimit.go:61-160 | between successes any half-open 15-minute interval holds at most eight failures of an address |
| `RateLimit.EightIsReached` | ratelimit.go:121-160 | eight is reached: the bound is tight |
| `RateLimit.FifthFailureLocks` | ratelimit.go:153-160 | the fifth failure refuses every attempt for exactly one window |
| `RateLimit.AddressesAreIndependent` | ratelimit.go:87-167 | what is remembered of an address depends on its own events and cleanup runs alone |
| `RateLimit.LockoutsDouble` | ratelimit.go:76-160 | whatever other addresses do, the lockout after n others lasts exactly 15 minutes times 2^min(n, 3) |
| `RateLimit.QuietWindowsDoNotEscalate` | ratelimit.go:137-151 | an expired window at level 0 escalates exactly when it had five failures |
| `RateLimit.CleanupIsInvisibleExactlyWhen` | ratelimit.go:61-73 | over all later runs of failures, successes and cleanups, a cleanup changes nothing about who is allowed if and only if it throws no backoff level away |
| `RateLimit.CleanupShortensLockout` | ratelimit.go:61-160 | two legal runs that differ in one cleanup, after which an address is allowed in one and refused in the other |
| `RateLimit.CleanupForgetsBackoff` | ratelimit.go:61-160 | the next failure gets another backoff level because of a cleanup if and only if the entry was stale and would have escalated |
| `Graphs.TopologicalOrder` | internal/usbgadget/changeset_resolver.go:24-44 | an order of all keys with dependencies first, or else there is a cycle |
| `Graphs.KnotHasCycle` | internal/usbgadget/changeset_resolver.go:36-39 | keys none of which can come first contain a cycle |
| `Graphs.OrderExcludesCycle` | internal/usbgadget/changeset_resolver.go:36-39 | an order rules out every cycle |
| `Graphs.RankExcludesCycle` | internal/usbgadget/changeset_resolver.go:36-39 | falling ranks rule out every cycle |
| `ChangeSet.ApplyChanges` | internal/usbgadget/changeset_resolver.go:116-140 | each change is looked at afresh when its turn comes; the run stops at the first error that counts |
| `ChangeSet.ApplyChange` | internal/usbgadget/changeset.go:400-432 | one step does what the state it finds asks for |
| `ChangeSet.RecreateSymlinks` | internal/usbgadget/changeset_symlink.go:93-136 | all links of the directory go, then the wanted ones are made |
| `ChangeSet.RelinkedHasLinks` | internal/usbgadget/changeset_symlink.go:93-136 | exactly the wanted links are there afterwards |
| `ChangeSet.ReorderSettlesExactlyWhen` | internal/usbgadget/changeset_symlink.go:26-91 | relinked links are found in order exactly when their names increase |
| `ChangeSet.ChangeSettles` | internal/usbgadget/changeset.go:292-370 | a directory, content or absence brought about needs nothing more |
| `ChangeSet.DirectoryHasParents` | internal/usbgadget/changeset.go:400-432 | a directory is made with all directories above it |
| `ChangeSet.AbsenceLasts` | internal/usbgadget/changeset.go:400-432 | only a change that may create a path ends its absence, even when it fails |
| `ChangeSet.AbsenceThroughRun` | internal/usbgadget/changeset_resolver.go:116-140 | after a removal that must not fail the path stays absent until such a change |
| `ChangeSet.ReorderGivesLinks` | internal/usbgadget/changeset_symlink.go:26-136 | after a reordering, whether or not it acted, exactly the wanted links are there |
| `ChangeSet.LinksLast` | internal/usbgadget/changeset.go:400-432 | other changes leave links alone, whether or not they go through |
| `Resolver.ChangeSetResolver.Collect` | internal/usbgadget/changeset_resolver.go:142-184 | fails exactly when two different unconditional changes share a key; otherwise both maps are complete |
| `Resolver.ConflictExactlyWhen` | internal/usbgadget/changeset.go:165-171 | there is a conflict exactly when a later unconditional change asks otherwise than the first one with its key |
| `Resolver.FirstIsTaken` | internal/usbgadget/changeset_resolver.go:142-184 | of the unconditional changes with a key the first is taken |
| `Resolver.LastIsTaken` | internal/usbgadget/changeset_resolver.go:142-184 | of the conditional ones the last |
| `Resolver.ChangeSetResolver.ToOrderedChanges` | internal/usbgadget/changeset_resolver.go:24-44 | a dependency order of the current graph, or a cycle in it |
| `Resolver.ChangeSetResolver.Trigger` | internal/usbgadget/changeset_resolver.go:72-86 | exactly the changes named "before change" join, or a named key is undefined |
| `Resolver.ChangeSetResolver.DoResolveChanges` | internal/usbgadget/changeset_resolver.go:46-90 | the first pass gathers what acting changes name; the second only lists |
| `Resolver.ChangeSetResolver.ResolveChanges` | internal/usbgadget/changeset_resolver.go:92-114 | one or two passes give a plan, or there is a cycle or an undefined key |
| `Resolver.ChangeSetResolver.GetChanges` | internal/usbgadget/changeset_resolver.go:142-184 | every change set resolves to a plan or fails for a stated reason |
| `Resolver.ChangeSetResolver.Apply` | internal/usbgadget/changeset_resolver.go:186-192 | nothing is touched unless the whole plan could be made; a plan is then run in order |
| `Resolver.NamedByUnconditionals` | internal/usbgadget/changeset_resolver.go:72-86 | a conditional change is planned if and only if an acting change names it |
| `Resolver.PlanIsComplete` | internal/usbgadget/changeset_resolver.go:46-114 | the plan holds each unconditional change once plus exactly the named conditional ones |
| `Resolver.PlanIsOrdered` | internal/usbgadget/changeset_resolver.go:46-114 | every dependency and every triggered "before change" step precedes its dependent |
| `Resolver.CycleInFullGraph` | internal/usbgadget/changeset_resolver.go:24-44 | a cycle found in any pass is one among all requested dependencies |
| `Resolver.CycleMeansNoPlan` | internal/usbgadget/changeset_resolver.go:24-114 | a cycle among the planned changes, through dependencies and the "before change" steps of acting changes, rules out every plan |
| `Resolver.CycleMeansFailure` | internal/usbgadget/changeset_resolver.go:92-192 | with such a cycle the resolution fails, so nothing is applied |
| `Resolver.ResolvesExactlyWhen` | internal/usbgadget/changeset_resolver.go:24-192 | with flat conditional changes, a plan comes out if and only if no changes conflict, every "before change" key of an acting change is defined, and those changes have no cycle |
| `GadgetTx.UsbGadgetTransaction.AddFileChange` | internal/usbgadget/config_tx.go:73-82 | the change is appended and named by its key |
| `GadgetTx.UsbGadgetTransaction.WriteGadgetAttrs` | internal/usbgadget/config_tx.go:280-296 | one change for each attribute, each after its directory |
| `GadgetTx.UsbGadgetTransaction.GetDisableKeys` | internal/usbgadget/config_tx.go:170-183 | the disable keys of all enabled functions, in order |
| `GadgetTx.UsbGadgetTransaction.DisableGadgetItemConfig` | internal/usbgadget/config_tx.go:185-193 | a disabled item loses its place in the configuration, if it has one |
| `GadgetTx.UsbGadgetTransaction.AddReorderSymlinkChange` | internal/usbgadget/config_tx.go:298-317 | the single reordering gains a link and its dependencies |
| `GadgetTx.UsbGadgetTransaction.WriteFunctionFiles` | internal/usbgadget/config_tx.go:195-243 | directory, attributes and report descriptor of an item, each after what it needs |
| `GadgetTx.UsbGadgetTransaction.WriteConfigAttrs` | internal/usbgadget/config_tx.go:245-259 | configuration directory and attributes of an item |
| `GadgetTx.UsbGadgetTransaction.WriteGadgetItemConfig` | internal/usbgadget/config_tx.go:195-278 | everything an enabled item asks for |
| `GadgetTx.UsbGadgetTransaction.WriteGadgetConfig` | internal/usbgadget/config_tx.go:126-168 | the whole change list of all items, and the controller |
| `GadgetTx.UsbGadgetTransaction.RebindUsb` | internal/usbgadget/config_tx.go:332-350 | unbinding after the controller, binding after unbinding |
| `GadgetTx.UsbGadgetTransaction.Commit` | internal/usbgadget/config_tx.go:101-111 | panics exactly without a reordering; otherwise resolves and runs the changes, or touches nothing |
| `GadgetSafety.ItemsAreSound` | internal/usbgadget/config_tx.go:143-168 | after any items every dependency points back to an unconditional change and every trigger list is empty or complete |
| `GadgetSafety.ItemsAreCovered` | internal/usbgadget/config_tx.go:195-278 | after any items every function has its disabling change, and the reordering waits for every change with triggers |
| `GadgetSafety.ReorderExists` | internal/usbgadget/config_tx.go:298-317 | there is a reordering exactly when a function is enabled |
| `GadgetSafety.WholeIsAcyclic` | internal/usbgadget/config_tx.go:143-350 | the graph of all dependencies and triggers has no cycle, for any items |
| `GadgetSafety.TriggersAreDefined` | internal/usbgadget/config_tx.go:170-183 | every "before change" key is defined |
| `GadgetSafety.TransactionResolves` | internal/usbgadget/config_tx.go:101-111 | neither a conflict, nor a cycle, nor an undefined key can come up |
| `GadgetSafety.ReorderComesLater` | internal/usbgadget/config_tx.go:298-317 | in every plan the reordering follows every change of a function's files |
| `GadgetSafety.WritesFindNoLinks` | internal/usbgadget/config_tx.go:195-278 | whenever a function's attribute or descriptor that the first pass found different has its turn, no enabled function is linked, whatever the system answered |
| `GadgetSafety.LinksComeBackLast` | internal/usbgadget/config_tx.go:261-275 | links are only recreated after all such changes |
| `GadgetSafety.PlanOrder` | internal/usbgadget/config_tx.go:319-350 | functions' files, then links, then controller, then unbind, then bind |
| `GadgetSafety.EndsFullyLinked` | internal/usbgadget/changeset_symlink.go:93-136 | a run that went to its end leaves exactly the links of the enabled functions, whatever ignored calls failed |
| `GadgetSafety.GadgetResolution` | internal/usbgadget/changeset_resolver.go:92-114 | the resolver always gives a plan for the transaction |
| `GadgetSafety.ConfigureUsbGadget` | internal/usbgadget/config.go:212-222 | panics exactly when no function is enabled; otherwise resolves, the run that follows rewrites functions only while all are unlinked, and ends with all of them linked if it goes to its end |
| `GadgetPaths.DistinctItemsDoNotClash` | internal/usbgadget/config_tx.go:143-350 | items with distinct paths and devices, and nothing at or below a link, are all that the results above need |
| `GadgetDevice.DefaultIsDeviceConfig` | internal/usbgadget/config.go:27-68 | the default configuration with any switches and attribute values is one the results below speak about |
| `GadgetDevice.DeviceConfigIsDistinct` | internal/usbgadget/config.go:27-88 | its ten items, with any of them enabled and attributes in any order, meet that condition |
| `GadgetDevice.DeviceLinksAreDistinct` | internal/usbgadget/config_tx.go:261-275 | its links are different places right in the configuration |
| `GadgetDevice.PrefixIsLess` | internal/usbgadget/changeset_symlink.go:50-55 | in a listing a name comes before longer ones that start with it |
| `GadgetDevice.NamesIncreaseExactlyWhen` | internal/usbgadget/changeset_symlink.go:26-91 | the names of its links increase if and only if the serial console is off and audio and mass storage are not both on |
| `GadgetDevice.RelinksExactlyWhen` | internal/usbgadget/changeset_symlink.go:26-91 | with all links in place the next transaction relinks if and only if they do not |
| `GadgetDevice.UnsortedIsAlwaysRelinked` | internal/usbgadget/changeset_symlink.go:26-91 | and then it relinks whatever state the links are in |
| `GadgetDevice.ConfigureDevice` | internal/usbgadget/config.go:174-222 | configuring the device never panics, always resolves, rewrites functions only while all are unlinked, and ends fully linked if it goes to its end |
| `GadgetConvergence.UpdateGadgetConfig` | internal/usbgadget/config.go:197-222 | after an update that went through, every attribute of every enabled item has its configured bytes, descriptors, directories and links are right, disabled items are gone, the controller is set, and every write that succeeded is there |
| `GadgetConvergence.ThroughIsConfigured` | internal/usbgadget/config_tx.go:143-350 | the same for any run of any plan of the device |
| `GadgetConvergence.RequestsAreMet` | internal/usbgadget/changeset.go:400-432 | in the file system: content, directory, absence, mount, links and written bytes are as asked for at the end |
| `GadgetConvergence.SettledIsMet` | internal/usbgadget/changeset.go:292-370 | a lasting request finds nothing to do if and only if the file system is as asked for |
| `GadgetConvergence.RequestsAreSettled` | internal/usbgadget/changeset_resolver.go:116-140 | after a run that went through, every lasting request finds nothing more to do |
| `GadgetConvergence.IgnoredErrors` | internal/usbgadget/config_tx.go:280-350 | only the wake-up attribute and unbinding may fail unnoticed |
| `GadgetConvergence.FilesFollowDirectories` | internal/usbgadget/config_tx.go:280-296 | an attribute comes after its directory in every plan |
| `GadgetConvergence.StillActsExactlyWhen` | internal/usbgadget/config.go:212-222 | on the device a change still has something to do if and only if it unbinds or binds, or is the reordering with switches for which names do not increase |
| `GadgetConvergence.SecondPlanIsQuiet` | internal/usbgadget/changeset_resolver.go:46-114 | the next plan disables no function, and its first pass finds exactly those changes acting |
| `GadgetConvergence.SecondRunIsQuiet` | internal/usbgadget/changeset_resolver.go:116-140 | and the next run does nothing else, whatever the system answers |
| `Normalize.ScanCsi` | serial_console_helpers.go:58-72 | the end of a CSI sequence: after its final byte, or the end of the input |
| `Normalize.ScanOsc` | serial_console_helpers.go:73-89 | the end of an OSC sequence: after BEL or ESC backslash, or the end of the input |
| `Normalize.NewlineText` | serial_console_helpers.go:92-156 | tag and line ending for each mode, pairs counted once |
| `Normalize.NextToken` | serial_console_helpers.go:52-202 | what the next bytes become and how many they are |
| `Normalize.NormalizeText` | serial_console_helpers.go:52-202 | the index loop normalises token by token |
| `Normalize.SecondPass` | serial_console_helpers.go:52-202 | with tabs that settle, a second pass changes nothing unless line endings are tagged; then the text grows |
| `Normalize.NormalIsIdempotent` | serial_console_helpers.go:52-202 | idempotent on an input exactly when no line ending of it is tagged, for every mode, line ending and ANSI setting, with tabs that settle |
| `Normalize.PlainTabsSettle` | serial_console_helpers.go:158-167 | empty and printable tab texts settle |
| `Normalize.IdempotentExactlyWhen` | serial_console_helpers.go:52-202 | idempotent on all inputs if and only if newline tags are off and tabs settle |
| `Normalize.ChunksJoinExactlyWhen` | serial_console_helpers.go:52-202 | two chunks normalised apart give what they give together if and only if the last token of the first joins cleanly |
| `Normalize.ShiftedRun` | serial_console_helpers.go:92-156 | shifting the pairing of line endings by a byte changes nothing if and only if an even number of them in turn follows |
| `Normalize.NormalIsClean` | serial_console_helpers.go:158-200 | without ANSI preservation no control byte but line endings and tabs gets through |
| `Normalize.FixedPrefix` | serial_console_helpers.go:52-202 | text whose tokens are their own texts and that leaves no escape sequence open is copied, whatever follows |
| `Normalize.CsiEndIs` | serial_console_helpers.go:58-72 | a control sequence goes up to its first final byte, 0x40 to 0x7E |
| `Normalize.OscEndIs` | serial_console_helpers.go:73-89 | a command goes up to the first BEL or ESC backslash |
| `Normalize.VisibleReadsBack` | serial_console_helpers.go:169-196 | hex notation gives the byte, caret notation the character 64 places away |
| `Normalize.NameCode` | serial_console_helpers.go:179-190 | a control byte's name is its name in ASCII |
| `Normalize.TagsAreNames` | serial_console_helpers.go:98-113 | line endings are tagged by the names of their bytes |
| `Console.LineEndingBecomes` | serial_console_helpers.go:92-156 | a line ending, both pairs counted as one, becomes the one of the mode |
| `Console.ByteBecomes` | serial_console_helpers.go:158-200 | any other byte becomes the tab text, a visible control byte, or stays |
| `Console.SequenceBecomes` | serial_console_helpers.go:58-90 | a preserved escape sequence is copied up to its end |
| `Console.WrittenEolEndsLine` | serial_console_helpers.go:115-156 | the normaliser writes the line ending that the splitter of the same mode cuts at |
| `Console.SplitAfterAnyEol` | serial_console_helpers.go:499-536 | the scan gives the lines of the text |
| `Console.LinesAreLines` | serial_console_helpers.go:499-557 | lines concatenate to the text, each is one line, and all but the last end in a line ending |
| `Console.LinesAreCut` | serial_console_helpers.go:499-536 | in terms of the text: the pieces give it back, all but the last end in a line ending of the mode, and none has one before its end |
| `Console.PairsStayTogether` | serial_console_helpers.go:515-535 | when line endings are kept, no pair is torn apart |
| `Console.ShownChunk` | serial_console_helpers.go:361-410 | of a chunk every line is shown after a label, save the first when it goes on with a line |
| `Console.ReceivedIsLabelledInput` | serial_console_helpers.go:361-410 | for every run of chunks, without labels the output is the normalised input, and labels stand exactly at the start and after each piece that ends a line |
| `Console.TrimmedIsSuffix` | serial_console_helpers.go:570-581 | what is left after trimming is a suffix that fits both limits |
| `Console.TrimmedIsLongest` | serial_console_helpers.go:570-581 | and it is the longest such suffix |
| `Console.BytesAreLength` | serial_console_helpers.go:570-581 | the byte count is the length of the buffered text |
| `Console.TrimAsYouGo` | serial_console_helpers.go:570-581 | trimming after every piece keeps what trimming once at the end would |
| `Console.BufferIsLongestSuffix` | serial_console_helpers.go:559-594 | over every run the buffer is the longest fitting suffix of the pieces held back, and the sink got exactly those suffixes and the unpaused pieces, in order |
| `Console.UnpausedPassesThrough` | serial_console_helpers.go:559-568 | unpaused, emitted text reaches the sink as it is |
| `Console.ConsoleBroker.EnqueueBuffered` | serial_console_helpers.go:570-581 | the buffer becomes the trimmed longer buffer, its byte count exact |
| `Console.ConsoleBroker.FlushBuffer` | serial_console_helpers.go:583-594 | the buffer is handed over in order and emptied |
| `Console.ConsoleBroker.SetTerminalPaused` | serial_console_helpers.go:301-311 | resuming flushes to the sink, or just empties the buffer without one; anything else only sets the flag |
| `Console.ConsoleBroker.EmitToTerminal` | serial_console_helpers.go:559-568 | a piece is sent, held back or dropped |
| `Console.ConsoleBroker.HandleRX` | serial_console_helpers.go:361-410 | a chunk's lines go out labelled, and the line-end flag follows the last one |
| `Console.Serve` | serial_console_helpers.go:295-333 | over every run of the loop the terminal is in the state of the run of labelled pieces and pauses |
| `Console.UnpausedServesAll` | serial_console_helpers.go:295-410 | never paused, the sink gets exactly the labelled pieces of the chunks received |
| `AtxDebounce.MqttManager.PublishLocked` | mqtt_publish.go:151-154 | a state is published and remembered |
| `AtxDebounce.MqttManager.PublishAtxState` | mqtt_publish.go:87-148 | nothing while disconnected, straight through without debouncing, else the specified step |
| `AtxDebounce.MqttManager.CancelTimerLocked` | mqtt_publish.go:157-162 | no timer is remembered, and the one that was has stopped if it had not expired |
| `AtxDebounce.MqttManager.TimerCallback` | mqtt_publish.go:141-148 | the callback publishes its state and forgets the remembered timer, whichever it is |
| `AtxDebounce.RunKeepsTimers` | mqtt_publish.go:87-162 | over every run every timer was started by an observed HDD OFF, and only expired ones have callbacks waiting |
| `AtxDebounce.RunKeepsLast` | mqtt_publish.go:87-162 | over every run, late callbacks included, the published state and the remembered timer are in step with what was observed |
| `AtxDebounce.PublishedIsTrueExactlyWhen` | mqtt_publish.go:87-162 | over every run with no timer remembered, the published state is the observed one if and only if no callback has published another since |
| `AtxDebounce.HeldBackState` | mqtt_publish.go:129-148 | while a timer is remembered, power is published as observed and the HDD LED still as ON |
| `AtxDebounce.StaleIsLate` | mqtt_publish.go:141-162 | only a callback whose timer is no longer remembered can publish another state than the observed one |
| `AtxDebounce.NoRepeatsExactlyWhen` | mqtt_publish.go:87-162 | over every run consecutive published states differ if and only if no callback brought the state published last |
| `AtxDebounce.PowerIsTrueExactlyWhen` | mqtt_publish.go:87-162 | over every run published power is the observed one if and only if no callback has published another since |
| `AtxDebounce.PublishedFollowsObserved` | mqtt_publish.go:87-162 | so in runs without late callbacks consecutive published states differ, published power is the last observed one, and with no timer the whole state is |
| `AtxDebounce.StaleRun` | mqtt_publish.go:116-148 | a run that ends with OFF published while the LED is on |
| `AtxDebounce.RepeatingRun` | mqtt_publish.go:116-148 | a run that publishes OFF twice in a row |
| `AtxDebounce.TimerWaits` | mqtt_publish.go:129-148 | a callback publishes an HDD OFF observed at least the debounce time ago, and unless it is late nothing else was observed since |
| `AtxDebounce.LateCallbackIsStale` | mqtt_publish.go:141-148 | a callback on its way when a state is observed leaves a wrong state published if and only if it brings another state |
| `FrameStream.WriteFrames` | internal/native/server.go:99-110 | the written stream is the frames, each after its length |
| `FrameStream.HandleVideoFrames` | internal/native/proxy.go:265-301 | the reading loop with its reused buffer delivers the parsed frames |
| `FrameStream.Uint32RoundTrip` | internal/native/server.go:102 | a length survives its four bytes |
| `FrameStream.LittleEndian` | internal/native/server.go:102 | the low byte of a length comes first |
| `FrameStream.CutStream` | internal/native/proxy.go:265-301 | a stream cut off anywhere yields exactly the frames that were whole |
| `FrameStream.WholeIsAll` | internal/native/proxy.go:283 | an uncut stream holds all frames exactly when every size is accepted |
| `FrameStream.RoundTrip` | internal/native/proxy.go:265-301 | reading what was written gives the same frames exactly when every frame has 1 to maxFrameSize bytes |

## Left out

- Keyboard reports as an input of the timer runs: a whole report puts keys into the buffer without any timer, so only keypress input is covered there.
- Media keys auto-releasing: they do not; see above.
- HID writes that time out but are reported as success, errors swallowed while the gadget is rebound, and reopening of HID files: a write here is delivered or failed.
- Keyboard LEDs, the mouse reports and the wake device's reports.
- Expected states that the gadget transaction never asks for (touch, plain file, single link), device files, and errors of looking at a file.
- configfs read-back: the looser comparison of `inquiry_string`, trailing newlines and the empty `file` attribute; a file here reads back what was written. Links inside paths are not followed.
- The difference between no and an empty "before change" list, and object identity of changes: changes are values found by their key.
- The scratch arrays of the G.722 bands (new coefficients and signs), which are locals here: they never carry anything to the next sample.
- TX echo of the serial console: the pending line, its quiet timer and the interplay with received lines.
- WebRTC, WebSocket, the MQTT client, gRPC, HTTP handlers, OIDC and TLS: plumbing over libraries.
- Video and audio capture, display, sysfs reads and diagnostics: foreign calls.
- Updates over the air, mDNS, Tailscale and time sync: sequential I/O.
- The configuration parser and the JSON-RPC dispatcher: driven by reflection.
- G.711 and the playout delay: finite domains with shallow properties.
- Logging, metrics, configuration files and the user interface.
