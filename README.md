# Birthday card phase controller and typewriter, in Dafny

This project models the logic inside the animated birthday-card page
(`src/components/Card.tsx`). It covers two pieces.

- **The typewriter** (`TypewriterText`, module `Typewriter`, `typewriter.dfy`).
  It reveals the card's message one character per 50 ms timer tick, keeping a
  cursor, the text on screen and an `isComplete` flag. When the cursor reaches
  the end, it invokes `onComplete` exactly once.
- **The card's phase controller** (`BirthdayCard`, module `Card`, `card.dfy`).
  It has four phase flags (`isOpen`, `isMail`, `isTypingComplete`,
  `isReturning`), the `isPlaying` audio flag and the timers that drive the
  loop closed → open → mail → returning → closed. A priority rule turns the
  flags into the displayed animation variant.

Each file has two layers:

- **A pure specification.** Datatypes hold the state, one function per event
  gives the next state, and a predicate says when each event can happen.
- **A class.** It has the component's fields and one method per event. Each
  method's `ensures` states its new state as the pure step applied to the old
  state.

The lemmas are stated about the pure layer.

Timers are discrete events, not simulated time:

- A pending timer is a boolean field.
- An effect on a flag (`useEffect(..., [flag])`) schedules its timer when the
  flag turns true. Its cleanup cancels the timer when the flag turns false
  (`Card.Rescheduled`, applied by `Card.Commit` after every callback).
- The typewriter unmounts while the card is returning, because the full
  message replaces it. It is mounted afresh when the card stops returning.

The delays are recorded as constants: 3000 ms first open, 50 ms tick, 1000 ms
mail, 3000 ms return, 1500 ms reset, 1000 ms reopen. Only one timing fact is
used. Ticks are at least 50 ms apart. So while an open timer with delay `D`
is pending, at most `D / 50` characters can have been revealed. The message
has 427 characters, so typing can never finish before the card opens. This is
the only reason the phase order holds (see `Card.Enabled` and
`Card.WaitingIsTyping`).

The pure card model takes the message as a parameter `msg`. Its invariant
requires a message longer than 60 characters (`Card.LongMessage`). The class
fixes `msg` to the card's own message (`Card.Message`, checked by
`Card.MessageOutlastsOpenDelay`).

Two facts about the code shape the model:

- The typewriter is rendered on the card's back face from the first render
  (lines 343-350). So it types while the card is still closed, not only once it
  is open.
- The open timers at lines 104 and 204 have no cleanup, so they can still call
  `setIsOpen` after unmount. Only the mail, return and reset timers (lines
  185, 196, 207) and the typewriter's tick (line 63) are cleared.

## Model

| member | source | states |
|---|---|---|
| `Typewriter.Ticked` | src/components/Card.tsx:58-61 | a tick advances the cursor by exactly one, and if the state was valid it stays valid: the screen then holds the old text plus exactly the next character of the message |
| `Typewriter.Settled` | src/components/Card.tsx:49-56 | the effect invokes `onComplete` if and only if the cursor is at the end and `isComplete` was false; after it, `isComplete` holds exactly when it held before or the cursor is at the end; cursor and text are untouched; when it fires, the whole message is on screen |
| `Typewriter.SettledIsIdempotent` | src/components/Card.tsx:50-55 | re-running the effect after it has settled invokes nothing and changes nothing |
| `Typewriter.Enabled` | src/components/Card.tsx:50-61 | a tick is only scheduled while the cursor is short of the end; in a valid state, that is exactly when the effect does not settle |
| `Typewriter.TrailerOf` | src/components/Card.tsx:71-78 | the writing cue is shown exactly when `isComplete` is false, the signature exactly when it is true |
| `Typewriter.SignatureFollowsWholeMessage` | src/components/Card.tsx:71-78 | in a valid state, the signature appears only under the complete message |
| `Typewriter.RunFiresOnce` | src/components/Card.tsx:49-64 | over any run of ticks and effect runs from a valid state: the state stays valid, completion is never undone, and `onComplete` fires exactly once if the run completes the typewriter and never otherwise |
| `Typewriter.FiresAtMostOnceFromStart` | src/components/Card.tsx:45-64 | from a freshly mounted typewriter, `onComplete` fires at most once, it fires exactly when the run ends complete, and then the whole message is shown |
| `Typewriter.TicksReveal` | src/components/Card.tsx:58-61 | `m` ticks from cursor `k` are all enabled and reach cursor `k + m` with the prefix of that length on screen, without firing |
| `Typewriter.TypingThenEffectCompletes` | src/components/Card.tsx:45-64 | a fresh typewriter, after one tick per character and one effect run, shows the whole message, is complete and has fired once |
| `Typewriter.TypewriterText.constructor` | src/components/Card.tsx:45-47 | mounting starts with an empty screen, cursor 0 and `isComplete` false |
| `Typewriter.TypewriterText.Tick` | src/components/Card.tsx:58-61 | the tick timer, enabled only while the cursor is short of the end: the new state is `Ticked` of the old one, and validity is kept |
| `Typewriter.TypewriterText.Settle` | src/components/Card.tsx:50-55 | the effect: the new state and the fired flag are `Settled` of the old state, and validity is kept |
| `Card.Variant` | src/components/Card.tsx:309-317 | the displayed variant is `mail` if and only if `isMail`; `returning` if and only if `isReturning` without `isMail`; `open` if and only if `isOpen` without the other two; otherwise `closed` |
| `Card.Enabled` | src/components/Card.tsx:179-209 | the guards: each timer callback needs its own timer pending, and the typewriter's events need it mounted. In a reachable state, these mirror the scheduling effects' guards: the mail timer only with `isTypingComplete` (line 180), the return timer only with `isMail` (line 190), the reset timer only with `isReturning` (line 201), and a tick only while typing is incomplete (lines 50, 58) |
| `Card.Rescheduled` | src/components/Card.tsx:179-209 | an effect's timer is scheduled when its flag turns true, cancelled by the cleanup when the flag turns false, and otherwise left alone |
| `Card.Commit` | src/components/Card.tsx:179-209 | after a callback, only the three effect timers and the typewriter change. The mail, return and reset timers are scheduled when `isTypingComplete`, `isMail` or `isReturning` turns true and cancelled when it turns false. The typewriter is mounted afresh exactly when `isReturning` turns false (lines 343-350) |
| `Card.Fire` | src/components/Card.tsx:98-209 | what the callbacks write (lines 104, 182, 192-193, 203-204, 128). Only the audio button changes `isPlaying`, negating it when the handle exists. Only the mount effect creates the handle. Only the four timer callbacks and `onComplete` change phase flags, and `onComplete` only sets `isTypingComplete`. Only the typewriter's events change its state |
| `Card.View` | src/components/Card.tsx:343-350 | the full message is shown if and only if `isReturning`; otherwise the typewriter's text and trailer are shown |
| `Card.MessageOutlastsOpenDelay` | src/components/Card.tsx:265-267 | the card's message has 427 characters, more than can be typed at 50 ms each before the 3000 ms first opening |
| `Card.InitialIsValid` | src/components/Card.tsx:84-89 | the first render, with all flags false and nothing scheduled, is a reachable state shown closed |
| `Card.WaitingIsTyping` | src/components/Card.tsx:98-107 | while the open timer is pending, the typewriter is short of the end, so typing is not complete |
| `Card.StepKeepsInv` | src/components/Card.tsx:179-209 | every enabled event keeps the state in exactly one of the four stages (waiting to open, open, mailing, returning), each stage with exactly its own timers pending, and keeps `isTypingComplete` equal to the typewriter's `isComplete` |
| `Card.StepFollowsCycle` | src/components/Card.tsx:179-209 | from a reachable state, the four timer callbacks (open, mail, return, reset) each move the displayed variant one place along closed → open → mail → returning → closed; every other event leaves it unchanged |
| `Card.OpenFiresOpens` | src/components/Card.tsx:103-105 | the open timer fires only while the card is closed; it sets `isOpen` and leaves the other phase flags alone |
| `Card.MailFiresAfterTyping` | src/components/Card.tsx:179-187 | the mail timer is only pending once typing is complete; it sets `isMail` and the card shows `mail` |
| `Card.ReturnFiresAfterMail` | src/components/Card.tsx:189-198 | the return timer is only pending while `isMail`; it sets `isReturning`, clears `isMail`, and the card shows `returning` |
| `Card.ResetClearsPhase` | src/components/Card.tsx:200-205 | the reset timer fires only while returning; `resetCard` clears all four phase flags, leaves `isPlaying` and the audio handle alone, schedules the reopening and mounts a fresh typewriter |
| `Card.ReopenSetsOnlyOpen` | src/components/Card.tsx:91-96 | after a reset, the reopen timer is enabled, and when it fires `isOpen` is the only phase flag set, with `isPlaying` still unchanged |
| `Card.ReturningShowsMessage` | src/components/Card.tsx:343-350 | while the card shows `returning`, the full message replaces the typewriter; the reset that ends it is enabled, and the typewriter then shown is a fresh one, with empty text and the writing cue |
| `Card.CompletionOnlyWhileOpen` | src/components/Card.tsx:346-349 | `onComplete` only fires while the card shows `open`, with the whole message typed and typing not yet recorded; it sets `isTypingComplete` and schedules the mail timer |
| `Card.ToggleFlipsPlaying` | src/components/Card.tsx:119-130 | the audio button negates `isPlaying` when the audio handle exists, leaves it alone otherwise, and changes nothing else |
| `Card.ToggleTwiceRestores` | src/components/Card.tsx:119-130 | two presses of the audio button restore the whole state |
| `Card.OnlyToggleChangesAudio` | src/components/Card.tsx:84-130 | no event other than the audio button changes `isPlaying` |
| `Card.RunKeepsInv` | src/components/Card.tsx:179-209 | every run of enabled events from a reachable state ends in a reachable state |
| `Card.RunFollowsCycle` | src/components/Card.tsx:309-317 | along any run from a reachable state, each displayed variant is the previous one or the next in the cycle, so no phase is skipped or reversed |
| `Card.OpenCardTypes` | src/components/Card.tsx:58-61 | once the card is open, ticks reveal the message one character each and change nothing else |
| `Card.CycleReturnsToOpen` | src/components/Card.tsx:98-209 | the source's timeline runs from the first render: mount, open, one tick per character, the completing effect, then mail, return, reset and reopen. It ends open again, with a fresh typewriter, typing not complete and `isPlaying` untouched |
| `Card.BirthdayCard.constructor` | src/components/Card.tsx:84-89 | the first render: all five flags false, no audio handle, no timers, a fresh typewriter showing the card's message |
| `Card.BirthdayCard.Mount` | src/components/Card.tsx:98-107 | the mount effect creates the audio handle and schedules the first opening (3000 ms) |
| `Card.BirthdayCard.OpenFires` | src/components/Card.tsx:104 | the open timer's callback: the new state is the `OpenFires` step of the old one |
| `Card.BirthdayCard.TypewriterTick` | src/components/Card.tsx:58-61 | a tick of the mounted typewriter: the new state is the `TypewriterTick` step of the old one |
| `Card.BirthdayCard.TypewriterSettle` | src/components/Card.tsx:49-56 | the typewriter's effect, whose `onComplete` sets `isTypingComplete` and thereby schedules the mail timer: the new state is the `TypewriterSettle` step |
| `Card.BirthdayCard.MailFires` | src/components/Card.tsx:179-187 | the mail timer's callback, which also schedules the return timer: the new state is the `MailFires` step |
| `Card.BirthdayCard.ReturnFires` | src/components/Card.tsx:189-198 | the return timer's callback, which also schedules the reset timer and unmounts the typewriter: the new state is the `ReturnFires` step |
| `Card.BirthdayCard.ResetFires` | src/components/Card.tsx:200-209 | the reset timer's callback: `resetCard`, the reopen timer and a freshly mounted typewriter; the new state is the `ResetFires` step |
| `Card.BirthdayCard.ToggleAudio` | src/components/Card.tsx:119-130 | the audio button: the new state is the `ToggleAudio` step |

## Left out

- Markup, CSS classes, the SVG icons, the button's label, `PaperPlaneWings` and `Balloon`: presentation only.
- The numeric transform presets in `cardVariants` (lines 211-250), including `window.innerWidth + 200` and the easing durations: animation-library inputs and an environment read. The model keeps only which variant is chosen.
- The floating circles and the confetti field (lines 274-305): random floats and a foreign library.
- The audio element's behaviour is not modelled: `play()` and its rejected promise with the console log, `pause()`, resetting `currentTime` and `loop` are browser calls. The model keeps only `isPlaying` and whether the handle exists.
- Wall-clock time is not simulated; each timer is an event. The delays appear only as constants and in the tick bound described above.
- Unmounting and its cleanups are not modelled. They are React scheduling, and the state is discarded at unmount anyway.
- Card.BirthdayCard.TypewriterTick: its precondition (through `Card.Enabled`) adds a timing fact to the typewriter's own guard. While an open timer of delay `D` is pending, a tick happens only if `(cursor + 1) * 50 <= D`. It rules out interleavings that the real delays exclude; without it an untimed model would let the mail flight start before the card opens.
- Card.Step: in unreachable states a second open timer overwrites the first instead of being counted; `Card.StepKeepsInv` shows that two are never pending at once.
- The extra effect runs caused by `onComplete` being a new closure on every card render (line 64) are `TypewriterSettle` events that change nothing. Their only effect in the source is to restart the pending 50 ms tick, which only delays ticks.
- Each timer callback's state updates are committed together, then the effects whose dependencies changed re-run. Rendering after each single update would only add intermediate renders with the same final state.
- The typewriter's cursor counts Dafny characters (Unicode scalar values); `text.length` and `text.slice` count UTF-16 code units. The two agree on the card's message, which is ASCII.
- The typewriter's `text` is fixed; the component is always given the same message.
