# Input-event trackers of a UI test harness, in Dafny

The harness has three screens that record user input so that input-automation tooling
can be checked by eye. Each screen is a small state machine. It takes an input event,
classifies it, builds one log entry, puts the entry at the head of a newest-first log
with a fixed cap, and updates counters.

- `TapTracker` (app/MultiTap.tsx) handles taps on the screen and on a "Tap Me!" button.
  It keeps a tap counter and one "last tap time" that both sources share. It also keeps
  the last gap between taps, the last screen coordinates, and a log capped at 20.
- `KeyTracker` (app/Typewriter.tsx) compares each new text-box content with the previous
  one by length only. A longer text logs its tail beyond the old length as "added". A
  shorter text logs the single old character at the new length as "deleted". A text of
  equal length logs nothing. The log is capped at 20.
- `SwipeTracker` (app/MultiSwipe.tsx) records only the END event of a pan gesture. It
  classifies the translation as Up, Down, Left or Right, logs it with a cap of 10, and
  counts it.
- `BoundedLog` is the capped prepend `[entry, ...prev.slice(0, cap - 1)]` that all three
  share. `Wrappers` holds `Option`, which stands for TypeScript's `null` and `undefined`.

How each tracker is modelled:
- A datatype holds the screen's state, one field per React state variable.
- A pure function per handler gives the new state. Its contract states what the screen
  promises.
- A class (`MultiTap`, `Typewriter`, `MultiSwipe`) has the same fields. Its methods
  update them step by step, as the handlers do. Each method's `ensures` ties the new
  `State()` to the pure function applied to the old state.
- `Step` and `Run` replay a sequence of user actions.
- Each tracker has a `Consistent` predicate, proved to hold in every reachable state,
  and lemmas about event sequences.

Each handler call is atomic, and React re-renders before the next event. So the handler
reads the state as it was before the event, and the next event sees every update.

Clocks are parameters:
- `now` is the `Date.now()` reading a tap handler takes first.
- `id` is the second `Date.now()` reading, which `logTap` uses as the entry id.
- `timestamp` is the `toLocaleTimeString()` text.

A tap's gap is `now - lastTapTime` with no check on its sign. The code does not ensure
that the clock never goes backwards, and neither does the model, so no lemma claims that
the gap is non-negative.

The TypeScript field `type` of a tap entry is called `kind`, because `type` is a Dafny
keyword.

A tie with `dy <= 0`, such as `(5, -5)`, is "Up": a tie takes the vertical branch
(app/MultiSwipe.tsx:32-35) and `-5 > 0` is false (`SwipeTracker.DirectionTable`).

## Model

| member | source | states |
|---|---|---|
| `BoundedLog.Take` | app/MultiTap.tsx:42 | `slice(0, n)` is the prefix of the log of length min(length, n) |
| `BoundedLog.Prepend` | app/MultiTap.tsx:42 | the new entry is at the head; the length is min(old + 1, cap); entry i ≥ 1 is old entry i − 1, so the older entries keep their order |
| `BoundedLog.PrependAllKeepsNewest` | app/MultiSwipe.tsx:45 | after any number of insertions into a log within its cap, the log is the newest `cap` entries, newest first, followed by the old log and cut to the cap |
| `BoundedLog.InsertionsFromEmpty` | app/Typewriter.tsx:27-34 | N insertions into an empty log leave min(N, cap) entries, and the first is the one inserted last |
| `TapTracker.Initial` | app/MultiTap.tsx:21-28 | on mount the count is 0, every optional field is absent, the log is empty, and the state is consistent |
| `TapTracker.Gap` | app/MultiTap.tsx:51-54 | the gap is absent exactly when there was no previous tap; otherwise previous time + gap = now |
| `TapTracker.LoggedTaps` | app/MultiTap.tsx:30-43 | `logTap` puts the entry with the given kind, coordinates, gap, id and time at the head; the length is min(old + 1, 20); the tail is the old log's first min(old, 19) entries |
| `TapTracker.ScreenTap` | app/MultiTap.tsx:45-64 | a screen tap adds 1 to the count, sets the last tap time to `now`, and records (pageX, pageY) as the last coordinates and in a "screen" entry; the gap is missing and the last gap unchanged when there was no previous tap, otherwise both equal `now - lastTapTime`; the older entries follow in order |
| `TapTracker.ButtonTap` | app/MultiTap.tsx:66-81 | a button tap does the same with a "button" entry without coordinates, and leaves the last coordinates unchanged |
| `TapTracker.StepKeepsConsistent` | app/MultiTap.tsx:45-89 | every handler keeps the invariant: count ≥ 0; log length = min(count, 20); last tap time absent iff count = 0; a last gap implies count ≥ 2; the head's gap is the last gap; a screen head's coordinates are the last coordinates; no entry is "absolute"; coordinates appear exactly on screen entries; only the first tap since the last reset lacks a gap |
| `TapTracker.RunKeepsConsistent` | app/MultiTap.tsx:45-89 | every state reached by any sequence of taps and resets satisfies that invariant |
| `TapTracker.RunCountsTaps` | app/MultiTap.tsx:49 | between resets the counter goes up by exactly 1 per tap, whatever its source (line 70 too) |
| `TapTracker.GapIsToPreviousTap` | app/MultiTap.tsx:63 | after any two taps of any sources, the last gap and the head entry's gap are the second tap's time minus the first's; the last tap time is shared (line 80 too) |
| `TapTracker.ThirdTapGap` | app/MultiTap.tsx:51-81 | from the initial state the first tap has no gap, and for taps at t0, t1, t2 the third gap is t2 − t1 |
| `TapTracker.ResetIdempotent` | app/MultiTap.tsx:83-89 | resetting twice gives the same state as resetting once |
| `TapTracker.MultiTap.constructor` | app/MultiTap.tsx:21-28 | the fields start in the initial state |
| `TapTracker.MultiTap.LogTap` | app/MultiTap.tsx:30-43 | only the log changes, and it becomes `LoggedTaps` of the old log |
| `TapTracker.MultiTap.HandleScreenTap` | app/MultiTap.tsx:45-64 | the step-by-step field updates give exactly `ScreenTap` of the old state |
| `TapTracker.MultiTap.HandleButtonTap` | app/MultiTap.tsx:66-81 | the step-by-step field updates give exactly `ButtonTap` of the old state |
| `TapTracker.MultiTap.ResetTaps` | app/MultiTap.tsx:83-89 | count 0; last tap time, last gap and coordinates absent; empty log |
| `KeyTracker.Slice` | app/Typewriter.tsx:37-40 | `slice(start, end)` is the subsequence when the bounds are in range, and empty when start is at or past the end or end ≤ start |
| `KeyTracker.KeyEntry` | app/Typewriter.tsx:24-49 | no entry iff the lengths are equal; a longer text gives "added" with key `newText[|previousText|..]`; a shorter text gives "deleted" with the single key `previousText[|newText|]`; so the `||` fallbacks "space" and "backspace" (modelled by `KeyTracker.Or`, `KeyTracker.AddedKey` and `KeyTracker.DeletedKey`) are never logged |
| `KeyTracker.TextChange` | app/Typewriter.tsx:20-53 | afterwards text = previousText = newText in every branch; equal lengths leave the log unchanged; otherwise the entry is at the head, the length is min(old + 1, 20), and the older entries follow in order |
| `KeyTracker.AllCleared` | app/Typewriter.tsx:55-59 | "Clear All" empties the text, the previous text and the log |
| `KeyTracker.LogsCleared` | app/Typewriter.tsx:61-63 | "Clear Logs" empties the log and leaves the text and the previous text as they were |
| `KeyTracker.Initial` | app/Typewriter.tsx:16-18 | on mount both texts are empty, the log is empty, and the state is consistent |
| `KeyTracker.StepKeepsConsistent` | app/Typewriter.tsx:20-63 | every action keeps the invariant: text = previousText, at most 20 entries, no empty key, every "deleted" key one character long |
| `KeyTracker.RunKeepsConsistent` | app/Typewriter.tsx:20-63 | every state reached by any sequence of text changes and clears satisfies that invariant |
| `KeyTracker.TypeOneCharacter` | app/Typewriter.tsx:24-34 | appending one character logs exactly that character as "added" and updates both texts |
| `KeyTracker.TypingPrependsEachCharacter` | app/Typewriter.tsx:24-34 | typing a word one character at a time leaves text + word in both texts, and the log is that of inserting one "added" entry per character, each with the time of its own keystroke |
| `KeyTracker.TypingLogsNewestCharacters` | app/Typewriter.tsx:24-34 | after typing a word character by character, the log is its characters last-typed first, followed by the earlier log, cut to 20 |
| `KeyTracker.TextChangeExamples` | app/Typewriter.tsx:24-52 | "cat"→"cats" logs added "s"; "cats"→"cat" logs deleted "s"; "cat"→"bat" logs nothing but stores "bat"; an insertion in the middle, "cat"→"cbat", is logged as the tail "t"; a paste logs the whole tail as one entry |
| `KeyTracker.Typewriter.constructor` | app/Typewriter.tsx:16-18 | the fields start in the initial state |
| `KeyTracker.Typewriter.HandleTextChange` | app/Typewriter.tsx:20-53 | the branching field updates give exactly `TextChange` of the old state |
| `KeyTracker.Typewriter.ClearAll` | app/Typewriter.tsx:55-59 | the fields become `AllCleared` of the old state |
| `KeyTracker.Typewriter.ClearLogs` | app/Typewriter.tsx:61-63 | the fields become `LogsCleared` of the old state |
| `SwipeTracker.Direction` | app/MultiSwipe.tsx:31-36 | always one of the four names; "Right" iff dx > abs(dy); "Left" iff −dx > abs(dy); "Down" iff dy > 0 and abs(dx) ≤ dy; "Up" iff abs(dx) ≤ −dy. So a tie goes to the vertical axis, and the zero vector is "Up" |
| `SwipeTracker.DirectionOfReversed` | app/MultiSwipe.tsx:31-36 | reversing a non-zero translation gives the opposite direction |
| `SwipeTracker.DirectionOfScaled` | app/MultiSwipe.tsx:31-36 | scaling a translation by any positive factor keeps its direction |
| `SwipeTracker.DirectionTable` | app/MultiSwipe.tsx:32-35 | (100, 0) Right; (−50, 10) Left; (0, 80) Down; tie (5, 5) Down; tie (5, −5) Up; (0, 0) Up |
| `SwipeTracker.Swipe` | app/MultiSwipe.tsx:20-48 | an event that is not END changes nothing; an END event adds 1 to the count and puts an entry with its direction, distance, velocity and time at the head; at most 10 entries are kept, with the older ones in order |
| `SwipeTracker.Initial` | app/MultiSwipe.tsx:17-18 | on mount the list is empty, the count is 0, and the state is consistent |
| `SwipeTracker.StepKeepsConsistent` | app/MultiSwipe.tsx:20-53 | every input keeps the invariant: count ≥ 0, list length = min(count, 10), every entry's direction is one of the four names |
| `SwipeTracker.RunKeepsConsistent` | app/MultiSwipe.tsx:20-53 | every state reached by any sequence of gesture events and resets satisfies that invariant |
| `SwipeTracker.RunCountsEnds` | app/MultiSwipe.tsx:24-46 | between resets the counter goes up by exactly the number of END events; a sequence without END leaves the state unchanged |
| `SwipeTracker.ResetIdempotent` | app/MultiSwipe.tsx:50-53 | resetting twice gives the same state as resetting once |
| `SwipeTracker.MultiSwipe.constructor` | app/MultiSwipe.tsx:17-18 | the fields start in the initial state |
| `SwipeTracker.MultiSwipe.HandleSwipe` | app/MultiSwipe.tsx:20-48 | the field updates give exactly `Swipe` of the old state |
| `SwipeTracker.MultiSwipe.ResetSwipes` | app/MultiSwipe.tsx:50-53 | empty list and count 0 |

## Left out

- Distance and velocity: `Math.round(Math.sqrt(..))` on floating-point numbers (app/MultiSwipe.tsx:25-28, 40-41) is not computed. The caller supplies both as natural numbers.
- Clock and time formatting: `Date.now()` and `toLocaleTimeString()` are parameters. Tap ids come from the clock and can collide within one millisecond, so nothing is claimed about their uniqueness.
- Numbers: coordinates and translations are exact reals and counters and times are unbounded integers, not IEEE doubles. Rounding and precision limits are not modelled.
- Strings: JavaScript strings are UTF-16 code units, and here a string is a sequence of Unicode characters. So `slice` on a surrogate pair (deleting an emoji) may behave differently.
- Event delivery: how the native touch and gesture payloads are obtained is not modelled. Also left out: the same handler being attached to both `onGestureEvent` and `onHandlerStateChange` (app/MultiSwipe.tsx:58-59), which decides how often the gesture library delivers an END state.
- React scheduling: batched asynchronous `setState` and stale closures are not modelled. Each handler runs atomically, with a re-render before the next event.
- Rendering, styles and navigation are not modelled (JSX, which hides a 0 ms gap at app/MultiTap.tsx:125, coordinate rounding for display, app/Index.tsx, app/App.tsx). They hold no tracking logic.
