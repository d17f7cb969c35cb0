# Vintage chord generator — verified model

This project models the `ChordSequenceGenerator` component in
`app/generator.tsx`. The component is a panel with four controls:

- a power button;
- a tonality select, offering the twelve pitch names;
- a mode select, major or minor;
- a Generate button.

When a generation is requested, the component builds a random list of two to
six chord labels for the current key. It clears the display, and one second
later its timeout callback shows the list and clears the busy lamp. An effect
keyed on tonality, mode and power starts a generation whenever one of them
changes while the device is on.

The model has two modules.

- `ChordEngine` (`chords.dfy`) holds the pure part:
  - the note table, the chord-type table and the two scale tables;
  - `indexOf`, and JavaScript's sign-keeping `%`;
  - the construction of one chord label and of a whole list.

  `ParseChord` reads a label back into its note index and suffix index, and
  the lemmas use it to state what the labels mean. A well-formed label decodes
  to the note and the quality it was made from. Every generated root is one of
  the seven pitch classes of the key.
- `Device` (`device.dfy`) holds the component's state and its transitions:
  - `DeviceState` is the five `useState` cells plus the list of pending
    timeout callbacks.
  - Pure transition functions cover `generateSequence`, the effect with its
    dependency rule, the three `onClick`/`onChange` handlers and the timeout
    callback.
  - An event-driven `Run` strings the transitions together.
  - `Valid` is an invariant that every reachable state keeps.

  The class `ChordSequenceGenerator` holds the same cells as mutable fields.
  Each of its handler methods is proved to change the fields exactly as the
  matching transition function says.

`Math.random` is replaced by explicit draws (`Draws`):
- one length draw below 5;
- per chord, one degree draw below 7 and one quality draw below 6.

These are exactly the values that `Math.floor(Math.random() * n)` can take.
Timers are modelled as a first-in-first-out list. Every callback has the same
1000 ms delay, so the callbacks fire in the order they were scheduled. A
`Timeout` event is the moment the oldest callback runs.

### Behaviour worth knowing

- **Busy is not a lock.** `generateSequence` does not check `isGenerating`. Only
  the Generate button is disabled while busy. Changing the tonality or the
  mode during a generation schedules a second one (`SecondRequestWhileBusy`).
- **Every timeout commits.** The timeout callback commits its list whatever
  the power state and however many requests came after it. If the device is
  switched off while a generation is pending, the list still appears on the
  switched-off panel (`StaleTimeoutCommits`).
- **Early idle.** The first of two pending callbacks clears the busy flag
  while the second is still waiting (`EarlyIdle`).
- **Power-off keeps the display.** Switching off does not clear the displayed
  sequence. It only flips `isPoweredOn`.
- **Unknown tonality.** If the tonality is not in the note table, `indexOf`
  gives -1. Because `%` keeps the sign, the tonic degree then renders as
  "undefined". The panel's select never offers such a value, but
  `generateSequence` itself does not exclude it, so the model covers that path
  (`UnknownTonality`).

## Model

| member | source | states |
|---|---|---|
| ChordEngine.Scale | app/generator.tsx:9-12 | both tables of scale offsets have seven entries, start at the tonic (0), stay below an octave and strictly ascend |
| ChordEngine.IndexOf | app/generator.tsx:26 | the result is -1 or an index below the length; a non-negative result holds the value and no earlier index does |
| ChordEngine.IndexOfMissing | app/generator.tsx:26 | `indexOf` returns -1 exactly when the value does not occur in the table |
| ChordEngine.RootIndex | app/generator.tsx:26 | the tonality's index is between -1 and 11, and a non-negative index names that tonality in the note table |
| ChordEngine.RootIndexFound | app/generator.tsx:26 | the root index is non-negative exactly when the tonality is one of the twelve note names |
| ChordEngine.JsRem12 | app/generator.tsx:30 | JavaScript's `% 12`: for a non-negative operand the result is in [0, 12); for a negative one it is in (-12, 0]; it always differs from the operand by a multiple of 12 |
| ChordEngine.NoteName | app/generator.tsx:31 | the text for an index in range is the name that `indexOf` finds at that same index; the text for any other index is no note name |
| ChordEngine.NoteIndex | app/generator.tsx:30 | for a non-negative sum of root and offset, the note index is that sum modulo 12; for a negative sum it lies in (-12, 0] |
| ChordEngine.SequenceLength | app/generator.tsx:24 | the number of chords is the length draw plus two, so between two and six |
| ChordEngine.ChordSequence | app/generator.tsx:24-34 | the generated list has one chord per position, the length draw plus two of them |
| ChordEngine.Chord | app/generator.tsx:29-33 | for a root in the table, a chord is the name of the picked pitch class of the key followed by the picked suffix |
| ChordEngine.KeyNote | app/generator.tsx:30 | from a root in the table, line 30's index for a scale degree is that degree's pitch class of the key |
| ChordEngine.ChordAt | app/generator.tsx:28-33 | unfolds the list's definition: chord i is the one-chord construction applied to the i-th draws |
| ChordEngine.ParseChord | app/generator.tsx:6-7 | a label that decodes is exactly the note name and the suffix of the indices it decodes to, both within their tables |
| ChordEngine.IndexOfDistinct | app/generator.tsx:6-7 | in a table without repeated entries, `indexOf` of an entry returns that entry's own index |
| ChordEngine.NoteLookup | app/generator.tsx:6 | each of the twelve note names is found at its own index |
| ChordEngine.SuffixLookup | app/generator.tsx:7 | each of the six chord-type suffixes is found at its own index |
| ChordEngine.NoteNameShape | app/generator.tsx:6 | every note name is one letter, optionally followed by a sharp sign |
| ChordEngine.SuffixShape | app/generator.tsx:7 | no chord-type suffix starts with a sharp sign |
| ChordEngine.ParseLabel | app/generator.tsx:6-7 | every label of the form note name plus suffix decodes back to that note and that suffix, so labels are unambiguous |
| ChordEngine.PitchClasses | app/generator.tsx:25-30 | a key has seven pitch classes, all in [0, 12), and the first is the tonic |
| ChordEngine.PitchClassesDistinct | app/generator.tsx:9-12 | the seven degrees of a key reach seven different pitch classes, and the tonic is one of them |
| ChordEngine.WrapInjective | app/generator.tsx:30 | two sums less than an octave apart wrap to different pitch classes |
| ChordEngine.ChordDecodes | app/generator.tsx:25-33 | for a known tonality, chord i decodes to the pitch class of its drawn degree and its drawn quality |
| ChordEngine.ChordsAreDiatonic | app/generator.tsx:25-33 | for a known tonality, every generated chord decodes, and its root is a pitch class of the key |
| ChordEngine.TonicIndices | app/generator.tsx:26 | C has root index 0 and A has root index 9 |
| ChordEngine.CMajorPitchClasses | app/generator.tsx:10 | the degrees of C major reach pitch classes 0, 2, 4, 5, 7, 9 and 11 |
| ChordEngine.AMinorPitchClasses | app/generator.tsx:11 | the degrees of A minor reach pitch classes 9, 11, 0, 2, 4, 5 and 7 |
| ChordEngine.CMajorRoots | app/generator.tsx:24-34 | in C major, every generated root is one of C, D, E, F, G, A and B |
| ChordEngine.CMajorName | app/generator.tsx:6 | the C major pitch classes name C, D, E, F, G, A and B |
| ChordEngine.AMinorRoots | app/generator.tsx:24-34 | in A minor, every generated root is one of A, B, C, D, E, F and G |
| ChordEngine.AMinorName | app/generator.tsx:6 | the A minor pitch classes name A, B, C, D, E, F and G |
| ChordEngine.UnknownTonality | app/generator.tsx:26-31 | for a tonality outside the table, the tonic degree yields "undefined" plus the suffix, and every other degree yields the note one semitone below its offset from C |
| ChordEngine.UnknownRoot | app/generator.tsx:26-31 | with root index -1, chord i is the name at offset minus one, followed by the suffix |
| ChordEngine.WrapFromMinusOne | app/generator.tsx:30 | JavaScript's `(-1 + offset) % 12` is `offset - 1` for an offset below an octave |
| Device.Initial | app/generator.tsx:15-19 | the mount state is C major with C at index 0 of the note table, switched off, idle, nothing displayed and no timeout pending |
| Device.Effect | app/generator.tsx:44 | while off the effect changes nothing; while on it clears the display, marks busy and schedules exactly one list for the current key; tonality, mode and power are untouched |
| Device.DepsChanged | app/generator.tsx:45 | an update counts as a dependency change exactly when it touches something other than the display, the busy flag and the pending timeouts |
| Device.Rendered | app/generator.tsx:43-45 | without a dependency change or while off, the render leaves the updated state as it is; otherwise it schedules exactly one list for the updated key; tonality, mode and power stay as the update set them |
| Device.Step | app/generator.tsx:37-107 | every event leaves the timeout queue alone, removes its head (a timeout) or appends one entry (any other event); only the power button changes power; the display changes only by clearing or by a timeout |
| Device.Issuable | app/generator.tsx:69-107 | every control except the power button is disabled while the device is off; the Generate button is also disabled while busy; a timeout fires only when one is pending |
| Device.Generate | app/generator.tsx:21-40 | while off, nothing changes; while on, the device turns busy, the display clears, and exactly one timeout is added that carries the list for the current key; key and power are untouched |
| Device.TogglePower | app/generator.tsx:53 | the power flag always flips; switching off changes nothing else; switching on runs one generation for the current key |
| Device.SetTonality | app/generator.tsx:68 | the same value changes nothing; a new value while on runs one generation for the new key; while off only the tonality changes |
| Device.SetMode | app/generator.tsx:88 | the same value changes nothing; a new value while on runs one generation for the new mode; while off only the mode changes |
| Device.FireTimeout | app/generator.tsx:37-40 | with no pending timeout nothing changes; otherwise the oldest pending list is displayed, the busy flag clears and that timeout is removed, whatever the power state |
| Device.ValidInitial | app/generator.tsx:15-19 | the state at mount satisfies the invariant |
| Device.GenerateKeepsValid | app/generator.tsx:21-40 | a generation keeps the invariant: a known tonality, busy only while a timeout is pending, and only well-formed chord lists shown or pending |
| Device.KnownTonality | app/generator.tsx:68 | a tonality offered by the select has a non-negative root index |
| Device.FireTimeoutKeepsValid | app/generator.tsx:37-40 | a timeout firing keeps the invariant |
| Device.StepKeepsValid | app/generator.tsx:53-107 | every event the panel can issue keeps the invariant |
| Device.RunKeepsValid | app/generator.tsx:15-45 | every sequence of issuable events from a valid state ends in a valid state |
| Device.FireAllShowsLatest | app/generator.tsx:37-40 | once every pending timeout has fired, the device is idle and shows the list of the latest request |
| Device.StaleTimeoutCommits | app/generator.tsx:37-40 | a generation followed by power-off still ends with the list on display after the timeout, with the device off |
| Device.SecondRequestWhileBusy | app/generator.tsx:21-45 | changing the tonality while busy keeps the device busy, clears the display and appends a timeout carrying the new key's list |
| Device.EarlyIdle | app/generator.tsx:37-45 | with two requests in flight, the first timeout clears the busy flag and shows the old key's list; the second then shows the new key's list |
| Device.ChordSequenceGenerator.constructor | app/generator.tsx:15-19 | the new component is in the initial state, which satisfies the invariant |
| Device.ChordSequenceGenerator.GenerateSequence | app/generator.tsx:21-40 | the fields change exactly as the generation transition says |
| Device.ChordSequenceGenerator.RunEffect | app/generator.tsx:43-45 | the fields change exactly as the effect body says |
| Device.ChordSequenceGenerator.OnPowerClick | app/generator.tsx:53 | the fields change exactly as the power toggle and its effect say |
| Device.ChordSequenceGenerator.OnTonalityChange | app/generator.tsx:68 | the fields change exactly as the tonality change and its effect say |
| Device.ChordSequenceGenerator.OnModeChange | app/generator.tsx:88 | the fields change exactly as the mode change and its effect say |
| Device.ChordSequenceGenerator.OnTimeout | app/generator.tsx:37-40 | reports whether a callback was pending, and the fields change exactly as the timeout transition says |

## Left out

- Rendering is not modelled: the JSX layout, the CSS classes, the icons, the
  lamp colour and the button caption. The `disabled` attributes appear only as
  the `Issuable` predicate, which limits the events a panel can issue.
- `Math.random` is replaced by integer draws. The floating-point value is not
  modelled, and neither is how uniformly the draws are spread.
- Timer timings are not modelled. The 1000 ms delay appears only as the
  first-in-first-out order of the pending callbacks.
- React scheduling is not modelled. Each handler's state update and the
  render and effect that follow it form one atomic step. Batching,
  StrictMode's double effect run on mount and unmounting are left out.
- The effect run at mount does nothing, because the device starts switched
  off. So the model starts in the initial state and does not include a mount
  step.
- ChordEngine.ChordsAreDiatonic: requires a non-negative root index rather
  than "tonality is a note name". The two are equivalent by
  `RootIndexFound`.
- ChordEngine.ChordSequence: its own contract states only the length. What
  each chord is comes from `ChordAt`, `ChordDecodes` and
  `ChordsAreDiatonic`.
