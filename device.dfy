/** The state of the chord generator panel and the transitions its setters,
    its timeout callback and its effect make.

    The browser's timers are part of the state: `timers` lists the pending
    timeout callbacks in the order they were scheduled, each with the chord
    list it will commit. Every callback uses the same 1000 ms delay, so they
    fire in that order. The delay itself is not modelled; a `Timeout` event
    is the moment the oldest pending callback runs. */
module Device {
  import opened ChordEngine

  datatype DeviceState = DeviceState(
    tonality: string,
    mode: Mode,
    sequence: seq<string>,
    isGenerating: bool,
    isPoweredOn: bool,
    timers: seq<seq<string>>)

  /** The state at mount: off, idle, C major, nothing displayed, no timer. The
      initial tonality is the first name of the note table. */
  function Initial(): (s: DeviceState)
    ensures RootIndex(s.tonality) == 0 && s.mode == Major
    ensures !s.isPoweredOn && !s.isGenerating && s.sequence == [] && s.timers == []
  {
    TonicIndices();
    DeviceState("C", Major, [], false, false, [])
  }

  /** `generateSequence`: ignored while powered off. Otherwise it marks the
      device busy, clears the display and schedules one timeout carrying the
      list built for the current key. There is no check of `isGenerating`. */
  function Generate(s: DeviceState, d: Draws): (t: DeviceState)
    ensures !s.isPoweredOn ==> t == s
    ensures s.isPoweredOn ==> t.isGenerating && t.sequence == []
    ensures s.isPoweredOn ==> t.timers == s.timers + [ChordSequence(s.tonality, s.mode, d)]
    ensures t.tonality == s.tonality && t.mode == s.mode && t.isPoweredOn == s.isPoweredOn
  {
    if !s.isPoweredOn then s
    else s.(isGenerating := true, sequence := [],
            timers := s.timers + [ChordSequence(s.tonality, s.mode, d)])
  }

  /** The effect body: `if (isPoweredOn) generateSequence()`. While off it does
      nothing; while on it schedules exactly one list for the current key. */
  function Effect(s: DeviceState, d: Draws): (t: DeviceState)
    ensures !s.isPoweredOn ==> t == s
    ensures s.isPoweredOn ==>
      t.isGenerating && t.sequence == []
      && t.timers == s.timers + [ChordSequence(s.tonality, s.mode, d)]
    ensures t.tonality == s.tonality && t.mode == s.mode && t.isPoweredOn == s.isPoweredOn
  {
    if s.isPoweredOn then Generate(s, d) else s
  }

  /** The effect's dependency list: tonality, mode and isPoweredOn. An update
      counts as a change exactly when it touches something other than the
      display, the busy flag and the pending timeouts. */
  predicate DepsChanged(before: DeviceState, after: DeviceState)
    ensures DepsChanged(before, after) <==>
      after != before.(sequence := after.sequence, isGenerating := after.isGenerating,
                       timers := after.timers)
  {
    before.tonality != after.tonality || before.mode != after.mode
    || before.isPoweredOn != after.isPoweredOn
  }

  /** A state update followed by its render: the effect runs exactly when a
      dependency has a new value. */
  function Rendered(before: DeviceState, after: DeviceState, d: Draws): (t: DeviceState)
    ensures !DepsChanged(before, after) || !after.isPoweredOn ==> t == after
    ensures DepsChanged(before, after) && after.isPoweredOn ==>
      t.isGenerating && t.sequence == []
      && t.timers == after.timers + [ChordSequence(after.tonality, after.mode, d)]
    ensures t.tonality == after.tonality && t.mode == after.mode
      && t.isPoweredOn == after.isPoweredOn
  {
    if DepsChanged(before, after) then Effect(after, d) else after
  }

  /** The power button's `onClick`. Turning the device off changes only
      `isPoweredOn`; turning it on also starts exactly one generation for the
      current key. */
  function TogglePower(s: DeviceState, d: Draws): (t: DeviceState)
    ensures t.isPoweredOn == !s.isPoweredOn
    ensures s.isPoweredOn ==> t == s.(isPoweredOn := false)
    ensures !s.isPoweredOn ==> t == Generate(s.(isPoweredOn := true), d)
    ensures !s.isPoweredOn ==> t.timers == s.timers + [ChordSequence(s.tonality, s.mode, d)]
  {
    Rendered(s, s.(isPoweredOn := !s.isPoweredOn), d)
  }

  /** The tonality select's `onChange`. A new value while powered on starts
      exactly one generation, for the new key; the same value changes
      nothing; while off only the tonality changes. */
  function SetTonality(s: DeviceState, tonality: string, d: Draws): (t: DeviceState)
    ensures tonality == s.tonality ==> t == s
    ensures tonality != s.tonality && s.isPoweredOn ==>
      t == Generate(s.(tonality := tonality), d)
      && t.timers == s.timers + [ChordSequence(tonality, s.mode, d)]
    ensures !s.isPoweredOn ==> t == s.(tonality := tonality)
  {
    Rendered(s, s.(tonality := tonality), d)
  }

  /** The mode select's `onChange`, with the same trigger rule as the tonality. */
  function SetMode(s: DeviceState, mode: Mode, d: Draws): (t: DeviceState)
    ensures mode == s.mode ==> t == s
    ensures mode != s.mode && s.isPoweredOn ==>
      t == Generate(s.(mode := mode), d)
      && t.timers == s.timers + [ChordSequence(s.tonality, mode, d)]
    ensures !s.isPoweredOn ==> t == s.(mode := mode)
  {
    Rendered(s, s.(mode := mode), d)
  }

  /** The oldest pending timeout runs: it commits its list and clears the busy
      flag, whatever the power state and however many requests came after it. */
  function FireTimeout(s: DeviceState): (t: DeviceState)
    ensures s.timers == [] ==> t == s
    ensures s.timers != [] ==>
      t == s.(sequence := s.timers[0], isGenerating := false, timers := s.timers[1..])
  {
    if s.timers == [] then s
    else s.(sequence := s.timers[0], isGenerating := false, timers := s.timers[1..])
  }

  /** What can happen to the panel: the three controls, the Generate button
      and the oldest pending timeout firing. */
  datatype Event =
    | PowerClick(draws: Draws)
    | TonalityChange(tonality: string, draws: Draws)
    | ModeChange(mode: Mode, draws: Draws)
    | GenerateClick(draws: Draws)
    | Timeout

  /** One event. The pending timeouts form a queue: an event leaves it alone,
      removes its head (only a timeout) or appends one entry (never a timeout),
      so no callback is cancelled or reordered. Only the power button changes
      the power state, and the display changes only by being cleared for a new
      generation or filled by a timeout. */
  function Step(s: DeviceState, e: Event): (t: DeviceState)
    ensures || t.timers == s.timers
            || (e.Timeout? && s.timers != [] && t.timers == s.timers[1..])
            || (!e.Timeout? && |t.timers| == |s.timers| + 1 && t.timers[..|s.timers|] == s.timers)
    ensures !e.PowerClick? ==> t.isPoweredOn == s.isPoweredOn
    ensures t.sequence != s.sequence ==> t.sequence == [] || e.Timeout?
  {
    match e
    case PowerClick(d) => TogglePower(s, d)
    case TonalityChange(t, d) => SetTonality(s, t, d)
    case ModeChange(m, d) => SetMode(s, m, d)
    case GenerateClick(d) => Generate(s, d)
    case Timeout => FireTimeout(s)
  }

  function Run(s: DeviceState, es: seq<Event>): DeviceState
    decreases |es|
  {
    if es == [] then s else Run(Step(s, es[0]), es[1..])
  }

  /** The events the rendered panel can issue: the selects are disabled while
      off and offer only the twelve names and the two modes, the Generate
      button is disabled while off or busy, and a timeout fires only when one
      is pending. */
  predicate Issuable(s: DeviceState, e: Event)
    ensures Issuable(s, e) && !e.PowerClick? && !e.Timeout? ==> s.isPoweredOn
    ensures Issuable(s, e) && e.GenerateClick? ==> !s.isGenerating
    ensures Issuable(s, e) && e.Timeout? ==> s.timers != []
  {
    match e
    case PowerClick(_) => true
    case TonalityChange(t, _) => s.isPoweredOn && t in Notes
    case ModeChange(_, _) => s.isPoweredOn
    case GenerateClick(_) => s.isPoweredOn && !s.isGenerating
    case Timeout => s.timers != []
  }

  predicate AllIssuable(s: DeviceState, es: seq<Event>)
    decreases |es|
  {
    es == [] || (Issuable(s, es[0]) && AllIssuable(Step(s, es[0]), es[1..]))
  }

  /** A list the panel can display: two to six labels, each a note name
      followed by a quality suffix. */
  predicate ChordList(c: seq<string>)
  {
    2 <= |c| <= 6 && forall i :: 0 <= i < |c| ==> ParseChord(c[i]).Some?
  }

  /** What holds in every state the panel can reach: a tonality from the note
      table, a busy flag only while a timeout is pending, and nothing but
      well-formed chord lists on display or waiting to be committed. */
  predicate Valid(s: DeviceState)
  {
    && 0 <= RootIndex(s.tonality)
    && (s.isGenerating ==> s.timers != [])
    && (s.sequence == [] || ChordList(s.sequence))
    && forall k :: 0 <= k < |s.timers| ==> ChordList(s.timers[k])
  }

  lemma ValidInitial()
    ensures Valid(Initial())
  {
    TonicIndices();
  }

  /** A generation for a known key schedules a well-formed list. */
  lemma GenerateKeepsValid(s: DeviceState, d: Draws)
    requires Valid(s)
    ensures Valid(Generate(s, d))
  {
    if s.isPoweredOn {
      var c := ChordSequence(s.tonality, s.mode, d);
      ChordsAreDiatonic(s.tonality, s.mode, d);
      assert ChordList(c);
      var t := Generate(s, d);
      forall k | 0 <= k < |t.timers| ensures ChordList(t.timers[k]) {
        if k < |s.timers| {
          assert t.timers[k] == s.timers[k];
        }
      }
    }
  }

  /** Every event the panel can issue keeps the state valid. */
  lemma StepKeepsValid(s: DeviceState, e: Event)
    requires Valid(s) && Issuable(s, e)
    ensures Valid(Step(s, e))
  {
    match e
    case PowerClick(d) =>
      GenerateKeepsValid(s.(isPoweredOn := !s.isPoweredOn), d);
    case TonalityChange(t, d) =>
      KnownTonality(t);
      GenerateKeepsValid(s.(tonality := t), d);
    case ModeChange(m, d) =>
      GenerateKeepsValid(s.(mode := m), d);
    case GenerateClick(d) =>
      GenerateKeepsValid(s, d);
    case Timeout =>
      FireTimeoutKeepsValid(s);
  }

  lemma KnownTonality(t: string)
    requires t in Notes
    ensures 0 <= RootIndex(t)
  {
    RootIndexFound(t);
  }

  lemma FireTimeoutKeepsValid(s: DeviceState)
    requires Valid(s)
    ensures Valid(FireTimeout(s))
  {
    var t := FireTimeout(s);
    forall k | 0 <= k < |t.timers| ensures ChordList(t.timers[k]) {
      assert t.timers[k] == s.timers[k + 1];
    }
  }

  /** Every state the panel reaches from mount is valid. */
  lemma {:induction false} RunKeepsValid(s: DeviceState, es: seq<Event>)
    requires Valid(s) && AllIssuable(s, es)
    ensures Valid(Run(s, es))
    decreases |es|
  {
    if es != [] {
      StepKeepsValid(s, es[0]);
      RunKeepsValid(Step(s, es[0]), es[1..]);
    }
  }

  /** Fires every pending timeout, oldest first. */
  function FireAll(s: DeviceState): DeviceState
    decreases |s.timers|
  {
    if s.timers == [] then s else FireAll(FireTimeout(s))
  }

  /** Once every pending timeout has fired, the display shows the list of the
      most recent request, the device is idle, and nothing else has changed. */
  lemma {:induction false} FireAllShowsLatest(s: DeviceState)
    requires s.timers != []
    ensures var t := FireAll(s);
      t.timers == [] && !t.isGenerating && t.sequence == s.timers[|s.timers| - 1]
      && t.tonality == s.tonality && t.mode == s.mode && t.isPoweredOn == s.isPoweredOn
    decreases |s.timers|
  {
    var next := FireTimeout(s);
    if next.timers != [] {
      FireAllShowsLatest(next);
      assert next.timers[|next.timers| - 1] == s.timers[|s.timers| - 1];
    }
  }

  /** Powering off while a generation is pending does not cancel it: the
      timeout still fills the display of the switched-off device. */
  lemma StaleTimeoutCommits(s: DeviceState, d: Draws, d': Draws)
    requires s.isPoweredOn && s.timers == []
    ensures var t := FireTimeout(TogglePower(Generate(s, d), d'));
      !t.isPoweredOn && !t.isGenerating && t.timers == []
      && t.sequence == ChordSequence(s.tonality, s.mode, d) && t.sequence != []
  {
  }

  /** A tonality change while a generation is pending starts a second one:
      nothing holds a request back while the device is busy. */
  lemma SecondRequestWhileBusy(s: DeviceState, tonality: string, d: Draws)
    requires s.isPoweredOn && s.isGenerating && tonality != s.tonality
    ensures var t := SetTonality(s, tonality, d);
      && t.isGenerating && t.sequence == []
      && t.timers == s.timers + [ChordSequence(tonality, s.mode, d)]
  {
  }

  /** Two requests in flight: the first timeout clears the busy flag and
      shows the list of the old key while the second is still pending; the
      second then replaces it with the list of the new key. */
  lemma EarlyIdle(s: DeviceState, tonality: string, d: Draws, d': Draws)
    requires s.isPoweredOn && s.timers == [] && tonality != s.tonality
    ensures var busy := SetTonality(Generate(s, d), tonality, d');
      var first := FireTimeout(busy);
      var second := FireTimeout(first);
      && |busy.timers| == 2
      && !first.isGenerating && |first.timers| == 1
      && first.sequence == ChordSequence(s.tonality, s.mode, d)
      && second.sequence == ChordSequence(tonality, s.mode, d')
  {
  }

  /** The component itself: its five state cells and the browser's pending
      timeouts, changed in place by the handlers. */
  class ChordSequenceGenerator {
    var tonality: string
    var mode: Mode
    var sequence: seq<string>
    var isGenerating: bool
    var isPoweredOn: bool
    var timers: seq<seq<string>>

    function State(): DeviceState
      reads this
    {
      DeviceState(tonality, mode, sequence, isGenerating, isPoweredOn, timers)
    }

    constructor ()
      ensures State() == Initial() && Valid(State())
    {
      tonality, mode, sequence := "C", Major, [];
      isGenerating, isPoweredOn, timers := false, false, [];
      ValidInitial();
    }

    /** `generateSequence`, with the draws `Math.random` would have made. */
    method GenerateSequence(d: Draws)
      modifies this
      ensures State() == Generate(old(State()), d)
    {
      if !isPoweredOn {
        return;
      }
      isGenerating := true;
      var newSequence := ChordSequence(tonality, mode, d);
      sequence := [];
      timers := timers + [newSequence];
    }

    /** The effect, run after a render in which a dependency changed. */
    method RunEffect(d: Draws)
      modifies this
      ensures State() == Effect(old(State()), d)
    {
      if isPoweredOn {
        GenerateSequence(d);
      }
    }

    /** The power button: `isPoweredOn` always changes, so the effect runs. */
    method OnPowerClick(d: Draws)
      modifies this
      ensures State() == TogglePower(old(State()), d)
    {
      isPoweredOn := !isPoweredOn;
      RunEffect(d);
    }

    /** The tonality select: the effect runs only for a new value. */
    method OnTonalityChange(value: string, d: Draws)
      modifies this
      ensures State() == SetTonality(old(State()), value, d)
    {
      var changed := value != tonality;
      tonality := value;
      if changed {
        RunEffect(d);
      }
    }

    /** The mode select: the effect runs only for a new value. */
    method OnModeChange(value: Mode, d: Draws)
      modifies this
      ensures State() == SetMode(old(State()), value, d)
    {
      var changed := value != mode;
      mode := value;
      if changed {
        RunEffect(d);
      }
    }

    /** The oldest pending timeout callback runs, if there is one. */
    method OnTimeout() returns (fired: bool)
      modifies this
      ensures fired == (old(timers) != [])
      ensures State() == FireTimeout(old(State()))
    {
      if timers == [] {
        return false;
      }
      var newSequence := timers[0];
      timers := timers[1..];
      sequence := newSequence;
      isGenerating := false;
      fired := true;
    }
  }
}
