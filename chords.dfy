/** The chord-sequence construction of the vintage chord generator: the three
    constant tables and the body of `generateSequence` that turns a tonality, a
    mode and the random draws into a list of chord labels.

    `Math.random` is replaced by explicit integer draws: every
    `Math.floor(Math.random() * n)` of the component becomes a natural number
    below `n`. */
module ChordEngine {

  datatype Option<T> = None | Some(value: T)

  /** The twelve pitch-class names, indexed by semitone distance from C. */
  const Notes: seq<string> := ["C", "C#", "D", "D#", "E", "F", "F#", "G", "G#", "A", "A#", "B"]

  /** Chord-quality suffixes: major triad, minor, dominant 7th, minor 7th,
      major 7th and 6th. */
  const ChordTypes: seq<string> := ["", "m", "7", "m7", "maj7", "6"]

  datatype Mode = Major | Minor

  /** The table of scale-degree offsets in semitones from the tonic. Both tables
      have seven ascending entries below an octave, the first being the tonic. */
  function Scale(m: Mode): (s: seq<int>)
    ensures |s| == 7 && s[0] == 0
    ensures forall i :: 0 <= i < |s| ==> 0 <= s[i] < 12
    ensures forall i, j :: 0 <= i < j < |s| ==> s[i] < s[j]
  {
    match m
    case Major => [0, 2, 4, 5, 7, 9, 11]
    case Minor => [0, 2, 3, 5, 7, 8, 10]
  }

  /** `Math.floor(Math.random() * 5)`: the draw behind the sequence length. */
  type LengthDraw = k: nat | k < 5

  /** `Math.floor(Math.random() * scale.length)`; `scale.length` is 7 in both modes. */
  type DegreeDraw = i: nat | i < 7

  /** `Math.floor(Math.random() * chordTypes.length)`. */
  type QualityDraw = j: nat | j < 6

  /** The two draws made for one chord, in the order the component makes them. */
  datatype Pick = Pick(degree: DegreeDraw, quality: QualityDraw)

  /** All the draws of one call of `generateSequence`: the length draw, then one
      `Pick` per chord (chord `i` uses `picks(i)`). */
  datatype Draws = Draws(lengthDraw: LengthDraw, picks: nat -> Pick)

  /** `Array.prototype.indexOf` with strict equality: the first index holding
      `x`, or -1 when there is none. */
  function IndexOf<T(==)>(xs: seq<T>, x: T): (r: int)
    ensures -1 <= r < |xs|
    ensures 0 <= r ==> xs[r] == x && x !in xs[..r]
  {
    if |xs| == 0 then -1
    else if xs[0] == x then 0
    else
      var j := IndexOf(xs[1..], x);
      if j < 0 then -1
      else
        assert xs[..j + 1] == [xs[0]] + xs[1..][..j];
        j + 1
  }

  /** `indexOf` answers -1 exactly when the value is absent. */
  lemma {:induction false} IndexOfMissing<T>(xs: seq<T>, x: T)
    ensures IndexOf(xs, x) == -1 <==> x !in xs
  {
    if |xs| > 0 && xs[0] != x {
      IndexOfMissing(xs[1..], x);
      assert xs == [xs[0]] + xs[1..];
    }
  }

  /** JavaScript's `a % 12`: the remainder of division truncated toward zero,
      which takes the sign of the dividend (Dafny's `%` never is negative). The
      three properties below determine it uniquely. */
  function JsRem12(a: int): (r: int)
    ensures 0 <= a ==> 0 <= r < 12
    ensures a < 0 ==> -12 < r <= 0
    ensures (a - r) % 12 == 0
  {
    if a >= 0 then a % 12 else -((-a) % 12)
  }

  /** `notes[i]` inside a template literal: an index outside the table yields
      `undefined`, which the template renders as the text "undefined". An index
      in range gives the name that `indexOf` finds at that index again; any
      other index gives a text that is no note name. */
  function NoteName(i: int): (r: string)
    ensures 0 <= i < |Notes| ==> IndexOf(Notes, r) == i
    ensures !(0 <= i < |Notes|) ==> r !in Notes
  {
    if 0 <= i < |Notes| then NoteLookup(i); Notes[i] else "undefined"
  }

  /** `notes.indexOf(tonality)`: the position of the tonality in the note
      table, or -1 when it is none of the twelve names. */
  function RootIndex(tonality: string): (r: int)
    ensures -1 <= r < 12
    ensures 0 <= r ==> Notes[r] == tonality
  {
    IndexOf(Notes, tonality)
  }

  /** The tonality is found exactly when it is one of the twelve names. */
  lemma RootIndexFound(tonality: string)
    ensures tonality in Notes <==> 0 <= RootIndex(tonality)
  {
    IndexOfMissing(Notes, tonality);
  }

  /** `(rootIndex + offset) % 12` with JavaScript's remainder. For a known
      tonic and a table offset it is the pitch class reached, always inside
      the note table. */
  function NoteIndex(rootIndex: int, offset: int): (r: int)
    ensures 0 <= rootIndex + offset ==> 0 <= r < 12 && r == (rootIndex + offset) % 12
    ensures rootIndex + offset < 0 ==> -12 < r <= 0
  {
    JsRem12(rootIndex + offset)
  }

  /** `Math.floor(Math.random() * 5) + 2`: between two and six chords. */
  function SequenceLength(k: LengthDraw): (n: nat)
    ensures 2 <= n <= 6
    ensures n - 2 == k
  {
    k + 2
  }

  /** One chord label: the note reached from the root by the picked scale
      degree, followed by the picked quality suffix. For a root in the table
      the note is the picked pitch class of the key. */
  function Chord(rootIndex: int, m: Mode, p: Pick): (c: string)
    ensures 0 <= rootIndex < 12 ==>
      c == Notes[PitchClasses(rootIndex, m)[p.degree]] + ChordTypes[p.quality]
  {
    var n := NoteIndex(rootIndex, Scale(m)[p.degree]);
    // Both branches build the same label; the first only adds the fact that
    // ties line 30's index to the key's pitch class.
    if 0 <= rootIndex < 12 then
      KeyNote(rootIndex, m, p.degree);
      NoteName(n) + ChordTypes[p.quality]
    else NoteName(n) + ChordTypes[p.quality]
  }

  /** From a root in the table, a scale degree reaches its pitch class of the key. */
  lemma KeyNote(rootIndex: int, m: Mode, j: DegreeDraw)
    requires 0 <= rootIndex < 12
    ensures NoteIndex(rootIndex, Scale(m)[j]) == PitchClasses(rootIndex, m)[j]
  {
  }

  /** The list built by `Array.from({ length }, ...)` in `generateSequence`. */
  function ChordSequence(tonality: string, m: Mode, d: Draws): (r: seq<string>)
    ensures |r| == d.lengthDraw + 2
    ensures 2 <= |r| <= 6
  {
    var rootIndex := RootIndex(tonality);
    seq(SequenceLength(d.lengthDraw), i requires 0 <= i => Chord(rootIndex, m, d.picks(i)))
  }

  /** Splits a label into its note name and its quality suffix and looks both
      up: the note name is one letter, or two when the second character is a
      sharp sign. */
  function ParseChord(s: string): (r: Option<(nat, nat)>)
    ensures r.Some? ==> r.value.0 < |Notes| && r.value.1 < |ChordTypes|
    ensures r.Some? ==> s == Notes[r.value.0] + ChordTypes[r.value.1]
  {
    if |s| == 0 then None
    else
      var k := if |s| >= 2 && s[1] == '#' then 2 else 1;
      var name, suffix := s[..k], s[k..];
      var n := IndexOf(Notes, name);
      var q := IndexOf(ChordTypes, suffix);
      if 0 <= n && 0 <= q then
        assert s == name + suffix;
        Some((n, q))
      else None
  }

  /** The seven pitch classes of the key: the tonic moved up by each offset of
      the mode's table, wrapped into the octave. */
  function PitchClasses(rootIndex: int, m: Mode): (r: seq<int>)
    requires 0 <= rootIndex < 12
    ensures |r| == 7 && r[0] == rootIndex
    ensures forall j :: 0 <= j < 7 ==> 0 <= r[j] < 12
  {
    var offsets := Scale(m);
    seq(7, j requires 0 <= j < 7 => (rootIndex + offsets[j]) % 12)
  }

  /** No two entries of a table are equal. */
  predicate Distinct<T(==)>(xs: seq<T>)
  {
    forall i, j :: 0 <= i < j < |xs| ==> xs[i] != xs[j]
  }

  /** In a table without repetitions, looking up an entry finds its own index. */
  lemma IndexOfDistinct<T>(xs: seq<T>, i: nat)
    requires Distinct(xs) && i < |xs|
    ensures IndexOf(xs, xs[i]) == i
  {
    IndexOfMissing(xs, xs[i]);
  }

  /** Each of the twelve names is found at its own index. */
  lemma NoteLookup(n: nat)
    requires n < |Notes|
    ensures IndexOf(Notes, Notes[n]) == n
  {
    assert Distinct(Notes);
    IndexOfDistinct(Notes, n);
  }

  /** Each of the six suffixes is found at its own index. */
  lemma SuffixLookup(q: nat)
    requires q < |ChordTypes|
    ensures IndexOf(ChordTypes, ChordTypes[q]) == q
  {
    assert Distinct(ChordTypes);
    IndexOfDistinct(ChordTypes, q);
  }

  /** Every note name is a letter, optionally followed by a sharp sign. */
  lemma NoteNameShape(n: nat)
    requires n < |Notes|
    ensures 1 <= |Notes[n]| <= 2 && (|Notes[n]| == 2 ==> Notes[n][1] == '#')
  {
  }

  /** No quality suffix starts with a sharp sign. */
  lemma SuffixShape(q: nat)
    requires q < |ChordTypes|
    ensures |ChordTypes[q]| == 0 || ChordTypes[q][0] != '#'
  {
  }

  /** Every label the generator can produce decodes to the note and the
      quality it was made from: the two tables are read back unambiguously. */
  lemma ParseLabel(n: nat, q: nat)
    requires n < |Notes| && q < |ChordTypes|
    ensures ParseChord(Notes[n] + ChordTypes[q]) == Some((n, q))
  {
    var name, suffix := Notes[n], ChordTypes[q];
    NoteNameShape(n);
    SuffixShape(q);
    var s := name + suffix;
    var k := if |s| >= 2 && s[1] == '#' then 2 else 1;
    if |name| == 2 {
      assert s[1] == name[1];
    } else if |suffix| > 0 {
      assert s[1] == suffix[0];
    }
    assert k == |name|;
    assert s[..k] == name && s[k..] == suffix;
    NoteLookup(n);
    SuffixLookup(q);
  }

  /** Within one key the seven scale degrees reach seven different pitch
      classes, the first of them the tonic itself. */
  lemma PitchClassesDistinct(rootIndex: int, m: Mode)
    requires 0 <= rootIndex < 12
    ensures Distinct(PitchClasses(rootIndex, m))
    ensures rootIndex in PitchClasses(rootIndex, m)
  {
    var offsets, pcs := Scale(m), PitchClasses(rootIndex, m);
    forall i, j | 0 <= i < j < 7 ensures pcs[i] != pcs[j] {
      WrapInjective(rootIndex + offsets[i], rootIndex + offsets[j]);
    }
  }

  /** Two sums less than an octave apart, both below two octaves, wrap to
      different pitch classes. */
  lemma WrapInjective(a: int, b: int)
    requires 0 <= a < b < a + 12 && b < 24
    ensures a % 12 != b % 12
  {
    if b >= 12 {
      assert b % 12 == b - 12;
      if a >= 12 {
        assert a % 12 == a - 12;
      }
    }
  }

  /** Chord `i` of a sequence is built from the `i`-th pick. */
  lemma ChordAt(tonality: string, m: Mode, d: Draws, i: nat)
    requires i < d.lengthDraw + 2
    ensures ChordSequence(tonality, m, d)[i] == Chord(RootIndex(tonality), m, d.picks(i))
  {
  }

  /** For a tonality found in the note table, chord `i` is exactly the pitch class
      that the picked degree reaches from the tonic, followed by the picked
      suffix; the suffix does not depend on the degree. */
  lemma ChordDecodes(tonality: string, m: Mode, d: Draws, i: nat)
    requires 0 <= RootIndex(tonality) && i < d.lengthDraw + 2
    ensures var p := d.picks(i);
      ParseChord(ChordSequence(tonality, m, d)[i])
        == Some((PitchClasses(RootIndex(tonality), m)[p.degree] as nat, p.quality as nat))
  {
    var p := d.picks(i);
    var rootIndex := RootIndex(tonality);
    var n := PitchClasses(rootIndex, m)[p.degree];
    ChordAt(tonality, m, d, i);
    assert ChordSequence(tonality, m, d)[i] == Notes[n] + ChordTypes[p.quality];
    ParseLabel(n, p.quality);
  }

  /** Every chord of a generated sequence is a note of the key followed by one
      of the six suffixes. */
  lemma {:induction false} ChordsAreDiatonic(tonality: string, m: Mode, d: Draws)
    requires 0 <= RootIndex(tonality)
    ensures var r := ChordSequence(tonality, m, d);
      forall i :: 0 <= i < |r| ==>
        ParseChord(r[i]).Some? && ParseChord(r[i]).value.0 in PitchClasses(RootIndex(tonality), m)
  {
    var r := ChordSequence(tonality, m, d);
    var pcs := PitchClasses(RootIndex(tonality), m);
    forall i | 0 <= i < |r|
      ensures ParseChord(r[i]).Some? && ParseChord(r[i]).value.0 in pcs
    {
      ChordDecodes(tonality, m, d, i);
      assert pcs[d.picks(i).degree] in pcs;
    }
  }

  /** C is at index 0 of the note table and A at index 9. */
  lemma TonicIndices()
    ensures RootIndex("C") == 0 && RootIndex("A") == 9
  {
    NoteLookup(0);
    NoteLookup(9);
  }

  /** The degrees of C major reach the pitch classes 0, 2, 4, 5, 7, 9 and 11. */
  lemma CMajorPitchClasses()
    ensures PitchClasses(0, Major) == [0, 2, 4, 5, 7, 9, 11]
  {
  }

  /** The degrees of A minor reach the pitch classes 9, 11, 0, 2, 4, 5 and 7. */
  lemma AMinorPitchClasses()
    ensures PitchClasses(9, Minor) == [9, 11, 0, 2, 4, 5, 7]
  {
    var pcs := PitchClasses(9, Minor);
    assert pcs[2] == 0 && pcs[3] == 2 && pcs[4] == 4 && pcs[5] == 5 && pcs[6] == 7;
  }

  /** C major yields only the roots C, D, E, F, G, A and B. */
  lemma CMajorRoots(d: Draws)
    ensures var r := ChordSequence("C", Major, d);
      forall i :: 0 <= i < |r| ==>
        ParseChord(r[i]).Some? && Notes[ParseChord(r[i]).value.0] in {"C", "D", "E", "F", "G", "A", "B"}
  {
    TonicIndices();
    CMajorPitchClasses();
    ChordsAreDiatonic("C", Major, d);
    var r := ChordSequence("C", Major, d);
    forall i | 0 <= i < |r|
      ensures Notes[ParseChord(r[i]).value.0] in {"C", "D", "E", "F", "G", "A", "B"}
    {
      CMajorName(ParseChord(r[i]).value.0);
    }
  }

  /** The pitch classes of C major name the seven natural notes. */
  lemma CMajorName(n: int)
    requires n in [0, 2, 4, 5, 7, 9, 11]
    ensures 0 <= n < 12 && Notes[n] in {"C", "D", "E", "F", "G", "A", "B"}
  {
  }

  /** A minor yields only the roots A, B, C, D, E, F and G. */
  lemma AMinorRoots(d: Draws)
    ensures var r := ChordSequence("A", Minor, d);
      forall i :: 0 <= i < |r| ==>
        ParseChord(r[i]).Some? && Notes[ParseChord(r[i]).value.0] in {"A", "B", "C", "D", "E", "F", "G"}
  {
    TonicIndices();
    AMinorPitchClasses();
    ChordsAreDiatonic("A", Minor, d);
    var r := ChordSequence("A", Minor, d);
    forall i | 0 <= i < |r|
      ensures Notes[ParseChord(r[i]).value.0] in {"A", "B", "C", "D", "E", "F", "G"}
    {
      AMinorName(ParseChord(r[i]).value.0);
    }
  }

  /** The pitch classes of A minor name the seven natural notes. */
  lemma AMinorName(n: int)
    requires n in [9, 11, 0, 2, 4, 5, 7]
    ensures 0 <= n < 12 && Notes[n] in {"A", "B", "C", "D", "E", "F", "G"}
  {
  }

  /** A tonality outside the note table makes `indexOf` return -1. Because
      JavaScript's remainder keeps the sign, the tonic degree then lands on index
      -1 and the chord starts with "undefined"; every other degree lands one
      semitone below where it would from C. */
  lemma UnknownTonality(tonality: string, m: Mode, d: Draws, i: nat)
    requires tonality !in Notes && i < d.lengthDraw + 2
    ensures var p := d.picks(i); var offset := Scale(m)[p.degree];
      var chord := ChordSequence(tonality, m, d)[i];
      (offset == 0 ==> chord == "undefined" + ChordTypes[p.quality])
      && (offset != 0 ==> chord == Notes[offset - 1] + ChordTypes[p.quality])
  {
    RootIndexFound(tonality);
    UnknownRoot(tonality, m, d, i);
  }

  /** With root index -1, chord `i` starts with the name one semitone below the
      picked offset from C, or "undefined" for the tonic. */
  lemma UnknownRoot(tonality: string, m: Mode, d: Draws, i: nat)
    requires RootIndex(tonality) < 0 && i < d.lengthDraw + 2
    ensures var p := d.picks(i); var offset := Scale(m)[p.degree];
      ChordSequence(tonality, m, d)[i] == NoteName(offset - 1) + ChordTypes[p.quality]
  {
    var p := d.picks(i);
    ChordAt(tonality, m, d, i);
    WrapFromMinusOne(Scale(m)[p.degree]);
  }

  /** JavaScript's remainder of `-1 + offset` by 12 is `offset - 1` for an
      offset below an octave, -1 included. */
  lemma WrapFromMinusOne(offset: int)
    requires 0 <= offset < 12
    ensures NoteIndex(-1, offset) == offset - 1
  {
  }
}
