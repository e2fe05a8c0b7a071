/** The fixed settings of Riff_Generator.py, the randomised inputs of one riff
    (`RandomiseInputs`, as the ranges it draws from), the category priorities
    the generator derives from them, and the choice of riff length
    (`RiffLengthRandom`). */
module Settings {
  import opened Seqs
  import opened Scale

  /** Root note in MIDI (drop-A seven-string tuning). */
  const Key := 33
  /** The smallest note length, a sixteenth note, in beats. */
  const Djent: real := 0.25
  /** Picking velocities: down-strokes, up-strokes and chords. */
  const DownPick := 110
  const UpPick := 90
  const ChordPick := 120
  /** The main track and the palm-mute track. */
  const Track := 0
  const PMTrack := 1
  /** The three riff lengths, in beats. */
  const RiffLengthMin := 4
  const RiffLengthMed := RiffLengthMin * 2
  const RiffLengthMax := RiffLengthMed * 2
  /** Probabilities used inside the palm-mute, chord and melody branches. */
  const PPM: real := 0.5
  const PCH: real := 0.2
  const PN: real := 0.3

  /** The tunables of one riff. */
  datatype Inputs = Inputs(
    howMuchCrazy: int,
    howManyChords: int,
    highestNote: int,
    howMuchPM: int,
    howMuchChords: int,
    howMuchMelody: int,
    howMuchRest: int)

  /** The ceilings `RandomiseInputs` may choose from. */
  const HighestNotes: set<int> := {12, 13, 14, 15, 17, 18, 19, 20, 22, 23, 24}

  /** The inputs `RandomiseInputs` can produce (`randint` excludes its upper
      bound). */
  predicate ValidInputs(x: Inputs)
  {
    0 <= x.howMuchCrazy < 2 &&
    2 <= x.howManyChords < 8 &&
    x.highestNote in HighestNotes &&
    3 <= x.howMuchPM < 9 &&
    3 <= x.howMuchChords < 9 &&
    3 <= x.howMuchMelody < 9 &&
    0 <= x.howMuchRest < 4
  }

  /** Every ceiling `RandomiseInputs` may choose is a scale note, at least an
      octave above the root. */
  lemma HighestNotesInScale(h: int)
    requires h in HighestNotes
    ensures h in KeyScale[10..] && h >= 12
  {
    // 12-15 sit two places below their value, 17-20 three, 22-24 four
    var i := if h < 16 then h - 2 else if h < 21 then h - 3 else h - 4;
    assert KeyScale[10..][i - 10] == h;
  }

  /** The normalised priorities of the four event categories. */
  datatype Priorities = Priorities(pm: real, ch: real, ml: real, rs: real)

  /** Each category's share of the summed priorities (`howMuchX / howMuch`);
      no priorities when they sum to zero (the source divides by zero). */
  function CategoryPriorities(x: Inputs): (r: Option<Priorities>)
    ensures r.None? <==> x.howMuchPM + x.howMuchChords + x.howMuchMelody + x.howMuchRest == 0
  {
    var howMuch := x.howMuchPM + x.howMuchChords + x.howMuchMelody + x.howMuchRest;
    if howMuch == 0 then None
    else Some(Priorities(
      x.howMuchPM as real / howMuch as real,
      x.howMuchChords as real / howMuch as real,
      x.howMuchMelody as real / howMuch as real,
      x.howMuchRest as real / howMuch as real))
  }

  /** For inputs `RandomiseInputs` can produce, the priorities exist, are
      non-negative and sum to one. */
  lemma PrioritiesDistribution(x: Inputs)
    requires ValidInputs(x)
    ensures CategoryPriorities(x).Some?
    ensures var p := CategoryPriorities(x).value;
      0.0 < p.pm && 0.0 < p.ch && 0.0 < p.ml && 0.0 <= p.rs &&
      p.pm + p.ch + p.ml + p.rs == 1.0
  {
    var a, b, c, d := x.howMuchPM as real, x.howMuchChords as real, x.howMuchMelody as real, x.howMuchRest as real;
    SharesSumToOne(a, b, c, d);
  }

  lemma SharesSumToOne(a: real, b: real, c: real, d: real)
    requires a + b + c + d > 0.0
    ensures a / (a + b + c + d) + b / (a + b + c + d) + c / (a + b + c + d) + d / (a + b + c + d) == 1.0
  {
    var t := a + b + c + d;
    assert a / t + b / t == (a + b) / t;
    assert (a + b) / t + c / t == (a + b + c) / t;
    assert (a + b + c) / t + d / t == t / t;
  }

  /** A value read from the head of the random stream, with the number of draws
      it took. */
  datatype Drawn = Drawn(value: nat, used: nat)

  /** `RiffLengthRandom`: the short riff when the first draw is below 1/3,
      otherwise the medium one when a second draw is below 1/2, otherwise the
      long one. None when the stream runs out first. */
  function RiffLengthRandom(draws: seq<real>): (r: Option<Drawn>)
    ensures r.None? <==> draws == [] || (|draws| == 1 && draws[0] >= 1.0 / 3.0)
    ensures r.Some? ==> 1 <= r.value.used <= |draws| && r.value.used <= 2
    ensures r.Some? ==> r.value.value in {RiffLengthMin, RiffLengthMed, RiffLengthMax}
    ensures r.Some? ==> (r.value.value == RiffLengthMin <==> draws[0] < 1.0 / 3.0)
    ensures r.Some? ==> (r.value.value == RiffLengthMin <==> r.value.used == 1)
    ensures r.Some? ==> (r.value.value == RiffLengthMed <==> draws[0] >= 1.0 / 3.0 && draws[1] < 1.0 / 2.0)
    ensures r.Some? ==> (r.value.value == RiffLengthMax <==> draws[0] >= 1.0 / 3.0 && draws[1] >= 1.0 / 2.0)
    ensures r.Some? ==> r.value.value in {4, 8, 16}
  {
    if draws == [] then None
    else if draws[0] < 1.0 / 3.0 then Some(Drawn(RiffLengthMin, 1))
    else if |draws| < 2 then None
    else if draws[1] < 1.0 / 2.0 then Some(Drawn(RiffLengthMed, 2))
    else Some(Drawn(RiffLengthMax, 2))
  }
}
