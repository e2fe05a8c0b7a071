/** One song part as `Main` of Riff_Generator.py produces it: a fresh MIDI file,
    the two transition matrices for the chosen inputs, the chord vocabulary, a
    riff length, and the riff itself. */
module Riff {
  import opened Seqs
  import opened Scale
  import opened Markov
  import opened Random
  import opened Transfer
  import opened Chords
  import opened Settings
  import opened Generator

  /** `RiffLengthRandom` on the stream: the length it picks, and the stream
      moved on by the draws it took. */
  method RiffLength(rng: Rng) returns (riffLength: Option<nat>)
    requires rng.Valid()
    modifies rng
    ensures rng.Valid()
    ensures var r := RiffLengthRandom(old(rng.draws));
      (r.None? ==> riffLength.None? && rng.draws == []) &&
      (r.Some? ==> riffLength == Some(r.value.value) && rng.draws == old(rng.draws)[r.value.used..])
  {
    if rng.draws == [] {
      return None;
    }
    var u := rng.Random();
    if u < 1.0 / 3.0 {
      return Some(RiffLengthMin);
    }
    if rng.draws == [] {
      return None;
    }
    u := rng.Random();
    if u < 1.0 / 2.0 {
      riffLength := Some(RiffLengthMed);
    } else {
      riffLength := Some(RiffLengthMax);
    }
  }

  /** One pass of `Main`'s inner loop, for inputs `RandomiseInputs` can
      produce: `CreateMIDIFile`, `TransferFunction`, `MelodyTransferFunction`,
      `ChordsTransferFunction`, `RiffLengthRandom` and `RiffGenerator` in turn.
      The matrices always exist and always meet what the generator needs; the
      riff is produced unless the stream runs dry before its length is chosen,
      and then every note lies within that length, in key and in order, and the
      riff was filled up to its end unless the stream ran low. */
  method Generate(x: Inputs, rng: Rng)
    returns (tf: Matrix, mtf: Matrix, chords: seq<int>, ghost path: seq<int>, riffLength: nat, score: Score?)
    requires ValidInputs(x) && rng.Valid()
    modifies rng
    ensures Built(x, tf, mtf)
    ensures rng.Valid()
    ensures chords != [] && chords[0] == 0 && Distinct(chords) && |chords| <= x.howManyChords
    ensures forall c :: c in chords ==> c in KeyScale && c <= x.highestNote
    ensures score != null ==> |chords| == x.howManyChords
    ensures score != null ==>
      fresh(score) && riffLength in {RiffLengthMin, RiffLengthMed, RiffLengthMax} &&
      score.Sound(riffLength) && (riffLength as real <= score.time || |rng.draws| < MaxDraws)
    ensures WalkStopped(tf, old(rng.draws), x.howManyChords, path) && chords == FirstOccurrences(path)
    ensures var part := SongPart(x, tf, mtf, old(rng.draws), path);
      (score == null <==> part.None?) &&
      (score != null ==> riffLength == part.value.0 && score.time == part.value.1.time &&
                         score.events == part.value.1.events && rng.draws == part.value.1.draws)
  {
    tf, mtf := Tables(x);
    chords, path, riffLength, score := GenerateFrom(x, tf, mtf, rng);
  }

  /** `Generate` once the two matrices are built. */
  method GenerateFrom(x: Inputs, tf: Matrix, mtf: Matrix, rng: Rng)
    returns (chords: seq<int>, ghost path: seq<int>, riffLength: nat, score: Score?)
    requires ValidInputs(x) && rng.Valid() && Fit(x, tf, mtf)
    modifies rng
    ensures rng.Valid()
    ensures chords != [] && chords[0] == 0 && Distinct(chords) && |chords| <= x.howManyChords
    ensures forall c :: c in chords ==> c in KeyScale && c <= x.highestNote
    ensures score != null ==> |chords| == x.howManyChords
    ensures score != null ==>
      fresh(score) && riffLength in {RiffLengthMin, RiffLengthMed, RiffLengthMax} &&
      score.Sound(riffLength) && (riffLength as real <= score.time || |rng.draws| < MaxDraws)
    ensures WalkStopped(tf, old(rng.draws), x.howManyChords, path) && chords == FirstOccurrences(path)
    ensures var part := SongPart(x, tf, mtf, old(rng.draws), path);
      (score == null <==> part.None?) &&
      (score != null ==> riffLength == part.value.0 && score.time == part.value.1.time &&
                         score.events == part.value.1.events && rng.draws == part.value.1.draws)
  {
    var ct;
    ghost var d := rng.draws;
    ghost var parents;
    chords, ct, path, parents := ChordsTransferFunction(tf, x.howManyChords, rng);
    ghost var left := rng.draws;
    riffLength := 0;
    score := null;
    var length := RiffLength(rng);
    if length.Some? {
      riffLength := length.value;
      PrioritiesDistribution(x);
      var pr := CategoryPriorities(x).value;
      ChordsSetting(tf, mtf, chords, ct);
      score := new Score();
      ghost var rest := rng.draws;
      var s := score.RiffGenerator(riffLength, ct, mtf, pr, rng);
      SongPartIs(x, tf, mtf, d, path, RiffLengthRandom(left).value);
    }
  }

  /** The two matrices for the inputs, and what the walk and the generator
      need of them. */
  ghost predicate Built(x: Inputs, tf: Matrix, mtf: Matrix)
    requires ValidInputs(x)
  {
    TransferFunction(x.howMuchCrazy, x.highestNote) == Some(tf) &&
    MelodyTransferFunction(x.howMuchCrazy, x.highestNote) == Some(mtf) &&
    Fit(x, tf, mtf)
  }

  /** What the walk and the generator need of the two matrices: both over
      the same scale notes up to the ceiling, from the root, and the chord
      matrix able to stay on every chord. */
  ghost predicate Fit(x: Inputs, tf: Matrix, mtf: Matrix)
  {
    tf.Valid() && tf.StaysPositive() && tf.keys != [] && tf.keys[0] == 0 &&
    mtf.Valid() && mtf.keys == tf.keys &&
    forall n :: n in mtf.keys ==> n in KeyScale && n <= x.highestNote
  }

  /** One song part as a function of the stream `d`, once the walk `path` has
      stopped as the source's does: no riff when the draws run out before
      the length is chosen; otherwise the length, and the riff `SongRiff`
      gives for it. */
  ghost function SongPart(x: Inputs, tf: Matrix, mtf: Matrix, d: seq<real>, path: seq<int>): (r: Option<(nat, Snapshot)>)
    requires ValidInputs(x) && Fit(x, tf, mtf) && InUnit(d)
    requires WalkStopped(tf, d, x.howManyChords, path)
    ensures r.None? <==> RiffLengthRandom(d[|path| - 1..]).None?
    ensures r.Some? ==> r.value.0 == RiffLengthRandom(d[|path| - 1..]).value.value
    ensures r.Some? ==> r.value.0 as real <= r.value.1.time || |r.value.1.draws| < MaxDraws
    ensures r.Some? ==> Suffix(r.value.1.draws, d)
  {
    match RiffLengthRandom(d[|path| - 1..])
    case None => None
    case Some(length) => Some((length.value, SongRiff(x, tf, mtf, d, path, length)))
  }

  /** The riff of a song part whose length has been drawn: the state
      `RiffGenerator` ends in from a fresh file, on the vocabulary's matrix
      and the draws the length left. */
  ghost function SongRiff(x: Inputs, tf: Matrix, mtf: Matrix, d: seq<real>, path: seq<int>, length: Drawn): (r: Snapshot)
    requires ValidInputs(x) && Fit(x, tf, mtf) && InUnit(d)
    requires WalkStopped(tf, d, x.howManyChords, path)
    requires RiffLengthRandom(d[|path| - 1..]) == Some(length)
    ensures length.value as real <= r.time || |r.draws| < MaxDraws
    ensures Suffix(r.draws, d)
  {
    var left := d[|path| - 1..];
    var rest := left[length.used..];
    var chords := FirstOccurrences(path);
    VocabularyFits(x, tf, mtf, d, path);
    SuffixTransitive(rest, left, d);
    InUnitSuffix(rest, d);
    var end := Run(length.value, ChordTransitions(tf, chords), mtf, CategoryPriorities(x).value,
                   Snapshot(Start, 0.0, [], rest));
    SuffixTransitive(end.draws, rest, d);
    end
  }

  /** A fixed stream fixes the song part: whichever walk stopped as the
      source's loop does, the vocabulary, the length and the riff are the
      same. */
  lemma SongPartDetermined(x: Inputs, tf: Matrix, mtf: Matrix, d: seq<real>, p: seq<int>, q: seq<int>)
    requires ValidInputs(x) && Fit(x, tf, mtf) && InUnit(d)
    requires WalkStopped(tf, d, x.howManyChords, p) && WalkStopped(tf, d, x.howManyChords, q)
    ensures FirstOccurrences(p) == FirstOccurrences(q)
    ensures SongPart(x, tf, mtf, d, p) == SongPart(x, tf, mtf, d, q)
  {
    WalkStoppedUnique(tf, d, x.howManyChords, p, q);
  }

  /** The vocabulary a stopped walk keeps, with the melody matrix, is a
      setting the generator can walk, and the inputs give category
      priorities. */
  lemma VocabularyFits(x: Inputs, tf: Matrix, mtf: Matrix, d: seq<real>, path: seq<int>)
    requires ValidInputs(x) && Fit(x, tf, mtf) && InUnit(d)
    requires WalkStopped(tf, d, x.howManyChords, path)
    ensures var chords := FirstOccurrences(path);
      chords != [] && chords[0] == 0 && Distinct(chords) && (forall c :: c in chords ==> c in tf.keys) &&
      Setting(ChordTransitions(tf, chords), mtf) && OnWalk(Start, ChordTransitions(tf, chords), mtf)
    ensures CategoryPriorities(x).Some?
  {
    FirstOccurrencesMembers(path);
    WalkPathKeys(tf, d, |path| - 1);
    ChordsSetting(tf, mtf, FirstOccurrences(path), ChordTransitions(tf, FirstOccurrences(path)));
    PrioritiesDistribution(x);
  }

  /** Once the length is drawn, the song part is the run of the generator
      from a fresh file on the draws the length left. */
  lemma SongPartIs(x: Inputs, tf: Matrix, mtf: Matrix, d: seq<real>, path: seq<int>, length: Drawn)
    requires ValidInputs(x) && Fit(x, tf, mtf) && InUnit(d)
    requires WalkStopped(tf, d, x.howManyChords, path)
    requires RiffLengthRandom(d[|path| - 1..]) == Some(length)
    requires Distinct(FirstOccurrences(path)) && forall c :: c in FirstOccurrences(path) ==> c in tf.keys
    requires Setting(ChordTransitions(tf, FirstOccurrences(path)), mtf) && CategoryPriorities(x).Some?
    ensures InUnit(d[|path| - 1..][length.used..])
    ensures SongPart(x, tf, mtf, d, path) ==
      Some((length.value, Run(length.value, ChordTransitions(tf, FirstOccurrences(path)), mtf,
                              CategoryPriorities(x).value, Snapshot(Start, 0.0, [], d[|path| - 1..][length.used..]))))
  {
  }

  /** `TransferFunction` and `MelodyTransferFunction` for the inputs. */
  method Tables(x: Inputs) returns (tf: Matrix, mtf: Matrix)
    requires ValidInputs(x)
    ensures Built(x, tf, mtf)
  {
    Matrices(x);
    tf := TransferFunction(x.howMuchCrazy, x.highestNote).value;
    mtf := MelodyTransferFunction(x.howMuchCrazy, x.highestNote).value;
  }

  /** For inputs `RandomiseInputs` can produce, both matrices exist, share
      their keys (the scale up to `highestNote`, from the root), and the chord
      matrix stays positive on its diagonal. */
  lemma Matrices(x: Inputs)
    requires ValidInputs(x)
    ensures TransferFunction(x.howMuchCrazy, x.highestNote).Some?
    ensures MelodyTransferFunction(x.howMuchCrazy, x.highestNote).Some?
    ensures var tf, mtf := TransferFunction(x.howMuchCrazy, x.highestNote).value,
                           MelodyTransferFunction(x.howMuchCrazy, x.highestNote).value;
      tf.Valid() && tf.StaysPositive() && tf.keys != [] && tf.keys[0] == 0 &&
      mtf.Valid() && mtf.keys == tf.keys &&
      forall n :: n in mtf.keys ==> n in KeyScale && n <= x.highestNote
  {
    HighestNotesInScale(x.highestNote);
    TransferKeysAgree(x.howMuchCrazy, x.highestNote);
    TablesWellFormed();
    PrefixBelowCeiling(TransferFunction(x.howMuchCrazy, x.highestNote).value.keys, x.highestNote);
  }

  /** A prefix of the scale ending in `highestNote` holds scale notes no
      higher than it. */
  lemma PrefixBelowCeiling(keys: seq<int>, highestNote: int)
    requires 0 < |keys| <= |KeyScale| && keys == KeyScale[..|keys|] && keys[|keys| - 1] == highestNote
    ensures forall n :: n in keys ==> n in KeyScale && n <= highestNote
  {
    assert Ascending(KeyScale);
    AscendingDistinct(KeyScale);
    forall n | n in keys
      ensures n in KeyScale && n <= highestNote
    {
      var i :| 0 <= i < |keys| && keys[i] == n;
      assert KeyScale[i] == n;
      if i < |keys| - 1 {
        assert KeyScale[i] < KeyScale[|keys| - 1];
      }
    }
  }

  /** The chord matrix cut down to a vocabulary from the root, beside the
      melody matrix over the same scale prefix, is a setting the generator can
      walk. */
  lemma ChordsSetting(tf: Matrix, mtf: Matrix, chords: seq<int>, ct: Matrix)
    requires mtf.Valid() && tf.keys == mtf.keys
    requires forall n :: n in mtf.keys ==> n in KeyScale
    requires chords != [] && chords[0] == 0 && forall c :: c in chords ==> c in tf.keys
    requires ct.Valid() && ct.keys == chords
    ensures Setting(ct, mtf)
  {
    assert 0 in chords;
  }
}
