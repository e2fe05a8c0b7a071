/** The riff engine of Riff_Generator.py: the module-level clock `time` and the
    MIDI file `mf` as the fields of a `Score`, the musical building blocks that
    write notes and move the clock on, and `RiffGenerator`, the loop that walks
    the chord and melody matrices and fills the riff one category at a time. */
module Generator {
  import opened Seqs
  import opened Scale
  import opened Markov
  import opened Random
  import opened Settings
  import opened Events

  /** What the engine carries from one iteration to the next: the current
      chord and melody note, the current note length, and the stickiness
      multipliers of the palm-mute, chord and melody categories. */
  datatype Walk = Walk(
    currentChord: int,
    currentNote: int,
    currentNoteLength: real,
    pmCurrent: int,
    chCurrent: int,
    mlCurrent: int)

  /** The state `RiffGenerator` starts from. */
  const Start := Walk(0, 0, 1.0 / 2.0, 1, 1, 1)

  /** The category an iteration plays, or none. */
  datatype Category = PalmMuting | Chords | Melody | Resting | Idle

  /** The most draws one iteration can take (a chord step, three category
      tests and four draws of the chord branch). */
  const MaxDraws := 8

  /** The matrices the engine walks on: both transition matrices, the root a
      key of both, every chord also a melody note, every melody note a scale
      note. */
  ghost predicate Setting(ct: Matrix, mtf: Matrix)
  {
    ct.Valid() && mtf.Valid() && 0 in ct.keys && 0 in mtf.keys &&
    (forall c :: c in ct.keys ==> c in mtf.keys) &&
    (forall n :: n in mtf.keys ==> n in KeyScale)
  }

  /** A walk state whose chord and note are keys of their matrices and whose
      note length is between an eighth and a half note. */
  ghost predicate OnWalk(s: Walk, ct: Matrix, mtf: Matrix)
  {
    ct.Valid() && mtf.Valid() &&
    s.currentChord in ct.keys && s.currentNote in mtf.keys &&
    0.5 <= s.currentNoteLength <= 2.0
  }

  /** The invariant of a riff of `R` beats under construction: the clock is at
      most half a beat past the end, every note fits in the riff and is in key,
      the notes are in order of their start, and none starts after the clock
      (snapped to the half beat). */
  ghost predicate SoundState(time: real, events: seq<Event>, R: nat)
  {
    0.0 <= time <= R as real + 0.5 && Ordered(events) && AllFit(events, R) &&
    forall i :: 0 <= i < |events| ==> events[i].onset <= Snap(time)
  }

  /** The state at the start of a category branch: the clock on a half beat
      before the end and no note starting after it. */
  ghost predicate PoisedState(time: real, events: seq<Event>, R: nat)
  {
    HalfBeat(time) && 0.0 <= time < R as real && Ordered(events) && AllFit(events, R) &&
    forall i :: 0 <= i < |events| ==> events[i].onset <= time
  }

  /** Appending a block of notes that start between the clock and a later half
      beat, then moving the clock to or past that half beat (but no more than
      half a beat past the end), keeps the riff sound. */
  lemma Extend(before: seq<Event>, added: seq<Event>, all: seq<Event>, t: real, to: real, time: real, R: nat)
    requires PoisedState(t, before, R) && all == before + added
    requires Block(added, t, to, R) && t <= to && HalfBeat(to)
    requires to <= time <= R as real + 0.5
    ensures SoundState(time, all, R)
  {
    Join(before, added, t, to, R);
    SnapAtLeast(to, time);
  }

  /** Snapping the clock of a sound riff that has not reached its end leaves it
      poised for the next branch. */
  lemma SnapPoises(time: real, events: seq<Event>, R: nat)
    requires SoundState(time, events, R) && time < R as real
    ensures PoisedState(Snap(time), events, R)
  {
  }

  /** A poised state is sound. */
  lemma PoisedIsSound(time: real, events: seq<Event>, R: nat)
    requires PoisedState(time, events, R)
    ensures SoundState(time, events, R)
  {
    SnapAtLeast(time, time);
  }

  /** A note that is in key and has a third and a fifth, both in key. */
  ghost predicate Voiced(note: int)
  {
    InKey(note) &&
    Harmony(note, 3).Some? && InKey(Harmony(note, 3).value) &&
    Harmony(note, 7).Some? && InKey(Harmony(note, 7).value)
  }

  /** Every scale note is voiced. */
  lemma ScaleNoteVoiced(note: int)
    requires note in KeyScale
    ensures Voiced(note)
  {
    ScaleNotesInKey();
    HarmonyStaysInKey(note);
  }

  /** The clock `t` is off the beat (`time % 1 != 0`). */
  predicate OffBeat(t: real)
  {
    FracPart(t) != 0.0
  }

  /** How far the palm-mute branch moves the clock from `t`: a whole beat on
      the beat, half a beat off it (`time % 1 != 0`). */
  function PalmMuteSpan(offBeat: bool): real
  {
    if offBeat then 0.5 else 1.0
  }

  /** The strokes the palm-mute branch plays at `t` on pitch `p` (`p2` its
      fifth), given the draws that follow the choice of note: off the beat
      `PalmMuteSHORT`, on it `PalmMute`. */
  function PalmMuteStrokes(p: int, p2: int, t: real, offBeat: bool, d: seq<real>): (r: seq<Event>)
    requires |d| >= 3
    ensures |r| >= 2
  {
    if offBeat then
      if d[0] < 0.5 then UpDownShortStrokes(p, t) else PMChordShortStrokes(p, p2, t)
    else if d[0] < 0.25 then GallopStrokes(p, t)
    else if d[1] < 0.25 then RevGallopStrokes(p, t)
    else if d[2] < 0.25 then UpDownStrokes(p, t)
    else DownPMStrokes(p, t)
  }

  /** Whatever the draws, the palm-mute branch's strokes follow the picking
      rule over the span the clock moves by, and (from a half beat before the
      end) fit in the riff: on the beat a whole beat always remains. */
  lemma PalmMuteStrokesFit(note: int, note2: int, t: real, halves: int, offBeat: bool, d: seq<real>, R: nat)
    requires HalfBeat(t) && 0.0 <= t < R as real && |d| >= 3
    requires t == halves as real / 2.0 && offBeat == (halves % 2 == 1)
    requires InKey(note) && InKey(note2)
    ensures PickedPattern(PalmMuteStrokes(Key + note, Key + note2, t, offBeat, d), t, PalmMuteSpan(offBeat))
    ensures Block(PalmMuteStrokes(Key + note, Key + note2, t, offBeat, d), t, t + PalmMuteSpan(offBeat), R)
    ensures HalfBeat(t + PalmMuteSpan(offBeat)) && t + PalmMuteSpan(offBeat) <= R as real
  {
    var p, p2 := Key + note, Key + note2;
    assert p - Key == note && p2 - Key == note2;
    HalfBeatRoom(t, R);
    OffBeatHalves(t, halves);
    PatternsArePicked(p, p2, t);
    PatternBlocks(p, p2, t, R);
  }

  /** The palm-mute branch keeps a poised riff sound. */
  lemma PalmMutedSound(before: seq<Event>, added: seq<Event>, t: real, halves: int, offBeat: bool,
                       note: int, fifth: int, d: seq<real>, events: seq<Event>, time: real, R: nat)
    requires PoisedState(t, before, R) && InKey(note) && InKey(fifth) && |d| >= 3
    requires t == halves as real / 2.0 && offBeat == (halves % 2 == 1)
    requires added == PalmMuteStrokes(Key + note, Key + fifth, t, offBeat, d)
    requires events == before + added && time == t + PalmMuteSpan(offBeat)
    ensures SoundState(time, events, R)
  {
    PalmMuteStrokesFit(note, fifth, t, halves, offBeat, d, R);
    Extend(before, added, events, t, t + PalmMuteSpan(offBeat), time, R);
  }

  /** `np.random.random()` draws of the chord branch's length test: 1/2 beat
      when the first is below `pCH`, 3/2 when the second is, 2 when the third
      is below `pCH / 2`, else 1; with the number of draws taken. */
  function ChordLength(d: seq<real>): (r: (real, nat))
    requires |d| >= 3
    ensures 1 <= r.1 <= 3
    ensures r.0 == 0.5 || r.0 == 1.0 || r.0 == 1.5 || r.0 == 2.0
    ensures r.0 == 0.5 <==> d[0] < PCH
    ensures r.0 == 1.5 <==> !(d[0] < PCH) && d[1] < PCH
    ensures r.0 == 2.0 <==> !(d[0] < PCH) && !(d[1] < PCH) && d[2] < PCH / 2.0
    ensures r.0 == 1.0 <==> !(d[0] < PCH) && !(d[1] < PCH) && !(d[2] < PCH / 2.0)
    ensures r.1 == (if d[0] < PCH then 1 else if d[1] < PCH then 2 else 3)
  {
    if d[0] < PCH then (1.0 / 2.0, 1)
    else if d[1] < PCH then (3.0 / 2.0, 2)
    else if d[2] < PCH / 2.0 then (2.0, 3)
    else (1.0, 3)
  }

  /** What the chord branch writes at `t`: one palm-muted stab, or two half
      a beat apart when the chord lasts a beat or more; or, not muted, the
      note and its harmony ringing for `length` beats. */
  function ChordStrokes(p: int, p2: int, t: real, length: real, muted: bool): (r: seq<Event>)
    ensures |r| >= 2
  {
    if muted then
      if length >= 1.0 then PMChordShortStrokes(p, p2, t) + PMChordShortStrokes(p, p2, t + 0.5)
      else PMChordShortStrokes(p, p2, t)
    else [Event(Track, p, t, length, ChordPick), Event(Track, p2, t, length, ChordPick)]
  }

  /** A chord of at least half a beat that ends by beat `R`, played at a half
      beat on a poised riff, leaves it sound. */
  lemma ChordStrokesSound(before: seq<Event>, added: seq<Event>, t: real, length: real, muted: bool,
                          note: int, harmony: int, events: seq<Event>, time: real, R: nat)
    requires PoisedState(t, before, R) && InKey(note) && InKey(harmony)
    requires 0.5 <= length && t + length <= R as real
    requires added == ChordStrokes(Key + note, Key + harmony, t, length, muted)
    requires events == before + added && time == t + length
    ensures SoundState(time, events, R)
  {
    var p, p2 := Key + note, Key + harmony;
    assert p - Key == note && p2 - Key == harmony;
    HalfBeatNext(t);
    if muted && length >= 1.0 {
      TwoStabsBlock(p, p2, t, R);
      Extend(before, added, events, t, t + 1.0, time, R);
    } else {
      PatternBlocks(p, p2, t, R);
      Extend(before, added, events, t, if muted then t + 0.5 else t, time, R);
    }
  }

  /** `ChordStrokesSound` for a voiced chord and its third or fifth. */
  lemma ChordPlaySound(before: seq<Event>, t: real, length: real, muted: bool,
                       chord: int, interval: int, events: seq<Event>, time: real, R: nat)
    requires PoisedState(t, before, R) && Voiced(chord) && (interval == 3 || interval == 7)
    requires 0.5 <= length && t + length <= R as real
    requires events == before + ChordStrokes(Key + chord, Key + Harmony(chord, interval).value, t, length, muted)
    requires time == t + length
    ensures SoundState(time, events, R)
  {
    var harmony := Harmony(chord, interval).value;
    ChordStrokesSound(before, ChordStrokes(Key + chord, Key + harmony, t, length, muted),
                      t, length, muted, chord, harmony, events, time, R);
  }

  /** Two palm-muted stabs half a beat apart, with a beat left before `R`. */
  lemma TwoStabsBlock(p: int, p2: int, t: real, R: nat)
    requires 0.0 <= t && t + 1.0 <= R as real && InKey(p - Key) && InKey(p2 - Key)
    ensures Block(PMChordShortStrokes(p, p2, t) + PMChordShortStrokes(p, p2, t + 0.5), t, t + 1.0, R)
  {
    PatternBlocks(p, p2, t, R);
    PatternBlocks(p, p2, t + 0.5, R);
    Join([], PMChordShortStrokes(p, p2, t), t, t + 0.5, R);
    assert [] + PMChordShortStrokes(p, p2, t) == PMChordShortStrokes(p, p2, t);
    Join(PMChordShortStrokes(p, p2, t), PMChordShortStrokes(p, p2, t + 0.5), t + 0.5, t + 1.0, R);
  }

  /** The melody branch's length rule: double or halve the note length, then
      replace a length above 2 beats or below half a beat by one beat. The
      result is always between half a beat and 2 beats, and a length already
      in range that is neither doubled nor halved is kept. */
  function NoteLength(length: real, double: bool, halve: bool): (r: real)
    ensures 0.5 <= r <= 2.0
    ensures !double && !halve && 0.5 <= length <= 2.0 ==> r == length
    ensures double && 0.25 <= length <= 1.0 ==> r == 2.0 * length
    ensures !double && halve && 1.0 <= length <= 4.0 ==> r == length / 2.0
    ensures double && (length > 1.0 || length < 0.25) ==> r == 1.0
    ensures !double && halve && (length > 4.0 || length < 1.0) ==> r == 1.0
    ensures !double && !halve && !(0.5 <= length <= 2.0) ==> r == 1.0
  {
    var l := if double then length * 2.0 else if halve then length / 2.0 else length;
    if l > 2.0 then 1.0 else if l < 1.0 / 2.0 then 1.0 else l
  }

  /** A two-beat note doubled is not four beats but one; halving or keeping
      it keeps a length in range. */
  lemma DoubledLongNote(halve: bool)
    ensures NoteLength(2.0, true, halve) == 1.0
    ensures NoteLength(2.0, false, true) == 1.0 && NoteLength(2.0, false, false) == 2.0
  {
  }

  /** `length` cut back so as not to run past beat `R` from `t`. */
  function Clip(length: real, t: real, R: nat): (r: real)
    ensures r <= length && r <= R as real - t
    ensures r == length || r == R as real - t
  {
    if length > R as real - t then R as real - t else length
  }

  /** Which category the draws `d` select: palm muting when the first is
      below its priority times its stickiness, else chords on the second,
      else melody on the third, else rest when the fourth is below the rest
      priority (rest has no stickiness), else none. */
  function Dispatch(pr: Priorities, pm: int, ch: int, ml: int, d: seq<real>): (c: Category)
    requires |d| >= 4
    ensures c == PalmMuting <==> d[0] < pr.pm * pm as real
    ensures c == Chords <==> !(d[0] < pr.pm * pm as real) && d[1] < pr.ch * ch as real
    ensures c == Melody <==>
      !(d[0] < pr.pm * pm as real) && !(d[1] < pr.ch * ch as real) && d[2] < pr.ml * ml as real
    ensures c == Resting <==>
      !(d[0] < pr.pm * pm as real) && !(d[1] < pr.ch * ch as real) && !(d[2] < pr.ml * ml as real) &&
      d[3] < pr.rs
    ensures c == Idle <==>
      !(d[0] < pr.pm * pm as real) && !(d[1] < pr.ch * ch as real) && !(d[2] < pr.ml * ml as real) &&
      !(d[3] < pr.rs)
  {
    if d[0] < pr.pm * pm as real then PalmMuting
    else if d[1] < pr.ch * ch as real then Chords
    else if d[2] < pr.ml * ml as real then Melody
    else if d[3] < pr.rs then Resting
    else Idle
  }

  /** How many category tests were drawn before `c` was settled. */
  function Tests(c: Category): nat
  {
    match c
    case PalmMuting => 1
    case Chords => 2
    case Melody => 3
    case Resting => 4
    case Idle => 4
  }

  /** What a pass that fired category `c` did, from walk `s` and clock `t`
      with notes `before` to walk `s'` and clock `time` with notes `events`:
      the notes only grow; the clock moves on by at least half a beat unless
      nothing fired; the stickiness favours the category that fired; the
      chord branch and the melody branch set the note length and move the
      clock on by it; the melody branch adds exactly its one note, the rest
      branch none; an idle pass changes nothing. */
  ghost predicate Moved(c: Category, s: Walk, s': Walk, t: real, time: real,
                        before: seq<Event>, events: seq<Event>)
  {
    |before| <= |events| && events[..|before|] == before &&
    s'.currentChord == s.currentChord &&
    match c
    case PalmMuting =>
      s' == s.(pmCurrent := 2, chCurrent := 1, mlCurrent := 1) &&
      |events| > |before| && time >= t + 0.5
    case Chords =>
      s' == s.(currentNoteLength := s'.currentNoteLength, pmCurrent := 1, chCurrent := 2, mlCurrent := 1) &&
      time == t + s'.currentNoteLength && |events| > |before|
    case Melody =>
      s' == s.(currentNote := s'.currentNote, currentNoteLength := s'.currentNoteLength,
               pmCurrent := 1, chCurrent := 1, mlCurrent := 4) &&
      time == t + s'.currentNoteLength &&
      events == before + [Event(Track, Key + s'.currentNote, t, s'.currentNoteLength, ChordPick)]
    case Resting =>
      s' == s.(pmCurrent := 1, chCurrent := 1, mlCurrent := 1) && events == before &&
      (time == t + 0.5 || time == t + 1.0)
    case Idle =>
      s' == s && time == t && events == before
  }

  /** A pass that fired a category moved the snapped clock on by at least
      half a beat (the note length it sets is never below half a beat); a pass
      that fired nothing left it where it was. */
  lemma ClockAdvances(c: Category, s: Walk, s': Walk, t: real, time: real,
                      before: seq<Event>, events: seq<Event>)
    requires Moved(c, s, s', t, time, before, events) && 0.5 <= s'.currentNoteLength
    ensures c != Idle <==> time >= t + 0.5
  {
  }

  /** Halving a 3/2-beat note makes a 3/4-beat melody note; the next snap then
      moves the clock back a quarter beat, so the next pass starts before that
      note ends. */
  lemma QuarterRewind(t: real)
    requires HalfBeat(t) && 0.0 <= t
    ensures NoteLength(1.5, false, true) == 0.75
    ensures Snap(t + 0.75) == t + 0.5 < t + 0.75
  {
    var k := HalfBeatHalves(t);
    assert 2.0 * (t + 0.75) == (k + 1) as real + 0.5;
    assert (2.0 * (t + 0.75)).Floor == k + 1;
  }

  /** Where the engine stands between two steps: the walk, the clock, the notes
      written so far and the draws not yet used. */
  datatype Snapshot = Snapshot(walk: Walk, time: real, events: seq<Event>, draws: seq<real>)

  /** `r` comes after clock `t`, notes `before` and draws `d`: the notes only
      grow, the clock has not gone back, and the stream has only been used
      up from the front. */
  ghost predicate Follows(t: real, before: seq<Event>, d: seq<real>, r: Snapshot)
  {
    before <= r.events && t <= r.time && Suffix(r.draws, d) && (InUnit(d) ==> InUnit(r.draws))
  }

  /** The draws the palm-mute pattern takes after the choice of note: one off
      the beat; on it, one test per pattern up to the first draw below 1/4,
      at most three. */
  function PalmMuteDraws(offBeat: bool, d: seq<real>): (n: nat)
    requires |d| >= 3
    ensures 1 <= n <= 3
    ensures n == 1 <==> offBeat || d[0] < 0.25
  {
    if offBeat || d[0] < 0.25 then 1 else if d[1] < 0.25 then 2 else 3
  }

  /** The note the palm-mute branch plays: the chord's note when the draw
      `u` is above `pPM`, else the root. */
  function PalmMuteNote(chord: int, u: real): (note: int)
    ensures note == chord || note == KeyScale[0]
  {
    if u > PPM then chord else 0
  }

  /** The strokes of the palm-mute branch on scale note `note`, with its
      fifth. */
  function PalmMuteEvents(note: int, t: real, offBeat: bool, d: seq<real>): (r: seq<Event>)
    requires note in KeyScale && |d| >= 3
    ensures |r| >= 2
  {
    PalmMuteStrokes(Key + note, Key + Harmony(note, 7).value, t, offBeat, d)
  }

  /** The palm-mute branch from walk `s`, the poised clock `t` and the notes
      `before`, on the draws `d` left after the category tests: the chord's
      note or the root, then the pattern for the beat, with the fifth. */
  function PalmMuteOutcome(s: Walk, t: real, before: seq<Event>, d: seq<real>): (r: Snapshot)
    requires s.currentChord in KeyScale && |d| >= 4
    ensures Follows(t, before, d, r) && |r.draws| <= |d| - 2
    ensures |r.events| > |before| && r.time >= t + 0.5
  {
    var note := PalmMuteNote(s.currentChord, d[0]);
    var offBeat := OffBeat(t);
    Snapshot(s.(pmCurrent := 2, chCurrent := 1, mlCurrent := 1), t + PalmMuteSpan(offBeat),
             before + PalmMuteEvents(note, t, offBeat, d[1..]), d[1 + PalmMuteDraws(offBeat, d[1..])..])
  }

  /** What the palm-mute branch method establishes is its outcome. */
  lemma PalmMuteMeets(s: Walk, t: real, before: seq<Event>, d: seq<real>, note: int, offBeat: bool,
                      events: seq<Event>, rest: seq<real>)
    requires s.currentChord in KeyScale && |d| >= 4
    requires note == PalmMuteNote(s.currentChord, d[0]) && offBeat == OffBeat(t) && Harmony(note, 7).Some?
    requires events == before + PalmMuteStrokes(Key + note, Key + Harmony(note, 7).value, t, offBeat, d[1..])
    ensures note in KeyScale
    requires rest == d[1 + PalmMuteDraws(offBeat, d[1..])..]
    ensures PalmMuteOutcome(s, t, before, d) ==
      Snapshot(s.(pmCurrent := 2, chCurrent := 1, mlCurrent := 1), t + PalmMuteSpan(offBeat), events, rest)
  {
    assert events == before + PalmMuteEvents(note, t, offBeat, d[1..]);
    var r := PalmMuteOutcome(s, t, before, d);
    assert r.events == events && r.draws == rest;
  }

  /** The chord branch from a poised clock `t` before beat `R`: the chord
      length from the draws, cut back to the end, a third or a fifth, then
      palm-muted stabs or the chord ringing. */
  function ChordOutcome(R: nat, s: Walk, t: real, before: seq<Event>, d: seq<real>): (r: Snapshot)
    requires s.currentChord in KeyScale && |d| >= 5
    requires HalfBeat(t) && t < R as real
    ensures Follows(t, before, d, r) && |r.draws| <= |d| - 3
    ensures |r.events| > |before| && r.time >= t + 0.5 && r.time <= R as real
    ensures 0.5 <= r.walk.currentNoteLength <= 2.0
  {
    RoomLeft(t, R);
    var k := ChordLength(d).1;
    var length := Clip(ChordLength(d).0, t, R);
    Snapshot(s.(currentNoteLength := length, pmCurrent := 1, chCurrent := 2, mlCurrent := 1), t + length,
             before + ChordEvents(s.currentChord, ChordInterval(d[k]), t, length, d[k + 1] < PCH),
             d[k + 2..])
  }

  /** The chord's harmony: a third on a draw below `pCH`, else a fifth. */
  function ChordInterval(u: real): (interval: int)
    ensures interval == 3 || interval == 7
  {
    if u < PCH then 3 else 7
  }

  /** The notes the chord branch writes for `chord` and its harmony at `interval`. */
  function ChordEvents(chord: int, interval: int, t: real, length: real, muted: bool): (r: seq<Event>)
    requires chord in KeyScale && (interval == 3 || interval == 7)
    ensures |r| >= 2
  {
    ChordStrokes(Key + chord, Key + Harmony(chord, interval).value, t, length, muted)
  }

  /** What the chord branch method establishes is its outcome. */
  lemma ChordMeets(R: nat, s: Walk, t: real, before: seq<Event>, d: seq<real>, length: real, interval: int,
                   muted: bool, events: seq<Event>, rest: seq<real>)
    requires s.currentChord in KeyScale && |d| >= 5
    requires HalfBeat(t) && t < R as real
    requires var k := ChordLength(d).1;
      length == Clip(ChordLength(d).0, t, R) && interval == ChordInterval(d[k]) &&
      muted == (d[k + 1] < PCH) && rest == d[k + 2..]
    requires events == before + ChordEvents(s.currentChord, interval, t, length, muted)
    ensures ChordOutcome(R, s, t, before, d) ==
      Snapshot(s.(currentNoteLength := length, pmCurrent := 1, chCurrent := 2, mlCurrent := 1), t + length, events, rest)
  {
    var r := ChordOutcome(R, s, t, before, d);
    assert r.events == events && r.draws == rest;
  }

  /** The melody branch from a poised clock `t` before beat `R`: the note it
      steps from, the length doubled, halved or kept, brought into range and
      cut back to the end, then the next note drawn from the melody matrix. */
  function MelodyOutcome(R: nat, mtf: Matrix, s: Walk, t: real, before: seq<Event>, d: seq<real>): (r: Snapshot)
    requires mtf.Valid() && s.currentChord in mtf.keys && s.currentNote in mtf.keys
    requires |d| >= 4 && InUnit(d) && HalfBeat(t) && t < R as real
    ensures Follows(t, before, d, r) && |r.draws| <= |d| - 3
    ensures |r.events| == |before| + 1 && r.time >= t + 0.5 && r.time <= R as real
    ensures r.walk.currentNote in mtf.keys && 0.5 <= r.walk.currentNoteLength <= 2.0
  {
    RoomLeft(t, R);
    var from := if d[0] < PN then s.currentChord else s.currentNote;
    var double := d[1] < PN;
    var halve := !double && d[2] < PN * 2.0;
    var j := if double then 2 else 3;
    var length := Clip(NoteLength(s.currentNoteLength, double, halve), t, R);
    var note := mtf.keys[Pick(mtf.Row(from), d[j])];
    Snapshot(s.(currentNote := note, currentNoteLength := length, pmCurrent := 1, chCurrent := 1, mlCurrent := 4),
             t + length, before + [Event(Track, Key + note, t, length, ChordPick)], d[j + 1..])
  }

  /** What the melody branch method establishes is its outcome. */
  lemma MelodyMeets(R: nat, mtf: Matrix, s: Walk, t: real, before: seq<Event>, d: seq<real>, note: int,
                    length: real, events: seq<Event>, rest: seq<real>)
    requires mtf.Valid() && s.currentChord in mtf.keys && s.currentNote in mtf.keys
    requires |d| >= 4 && InUnit(d) && HalfBeat(t) && t < R as real
    requires var from := if d[0] < PN then s.currentChord else s.currentNote;
      var double := d[1] < PN;
      var halve := !double && d[2] < PN * 2.0;
      var j := if double then 2 else 3;
      length == Clip(NoteLength(s.currentNoteLength, double, halve), t, R) &&
      note == mtf.keys[Pick(mtf.Row(from), d[j])] && rest == d[j + 1..]
    requires events == before + [Event(Track, Key + note, t, length, ChordPick)]
    ensures MelodyOutcome(R, mtf, s, t, before, d) ==
      Snapshot(s.(currentNote := note, currentNoteLength := length, pmCurrent := 1, chCurrent := 1, mlCurrent := 4),
               t + length, events, rest)
  {
    var r := MelodyOutcome(R, mtf, s, t, before, d);
    assert r.events == events && r.draws == rest;
  }

  /** The rest branch: half a beat or a whole one, even odds. */
  function RestOutcome(s: Walk, t: real, before: seq<Event>, d: seq<real>): (r: Snapshot)
    requires d != []
    ensures Follows(t, before, d, r) && |r.draws| == |d| - 1
    ensures r.events == before && r.time >= t + 0.5
  {
    Snapshot(s.(pmCurrent := 1, chCurrent := 1, mlCurrent := 1), t + (if d[0] < 0.5 then 0.5 else 1.0),
             before, d[1..])
  }

  /** The branch of category `c` on the draws `d` left after its tests; a
      pass that fires nothing leaves everything where it was. Only an idle
      pass leaves the clock where it was; the chord never changes here. */
  function Branch(c: Category, R: nat, mtf: Matrix, s: Walk, t: real, before: seq<Event>, d: seq<real>): (r: Snapshot)
    requires mtf.Valid() && s.currentChord in mtf.keys && s.currentNote in mtf.keys && s.currentChord in KeyScale
    requires 0.5 <= s.currentNoteLength <= 2.0
    requires |d| >= MaxDraws - 1 - Tests(c) && InUnit(d) && HalfBeat(t) && t < R as real
    ensures Follows(t, before, d, r)
    ensures c == Idle <==> r == Snapshot(s, t, before, d)
    ensures c != Idle <==> t + 0.5 <= r.time
    ensures r.walk.currentChord == s.currentChord
    ensures r.walk.currentNote in mtf.keys && 0.5 <= r.walk.currentNoteLength <= 2.0
  {
    match c
    case PalmMuting => PalmMuteOutcome(s, t, before, d)
    case Chords => ChordOutcome(R, s, t, before, d)
    case Melody => MelodyOutcome(R, mtf, s, t, before, d)
    case Resting => RestOutcome(s, t, before, d)
    case Idle => Snapshot(s, t, before, d)
  }

  /** Every branch outcome is a move of its category: the summary that the
      branch methods promise holds of the outcomes themselves. */
  lemma BranchMoved(c: Category, R: nat, mtf: Matrix, s: Walk, t: real, before: seq<Event>, d: seq<real>)
    requires mtf.Valid() && s.currentChord in mtf.keys && s.currentNote in mtf.keys && s.currentChord in KeyScale
    requires 0.5 <= s.currentNoteLength <= 2.0
    requires |d| >= MaxDraws - 1 - Tests(c) && InUnit(d) && HalfBeat(t) && t < R as real
    ensures var r := Branch(c, R, mtf, s, t, before, d);
      Moved(c, s, r.walk, t, r.time, before, r.events)
  {
  }

  /** A pass once the chord has been stepped: snap the clock, run the category
      tests, and play the branch of the category they select. */
  function PassOutcome(R: nat, mtf: Matrix, pr: Priorities, s: Walk, time: real, before: seq<Event>,
                       d: seq<real>): (r: Snapshot)
    requires mtf.Valid() && s.currentChord in mtf.keys && s.currentNote in mtf.keys && s.currentChord in KeyScale
    requires 0.5 <= s.currentNoteLength <= 2.0
    requires |d| >= MaxDraws - 1 && InUnit(d) && 0.0 <= time < R as real
    ensures Follows(Snap(time), before, d, r) && |r.draws| < |d|
    ensures r.walk.currentChord == s.currentChord
    ensures r.walk.currentNote in mtf.keys && 0.5 <= r.walk.currentNoteLength <= 2.0
  {
    var c := Dispatch(pr, s.pmCurrent, s.chCurrent, s.mlCurrent, d);
    var rest := d[Tests(c)..];
    var r := Branch(c, R, mtf, s, Snap(time), before, rest);
    SuffixTransitive(r.draws, rest, d);
    r
  }

  /** One pass of `RiffGenerator`'s loop from snapshot `a`: step the chord
      matrix on the first draw, then the rest of the pass. */
  function IterationOutcome(R: nat, ct: Matrix, mtf: Matrix, pr: Priorities, a: Snapshot): (r: Snapshot)
    requires Setting(ct, mtf) && OnWalk(a.walk, ct, mtf)
    requires |a.draws| >= MaxDraws && InUnit(a.draws) && 0.0 <= a.time < R as real
    ensures OnWalk(r.walk, ct, mtf) && Follows(Snap(a.time), a.events, a.draws, r) && |r.draws| < |a.draws|
  {
    var chord := ct.keys[Pick(ct.Row(a.walk.currentChord), a.draws[0])];
    var rest := a.draws[1..];
    var r := PassOutcome(R, mtf, pr, a.walk.(currentChord := chord), a.time, a.events, rest);
    SuffixTransitive(r.draws, rest, a.draws);
    r
  }

  /** `RiffGenerator`'s loop as a function of where it starts: pass after
      pass while the clock is before beat `R` and the stream holds the draws
      of a whole pass. It stops at or past the end or short of draws, having
      only added notes and used draws from the front. */
  function Run(R: nat, ct: Matrix, mtf: Matrix, pr: Priorities, a: Snapshot): (r: Snapshot)
    requires Setting(ct, mtf) && OnWalk(a.walk, ct, mtf) && InUnit(a.draws) && 0.0 <= a.time
    ensures OnWalk(r.walk, ct, mtf) && 0.0 <= r.time
    ensures R as real <= r.time || |r.draws| < MaxDraws
    ensures a.events <= r.events && Suffix(r.draws, a.draws)
    decreases |a.draws|
  {
    if a.time < R as real && |a.draws| >= MaxDraws then
      var b := IterationOutcome(R, ct, mtf, pr, a);
      var r := Run(R, ct, mtf, pr, b);
      SuffixTransitive(r.draws, b.draws, a.draws);
      r
    else
      a
  }

  /** While the clock is before the end and a pass's draws remain, the run
      goes on from the outcome of one more pass. */
  lemma RunStep(R: nat, ct: Matrix, mtf: Matrix, pr: Priorities, a: Snapshot)
    requires Setting(ct, mtf) && OnWalk(a.walk, ct, mtf) && InUnit(a.draws) && 0.0 <= a.time
    requires a.time < R as real && |a.draws| >= MaxDraws
    ensures Run(R, ct, mtf, pr, a) == Run(R, ct, mtf, pr, IterationOutcome(R, ct, mtf, pr, a))
  {
  }

  /** Once the clock reaches the end or the draws run short, the run is
      over. */
  lemma RunStops(R: nat, ct: Matrix, mtf: Matrix, pr: Priorities, a: Snapshot)
    requires Setting(ct, mtf) && OnWalk(a.walk, ct, mtf) && InUnit(a.draws) && 0.0 <= a.time
    requires R as real <= a.time || |a.draws| < MaxDraws
    ensures Run(R, ct, mtf, pr, a) == a
  {
  }

  /** The MIDI file being written and the clock that says where the next note
      goes. */
  class Score {
    var time: real
    var events: seq<Event>

    /** `CreateMIDIFile`: an empty file, the clock at the beginning. */
    constructor ()
      ensures time == 0.0 && events == []
    {
      time := 0.0;
      events := [];
    }

    ghost predicate Sound(R: nat)
      reads this
    {
      SoundState(time, events, R)
    }

    ghost predicate Poised(R: nat)
      reads this
    {
      PoisedState(time, events, R)
    }

    /** `mf.addNote`. */
    method AddNote(track: int, pitch: int, onset: real, duration: real, velocity: int)
      modifies this
      ensures events == old(events) + [Event(track, pitch, onset, duration, velocity)]
      ensures time == old(time)
    {
      events := events + [Event(track, pitch, onset, duration, velocity)];
    }

    /** `Chord`: the note and its harmony `interval` above, struck together
        for `length` beats. */
    method Chord(note: int, interval: int, length: real)
      requires Harmony(note, interval).Some?
      modifies this
      ensures events == old(events) + [
        Event(Track, Key + note, old(time), length, ChordPick),
        Event(Track, Key + Harmony(note, interval).value, old(time), length, ChordPick)]
      ensures time == old(time) + length
    {
      var pitch := Key + note;
      var pitch2 := Key + Harmony(note, interval).value;
      AddNote(Track, pitch, time, length, ChordPick);
      AddNote(Track, pitch2, time, length, ChordPick);
      time := time + length;
    }

    /** `Note`: a single note for `length` beats. */
    method Note(note: int, length: real)
      modifies this
      ensures events == old(events) + [Event(Track, Key + note, old(time), length, ChordPick)]
      ensures time == old(time) + length
    {
      AddNote(Track, Key + note, time, length, ChordPick);
      time := time + length;
    }

    /** `Rest`: silence for `length` beats. */
    method Rest(length: real)
      modifies this
      ensures events == old(events) && time == old(time) + length
    {
      time := time + length;
    }

    method DownPM(note: int)
      modifies this
      ensures events == old(events) + DownPMStrokes(Key + note, old(time))
      ensures time == old(time) + 1.0
    {
      var pitch := Key + note;
      AddNote(PMTrack, pitch, time, Djent, DownPick);
      AddNote(PMTrack, pitch, time + 2.0 / 4.0, Djent, DownPick);
      time := time + 1.0;
    }

    method UpDown(note: int)
      modifies this
      ensures events == old(events) + UpDownStrokes(Key + note, old(time))
      ensures time == old(time) + 1.0
    {
      var pitch := Key + note;
      AddNote(PMTrack, pitch, time, Djent, DownPick);
      AddNote(PMTrack, pitch, time + 1.0 / 4.0, Djent, UpPick);
      AddNote(PMTrack, pitch, time + 2.0 / 4.0, Djent, DownPick);
      AddNote(PMTrack, pitch, time + 3.0 / 4.0, Djent, UpPick);
      time := time + 1.0;
    }

    method Gallop(note: int)
      modifies this
      ensures events == old(events) + GallopStrokes(Key + note, old(time))
      ensures time == old(time) + 1.0
    {
      var pitch := Key + note;
      AddNote(PMTrack, pitch, time, Djent, DownPick);
      AddNote(PMTrack, pitch, time + 2.0 / 4.0, Djent, DownPick);
      AddNote(PMTrack, pitch, time + 3.0 / 4.0, Djent, UpPick);
      time := time + 1.0;
    }

    method RevGallop(note: int)
      modifies this
      ensures events == old(events) + RevGallopStrokes(Key + note, old(time))
      ensures time == old(time) + 1.0
    {
      var pitch := Key + note;
      AddNote(PMTrack, pitch, time, Djent, DownPick);
      AddNote(PMTrack, pitch, time + 1.0 / 4.0, Djent, UpPick);
      AddNote(PMTrack, pitch, time + 2.0 / 4.0, Djent, DownPick);
      time := time + 1.0;
    }

    /** `PalmMute`: a gallop, a reverse gallop or alternate picking, each
        chosen by a draw below 1/4 in turn, else plain down-picking. */
    method PalmMute(note: int, rng: Rng)
      requires rng.Valid() && |rng.draws| >= 3
      modifies this, rng
      ensures rng.Valid() && time == old(time) + 1.0
      ensures var d, p, t := old(rng.draws), Key + note, old(time);
        if d[0] < 0.25 then events == old(events) + GallopStrokes(p, t) && rng.draws == d[1..]
        else if d[1] < 0.25 then events == old(events) + RevGallopStrokes(p, t) && rng.draws == d[2..]
        else if d[2] < 0.25 then events == old(events) + UpDownStrokes(p, t) && rng.draws == d[3..]
        else events == old(events) + DownPMStrokes(p, t) && rng.draws == d[3..]
    {
      var u := rng.Random();
      if u < 0.25 {
        Gallop(note);
      } else {
        u := rng.Random();
        if u < 0.25 {
          RevGallop(note);
        } else {
          u := rng.Random();
          if u < 0.25 {
            UpDown(note);
          } else {
            DownPM(note);
          }
        }
      }
    }

    method UpDownShort(note: int)
      modifies this
      ensures events == old(events) + UpDownShortStrokes(Key + note, old(time))
      ensures time == old(time) + 0.5
    {
      var pitch := Key + note;
      AddNote(PMTrack, pitch, time, Djent, DownPick);
      AddNote(PMTrack, pitch, time + 1.0 / 4.0, Djent, UpPick);
      time := time + 1.0 / 2.0;
    }

    method PMChordShort(note: int, interval: int)
      requires Harmony(note, interval).Some?
      modifies this
      ensures events == old(events) +
        PMChordShortStrokes(Key + note, Key + Harmony(note, interval).value, old(time))
      ensures time == old(time) + 0.5
    {
      var pitch := Key + note;
      var pitch2 := Key + Harmony(note, interval).value;
      AddNote(PMTrack, pitch, time, Djent, DownPick);
      AddNote(PMTrack, pitch2, time, Djent, DownPick);
      time := time + 1.0 / 2.0;
    }

    /** `PalmMuteSHORT`: half a beat of alternate picking or a palm-muted
        chord, even odds. */
    method PalmMuteShort(note: int, interval: int, rng: Rng)
      requires Harmony(note, interval).Some?
      requires rng.Valid() && rng.draws != []
      modifies this, rng
      ensures rng.Valid() && rng.draws == old(rng.draws[1..])
      ensures time == old(time) + 0.5
      ensures events == old(events) +
        if old(rng.draws[0]) < 0.5 then UpDownShortStrokes(Key + note, old(time))
        else PMChordShortStrokes(Key + note, Key + Harmony(note, interval).value, old(time))
    {
      var u := rng.Random();
      if u < 0.5 {
        UpDownShort(note);
      } else {
        PMChordShort(note, interval);
      }
    }

    /** Half a beat of palm muting off the beat, a whole beat on it, with the
        fifth as the harmony. */
    method PalmMuteOnOrOffBeat(R: nat, note: int, ghost halves: int, rng: Rng) returns (offBeat: bool)
      requires Poised(R) && time == halves as real / 2.0 && Voiced(note)
      requires rng.Valid() && |rng.draws| >= 3
      modifies this, rng
      ensures Sound(R) && rng.Valid()
      ensures offBeat == OffBeat(old(time)) && offBeat == (halves % 2 == 1)
      ensures rng.draws == old(rng.draws)[PalmMuteDraws(offBeat, old(rng.draws))..]
      ensures time == old(time) + PalmMuteSpan(offBeat)
      ensures events == old(events) + PalmMuteStrokes(
        Key + note, Key + Harmony(note, 7).value, old(time), offBeat, old(rng.draws))
    {
      ghost var t, before, d := time, events, rng.draws;
      offBeat := OffBeat(time);
      OffBeatHalves(time, halves);
      if offBeat {
        PalmMuteShort(note, 7, rng);
      } else {
        PalmMute(note, rng);
      }
      ghost var fifth := Harmony(note, 7).value;
      ghost var added := PalmMuteStrokes(Key + note, Key + fifth, t, offBeat, d);
      PalmMutedSound(before, added, t, halves, offBeat, note, fifth, d, events, time, R);
    }

    /** The palm-mute branch: the chord's note or the root (even odds), then a
        whole-beat pattern on the beat or a half-beat one off it, with the
        fifth (`currentInterval` is 7 at the top of every iteration). */
    method PalmMuteBranch(R: nat, ghost halves: int, s: Walk, rng: Rng)
      returns (s': Walk, palmMuteNote: int, offBeat: bool)
      requires Poised(R) && time == halves as real / 2.0 && Voiced(s.currentChord)
      requires rng.Valid() && |rng.draws| >= 4
      modifies this, rng
      ensures Sound(R) && rng.Valid()
      ensures Moved(PalmMuting, s, s', old(time), time, old(events), events)
      ensures |old(rng.draws)| - 4 <= |rng.draws| <= |old(rng.draws)| - 2
      ensures palmMuteNote == PalmMuteNote(s.currentChord, old(rng.draws[0]))
      ensures Harmony(palmMuteNote, 7).Some?
      ensures offBeat == (halves % 2 == 1)
      ensures time == old(time) + PalmMuteSpan(offBeat)
      ensures events == old(events) + PalmMuteStrokes(
        Key + palmMuteNote, Key + Harmony(palmMuteNote, 7).value, old(time), offBeat, old(rng.draws)[1..])
      ensures Snapshot(s', time, events, rng.draws) == PalmMuteOutcome(s, old(time), old(events), old(rng.draws))
    {
      ghost var t, before, d := time, events, rng.draws;
      var u := rng.Random();
      palmMuteNote := PalmMuteNote(s.currentChord, u);
      assert Voiced(palmMuteNote) by {
        if palmMuteNote == 0 {
          assert KeyScale[0] == 0;
          ScaleNoteVoiced(0);
        }
      }
      offBeat := PalmMuteOnOrOffBeat(R, palmMuteNote, halves, rng);
      s' := s.(pmCurrent := 2, chCurrent := 1, mlCurrent := 1);
      assert rng.draws == d[1 + PalmMuteDraws(offBeat, d[1..])..];
      PalmMuteMeets(s, t, before, d, palmMuteNote, offBeat, events, rng.draws);
    }

    /** The chord branch: a chord length from the draws, cut back so as not
        to run past the end; a third (odds `pCH`) or a fifth; then either the
        chord ringing for that length or (odds `pCH`) one or two palm-muted
        stabs, the clock still moving on by the whole length. */
    method ChordBranch(R: nat, s: Walk, ghost t: real, ghost before: seq<Event>, rng: Rng)
      returns (s': Walk, length: real, interval: int, muted: bool)
      requires time == t && events == before && PoisedState(t, before, R) && Voiced(s.currentChord)
      requires rng.Valid() && |rng.draws| >= 5
      modifies this, rng
      ensures Sound(R) && rng.Valid()
      ensures s'.currentNoteLength == length
      ensures Moved(Chords, s, s', t, time, before, events)
      ensures 0.5 <= length <= 2.0 && time == t + length
      ensures var d := old(rng.draws);
        var k := ChordLength(d).1;
        length == Clip(ChordLength(d).0, t, R) &&
        interval == ChordInterval(d[k]) &&
        muted == (d[k + 1] < PCH) &&
        rng.draws == d[k + 2..]
      ensures Snapshot(s', time, events, rng.draws) == ChordOutcome(R, s, t, before, old(rng.draws))
    {
      ghost var d := rng.draws;
      length, interval, muted := ChordDraws(R, time, rng);
      ChordPlay(R, s.currentChord, interval, length, muted, t, before);
      s' := s.(currentNoteLength := length, pmCurrent := 1, chCurrent := 2, mlCurrent := 1);
      ChordMeets(R, s, t, before, d, length, interval, muted, events, rng.draws);
    }

    /** The chord branch's draws before it plays: the chord length, cut back
        so as not to run past beat `R` from `t`, then a third (odds `pCH`) or
        a fifth, then palm-muted stabs (odds `pCH`) or a ringing chord. */
    method ChordDraws(R: nat, t: real, rng: Rng) returns (length: real, interval: int, muted: bool)
      requires HalfBeat(t) && 0.0 <= t < R as real
      requires rng.Valid() && |rng.draws| >= 5
      modifies rng
      ensures rng.Valid()
      ensures 0.5 <= length <= 2.0 && t + length <= R as real
      ensures var d := old(rng.draws);
        var k := ChordLength(d).1;
        length == Clip(ChordLength(d).0, t, R) &&
        interval == ChordInterval(d[k]) &&
        muted == (d[k + 1] < PCH) &&
        rng.draws == d[k + 2..]
    {
      ghost var d := rng.draws;
      length := ChordLengthDraw(rng);
      ghost var k := ChordLength(d).1;
      if length > R as real - t {
        RoomLeft(t, R);
        length := R as real - t;
      }
      var u := rng.Random();
      assert u == d[k];
      if u < PCH {
        interval := 3;
      } else {
        interval := 7;
      }
      u := rng.Random();
      muted := u < PCH;
    }

    /** The chord length test of the chord branch, on its own draws. */
    method ChordLengthDraw(rng: Rng) returns (length: real)
      requires rng.Valid() && |rng.draws| >= 3
      modifies rng
      ensures rng.Valid()
      ensures var d := old(rng.draws);
        length == ChordLength(d).0 && rng.draws == d[ChordLength(d).1..]
    {
      var u := rng.Random();
      if u < PCH {
        length := 1.0 / 2.0;
      } else {
        u := rng.Random();
        if u < PCH {
          length := 3.0 / 2.0;
        } else {
          u := rng.Random();
          if u < PCH / 2.0 {
            length := 2.0;
          } else {
            length := 1.0;
          }
        }
      }
    }

    /** The chord branch once its draws are made: when muted, one palm-muted
        stab, or two when the chord lasts a beat or more, with the clock still
        moving on by the whole length; otherwise the chord ringing for its
        length. */
    method ChordPlay(R: nat, chord: int, interval: int, length: real, muted: bool,
                     ghost t: real, ghost before: seq<Event>)
      requires time == t && events == before && PoisedState(t, before, R)
      requires Voiced(chord) && (interval == 3 || interval == 7)
      requires 0.5 <= length && t + length <= R as real
      modifies this
      ensures Sound(R)
      ensures time == t + length
      ensures events == before + ChordEvents(chord, interval, t, length, muted)
    {
      if muted {
        MutedStabs(chord, interval, length);
      } else {
        RingingChord(chord, interval, length);
      }
      ChordPlaySound(before, t, length, muted, chord, interval, events, time, R);
    }

    /** One palm-muted stab, or two when the chord lasts a beat or more; the
        clock moves on by the whole length. */
    method MutedStabs(chord: int, interval: int, length: real)
      requires Harmony(chord, interval).Some?
      modifies this
      ensures time == old(time) + length
      ensures events == old(events) + ChordStrokes(
        Key + chord, Key + Harmony(chord, interval).value, old(time), length, true)
    {
      PMChordShort(chord, interval);
      if length >= 1.0 {
        PMChordShort(chord, interval);
        time := time + length - 1.0;
      } else {
        time := time + length - 1.0 / 2.0;
      }
    }

    /** The chord ringing for its length. */
    method RingingChord(chord: int, interval: int, length: real)
      requires Harmony(chord, interval).Some?
      modifies this
      ensures time == old(time) + length
      ensures events == old(events) + ChordStrokes(
        Key + chord, Key + Harmony(chord, interval).value, old(time), length, false)
    {
      Chord(chord, interval, length);
    }

    /** The melody branch: maybe go back to the chord's note (odds `pN`),
        maybe double (odds `pN`) or else halve (odds `2 pN`) the note length,
        keep it between half a beat and two, cut it back so as not to run past
        the end, then step the melody matrix and play the note. */
    method MelodyBranch(R: nat, s: Walk, mtf: Matrix, rng: Rng) returns (s': Walk, note: int, length: real)
      requires Poised(R)
      requires mtf.Valid() && s.currentNote in mtf.keys && s.currentChord in mtf.keys
      requires forall n :: n in mtf.keys ==> n in KeyScale
      requires rng.Valid() && |rng.draws| >= 4
      modifies this, rng
      ensures Sound(R) && rng.Valid()
      ensures s'.currentNote == note && s'.currentNoteLength == length
      ensures Moved(Melody, s, s', old(time), time, old(events), events)
      ensures 0.5 <= length <= 2.0 && time == old(time) + length
      ensures note in mtf.keys
      ensures var d, t := old(rng.draws), old(time);
        var from := if d[0] < PN then s.currentChord else s.currentNote;
        var double := d[1] < PN;
        var halve := !double && d[2] < PN * 2.0;
        var j := if double then 2 else 3;
        length == Clip(NoteLength(s.currentNoteLength, double, halve), t, R) &&
        note == mtf.keys[Pick(mtf.Row(from), d[j])] && mtf.P(from, note) > 0.0 &&
        rng.draws == d[j + 1..]
      ensures events == old(events) + [Event(Track, Key + note, old(time), length, ChordPick)]
      ensures Snapshot(s', time, events, rng.draws) == MelodyOutcome(R, mtf, s, old(time), old(events), old(rng.draws))
    {
      ghost var t, before, d := time, events, rng.draws;
      var currentNote, currentNoteLength := MelodyDraws(s, rng);
      if currentNoteLength > R as real - time {
        RoomLeft(time, R);
        currentNoteLength := R as real - time;
      }
      length := currentNoteLength;
      note := rng.Choice(mtf, currentNote);
      assert InKey(note) by {
        ScaleNotesInKey();
      }
      MelodyPlay(R, note, length);
      s' := s.(currentNote := note, currentNoteLength := length, pmCurrent := 1, chCurrent := 1, mlCurrent := 4);
      MelodyMeets(R, mtf, s, t, before, d, note, length, events, rng.draws);
    }

    /** The melody branch's draws before the note: back to the chord's note
        or not, then the length doubled, halved or kept and brought back
        between half a beat and two. */
    method MelodyDraws(s: Walk, rng: Rng) returns (from: int, length: real)
      requires rng.Valid() && |rng.draws| >= 3
      modifies rng
      ensures rng.Valid()
      ensures var d := old(rng.draws);
        var double := d[1] < PN;
        var halve := !double && d[2] < PN * 2.0;
        from == (if d[0] < PN then s.currentChord else s.currentNote) &&
        length == NoteLength(s.currentNoteLength, double, halve) &&
        rng.draws == d[if double then 2 else 3..]
    {
      from := s.currentNote;
      length := s.currentNoteLength;
      var u := rng.Random();
      if u < PN {
        from := s.currentChord;
      }
      u := rng.Random();
      if u < PN {
        length := length * 2.0;
      } else {
        u := rng.Random();
        if u < PN * 2.0 {
          length := length / 2.0;
        }
      }
      if length > 2.0 {
        length := 1.0;
      } else if length < 1.0 / 2.0 {
        length := 1.0;
      }
    }

    /** The melody note played at the clock on a poised riff: the riff stays
        sound. */
    method MelodyPlay(R: nat, note: int, length: real)
      requires Poised(R) && InKey(note) && 0.5 <= length && time + length <= R as real
      modifies this
      ensures Sound(R)
      ensures events == old(events) + [Event(Track, Key + note, old(time), length, ChordPick)]
      ensures time == old(time) + length
    {
      ghost var t, before := time, events;
      Note(note, length);
      ghost var added := [Event(Track, Key + note, t, length, ChordPick)];
      assert (Key + note) - Key == note;
      Extend(before, added, events, t, t, time, R);
    }

    /** The rest branch: half a beat or a whole one, even odds. The rest may
        run up to half a beat past the end. */
    method RestBranch(R: nat, s: Walk, rng: Rng) returns (s': Walk)
      requires Poised(R)
      requires rng.Valid() && rng.draws != []
      modifies this, rng
      ensures Sound(R) && rng.Valid() && rng.draws == old(rng.draws[1..])
      ensures Moved(Resting, s, s', old(time), time, old(events), events)
      ensures events == old(events)
      ensures time == old(time) + (if old(rng.draws[0]) < 0.5 then 0.5 else 1.0)
      ensures Snapshot(s', time, events, rng.draws) == RestOutcome(s, old(time), old(events), old(rng.draws))
    {
      ghost var t := time;
      var u := rng.Random();
      if u < 0.5 {
        Rest(1.0 / 2.0);
      } else {
        Rest(1.0);
      }
      HalfBeatRoom(t, R);
      Extend(events, [], events, t, t, time, R);
      assert events + [] == events;
      s' := s.(pmCurrent := 1, chCurrent := 1, mlCurrent := 1);
    }

    /** The category tests of one pass, palm muting, chords, melody and rest
        in turn, each against its priority times its stickiness, and the
        branch of the first that passes. */
    method DrawCategory(pr: Priorities, s: Walk, rng: Rng) returns (fired: Category)
      requires rng.Valid() && |rng.draws| >= 4
      modifies rng
      ensures rng.Valid()
      ensures fired == Dispatch(pr, s.pmCurrent, s.chCurrent, s.mlCurrent, old(rng.draws))
      ensures rng.draws == old(rng.draws)[Tests(fired)..]
    {
      var u := rng.Random();
      if u < pr.pm * s.pmCurrent as real {
        fired := PalmMuting;
      } else {
        u := rng.Random();
        if u < pr.ch * s.chCurrent as real {
          fired := Chords;
        } else {
          u := rng.Random();
          if u < pr.ml * s.mlCurrent as real {
            fired := Melody;
          } else {
            u := rng.Random();
            fired := if u < pr.rs then Resting else Idle;
          }
        }
      }
    }

    /** The category tests and the branch that fires, from a poised clock at
        `halves` half beats, with the chord already stepped. */
    method Play(R: nat, ghost halves: int, ghost t: real, ghost before: seq<Event>,
                mtf: Matrix, pr: Priorities, s: Walk, rng: Rng)
      returns (s': Walk, fired: Category)
      requires time == t && events == before
      requires Poised(R) && time == halves as real / 2.0 && Voiced(s.currentChord)
      requires mtf.Valid() && s.currentNote in mtf.keys && s.currentChord in mtf.keys
      requires forall n :: n in mtf.keys ==> n in KeyScale
      requires 0.5 <= s.currentNoteLength <= 2.0
      requires rng.Valid() && |rng.draws| >= MaxDraws - 1
      modifies this, rng
      ensures Sound(R) && rng.Valid()
      ensures |old(rng.draws)| - (MaxDraws - 1) <= |rng.draws| < |old(rng.draws)|
      ensures fired == Dispatch(pr, s.pmCurrent, s.chCurrent, s.mlCurrent, old(rng.draws))
      ensures s'.currentChord == s.currentChord
      ensures s'.currentNote in mtf.keys && 0.5 <= s'.currentNoteLength <= 2.0
      ensures Moved(fired, s, s', t, time, before, events)
      ensures fired == PalmMuting ==> time == t + PalmMuteSpan(halves % 2 == 1)
      ensures Snapshot(s', time, events, rng.draws) == Branch(fired, R, mtf, s, t, before, old(rng.draws)[Tests(fired)..])
    {
      fired := DrawCategory(pr, s, rng);
      match fired
      case PalmMuting =>
        var palmMuteNote, offBeat;
        s', palmMuteNote, offBeat := PalmMuteBranch(R, halves, s, rng);
      case Chords =>
        var length, currentInterval, muted;
        s', length, currentInterval, muted := ChordBranch(R, s, t, before, rng);
      case Melody =>
        var note, length;
        s', note, length := MelodyBranch(R, s, mtf, rng);
      case Resting =>
        s' := RestBranch(R, s, rng);
      case Idle =>
        s' := s;
        PoisedIsSound(time, events, R);
    }

    /** One pass of `RiffGenerator`'s loop: step the chord matrix, then snap
        the clock and try the categories in turn. */
    method Iteration(R: nat, ct: Matrix, mtf: Matrix, pr: Priorities, s: Walk, rng: Rng)
      returns (s': Walk, fired: Category)
      requires Setting(ct, mtf) && OnWalk(s, ct, mtf)
      requires Sound(R) && time < R as real
      requires rng.Valid() && |rng.draws| >= MaxDraws
      modifies this, rng
      ensures Sound(R) && OnWalk(s', ct, mtf) && rng.Valid()
      ensures |old(rng.draws)| - MaxDraws <= |rng.draws| < |old(rng.draws)|
      ensures s'.currentChord == ct.keys[Pick(ct.Row(s.currentChord), old(rng.draws[0]))]
      ensures ct.P(s.currentChord, s'.currentChord) > 0.0
      ensures fired == Dispatch(pr, s.pmCurrent, s.chCurrent, s.mlCurrent, old(rng.draws)[1..])
      ensures Moved(fired, s.(currentChord := s'.currentChord), s', Snap(old(time)), time, old(events), events)
      ensures fired == PalmMuting ==>
        time == Snap(old(time)) + PalmMuteSpan(FracPart(Snap(old(time))) != 0.0)
      ensures Snapshot(s', time, events, rng.draws) ==
        IterationOutcome(R, ct, mtf, pr, Snapshot(s, old(time), old(events), old(rng.draws)))
    {
      var currentChord := rng.Choice(ct, s.currentChord);
      s' := s.(currentChord := currentChord);
      assert Voiced(currentChord) by {
        ScaleNoteVoiced(currentChord);
      }
      s', fired := Pass(R, mtf, pr, s', rng);
    }

    /** The rest of a pass once the chord has been stepped: snap the clock to
        the half beat, then try the categories in turn. */
    method Pass(R: nat, mtf: Matrix, pr: Priorities, s: Walk, rng: Rng)
      returns (s': Walk, fired: Category)
      requires mtf.Valid() && s.currentNote in mtf.keys && s.currentChord in mtf.keys
      requires forall n :: n in mtf.keys ==> n in KeyScale
      requires 0.5 <= s.currentNoteLength <= 2.0
      requires Sound(R) && time < R as real && Voiced(s.currentChord)
      requires rng.Valid() && |rng.draws| >= MaxDraws - 1
      modifies this, rng
      ensures Sound(R) && rng.Valid()
      ensures |old(rng.draws)| - (MaxDraws - 1) <= |rng.draws| < |old(rng.draws)|
      ensures s'.currentChord == s.currentChord
      ensures s'.currentNote in mtf.keys && 0.5 <= s'.currentNoteLength <= 2.0
      ensures fired == Dispatch(pr, s.pmCurrent, s.chCurrent, s.mlCurrent, old(rng.draws))
      ensures Moved(fired, s, s', Snap(old(time)), time, old(events), events)
      ensures fired == PalmMuting ==>
        time == Snap(old(time)) + PalmMuteSpan(FracPart(Snap(old(time))) != 0.0)
      ensures Snapshot(s', time, events, rng.draws) == PassOutcome(R, mtf, pr, s, old(time), old(events), old(rng.draws))
    {
      ghost var t, before := Snap(time), events;
      var halves := SnapClock(R);
      s', fired := Play(R, halves, t, before, mtf, pr, s, rng);
    }

    /** `time = int(time * 2) / 2`: the clock snapped down to the half beat,
        which leaves a sound riff before its end poised; off the beat exactly
        when the count of half beats is odd. */
    method SnapClock(R: nat) returns (ghost halves: int)
      requires Sound(R) && time < R as real
      modifies this
      ensures Poised(R) && time == Snap(old(time)) && events == old(events)
      ensures time == halves as real / 2.0
      ensures FracPart(time) != 0.0 <==> halves % 2 == 1
    {
      SnapPoises(time, events, R);
      halves := Trunc(2.0 * time);
      time := Snap(time);
      OffBeatHalves(time, halves);
    }

    /** `RiffGenerator`: iterate from the start state until the clock reaches
        `R` beats (or the stream has too few draws left for another pass). The
        riff stays sound throughout, so when it is done every note lies within
        its `R` beats, in key, in order of its start, and the clock has run at
        most half a beat (a closing rest) past the end. */
    method RiffGenerator(R: nat, ct: Matrix, mtf: Matrix, pr: Priorities, rng: Rng)
      returns (s: Walk)
      requires Setting(ct, mtf) && Sound(R) && rng.Valid()
      modifies this, rng
      ensures Sound(R) && rng.Valid() && OnWalk(s, ct, mtf)
      ensures R as real <= time || |rng.draws| < MaxDraws
      ensures |old(events)| <= |events| && events[..|old(events)|] == old(events)
      ensures Snapshot(s, time, events, rng.draws) ==
        Run(R, ct, mtf, pr, Snapshot(Start, old(time), old(events), old(rng.draws)))
    {
      s := Start;
      ghost var start := Snapshot(Start, time, events, rng.draws);
      while time < R as real && |rng.draws| >= MaxDraws
        invariant Sound(R) && rng.Valid() && OnWalk(s, ct, mtf)
        invariant Run(R, ct, mtf, pr, Snapshot(s, time, events, rng.draws)) == Run(R, ct, mtf, pr, start)
        decreases |rng.draws|
      {
        ghost var a := Snapshot(s, time, events, rng.draws);
        RunStep(R, ct, mtf, pr, a);
        var fired;
        s, fired := Iteration(R, ct, mtf, pr, s, rng);
      }
      RunStops(R, ct, mtf, pr, Snapshot(s, time, events, rng.draws));
    }
  }
}
