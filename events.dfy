/** The notes a riff writes into its MIDI file, the palm-muted stroke patterns
    of Riff_Generator.py as lists of such notes, and the beat clock: Python's
    truncating `int`, the snap of the clock down to the half beat, and
    `time % 1`. */
module Events {
  import opened Scale
  import opened Settings

  /** One `addNote` call: track, MIDI pitch, start and length in beats, and
      velocity. The channel is always 0 and is not recorded. */
  datatype Event = Event(track: int, pitch: int, onset: real, duration: real, velocity: int)

  /** A palm-muted sixteenth note. */
  function PMStroke(pitch: int, onset: real, velocity: int): Event
  {
    Event(PMTrack, pitch, onset, Djent, velocity)
  }

  /** `DownPM`: down-strokes on the beat and on its half. */
  function DownPMStrokes(pitch: int, t: real): seq<Event>
  {
    [PMStroke(pitch, t, DownPick), PMStroke(pitch, t + 2.0 / 4.0, DownPick)]
  }

  /** `UpDown`: four alternate-picked sixteenths. */
  function UpDownStrokes(pitch: int, t: real): seq<Event>
  {
    [PMStroke(pitch, t, DownPick), PMStroke(pitch, t + 1.0 / 4.0, UpPick),
     PMStroke(pitch, t + 2.0 / 4.0, DownPick), PMStroke(pitch, t + 3.0 / 4.0, UpPick)]
  }

  /** `Gallop`: an eighth then two sixteenths. */
  function GallopStrokes(pitch: int, t: real): seq<Event>
  {
    [PMStroke(pitch, t, DownPick), PMStroke(pitch, t + 2.0 / 4.0, DownPick),
     PMStroke(pitch, t + 3.0 / 4.0, UpPick)]
  }

  /** `RevGallop`: two sixteenths then an eighth. */
  function RevGallopStrokes(pitch: int, t: real): seq<Event>
  {
    [PMStroke(pitch, t, DownPick), PMStroke(pitch, t + 1.0 / 4.0, UpPick),
     PMStroke(pitch, t + 2.0 / 4.0, DownPick)]
  }

  /** `UpDownSHORT`: a down- and an up-stroke filling half a beat. */
  function UpDownShortStrokes(pitch: int, t: real): seq<Event>
  {
    [PMStroke(pitch, t, DownPick), PMStroke(pitch, t + 1.0 / 4.0, UpPick)]
  }

  /** `PMChordSHORT`: a palm-muted two-note chord struck once. */
  function PMChordShortStrokes(pitch: int, pitch2: int, t: real): seq<Event>
  {
    [PMStroke(pitch, t, DownPick), PMStroke(pitch2, t, DownPick)]
  }

  /** The picking rule of a stroke in a pattern starting at `t` and lasting
      `span` beats: a palm-muted sixteenth on the palm-mute track, inside the
      span, down-picked exactly when it falls on the beat or its half and
      up-picked exactly when it falls on a quarter in between. */
  predicate PickedStroke(e: Event, t: real, span: real)
  {
    e.track == PMTrack && e.duration == Djent &&
    t <= e.onset && e.onset + e.duration <= t + span &&
    (e.velocity == DownPick <==> e.onset - t == 0.0 || e.onset - t == 0.5) &&
    (e.velocity == UpPick <==> e.onset - t == 0.25 || e.onset - t == 0.75)
  }

  predicate PickedPattern(es: seq<Event>, t: real, span: real)
  {
    forall i :: 0 <= i < |es| ==> PickedStroke(es[i], t, span)
  }

  /** Every stroke pattern follows the picking rule; the four whole-beat
      patterns fill one beat, the two short ones half a beat. */
  lemma PatternsArePicked(pitch: int, pitch2: int, t: real)
    ensures PickedPattern(DownPMStrokes(pitch, t), t, 1.0)
    ensures PickedPattern(UpDownStrokes(pitch, t), t, 1.0)
    ensures PickedPattern(GallopStrokes(pitch, t), t, 1.0)
    ensures PickedPattern(RevGallopStrokes(pitch, t), t, 1.0)
    ensures PickedPattern(UpDownShortStrokes(pitch, t), t, 0.5)
    ensures PickedPattern(PMChordShortStrokes(pitch, pitch2, t), t, 0.5)
  {
  }

  /** An event that starts no earlier than the riff, has a positive length,
      ends by beat `R`, and sounds a pitch in key. */
  predicate Fits(e: Event, R: int)
  {
    0.0 <= e.onset && 0.0 < e.duration && e.onset + e.duration <= R as real &&
    InKey(e.pitch - Key)
  }

  predicate AllFit(es: seq<Event>, R: int)
  {
    forall i :: 0 <= i < |es| ==> Fits(es[i], R)
  }

  /** Events listed in order of their start. */
  predicate Ordered(es: seq<Event>)
  {
    forall i, j :: 0 <= i <= j < |es| ==> es[i].onset <= es[j].onset
  }

  /** Events, in order, that fit a riff of `R` beats and all start within
      `[from, to]`. */
  predicate Block(es: seq<Event>, from: real, to: real, R: int)
  {
    Ordered(es) && AllFit(es, R) &&
    forall i :: 0 <= i < |es| ==> from <= es[i].onset <= to
  }

  /** Appending a block that starts no earlier than everything before it keeps
      the whole list in order and fitting. */
  lemma Join(a: seq<Event>, b: seq<Event>, t: real, to: real, R: int)
    requires Ordered(a) && AllFit(a, R)
    requires forall i :: 0 <= i < |a| ==> a[i].onset <= t
    requires Block(b, t, to, R) && t <= to
    ensures Ordered(a + b) && AllFit(a + b, R)
    ensures forall i :: 0 <= i < |a + b| ==> (a + b)[i].onset <= to
  {
    var ab := a + b;
    forall i, j | 0 <= i <= j < |ab|
      ensures ab[i].onset <= ab[j].onset
    {
      if j < |a| {
        assert ab[i] == a[i] && ab[j] == a[j];
      } else if i < |a| {
        assert ab[i] == a[i] && ab[j] == b[j - |a|];
      } else {
        assert ab[i] == b[i - |a|] && ab[j] == b[j - |a|];
      }
    }
  }

  /** Each whole-beat pattern starting at `t`, with a whole beat left before
      beat `R`, and each short one with half a beat left, is a block of notes
      starting within the pattern's span. */
  lemma PatternBlocks(pitch: int, pitch2: int, t: real, R: int)
    requires 0.0 <= t && InKey(pitch - Key) && InKey(pitch2 - Key)
    ensures t + 1.0 <= R as real ==> Block(DownPMStrokes(pitch, t), t, t + 1.0, R)
    ensures t + 1.0 <= R as real ==> Block(UpDownStrokes(pitch, t), t, t + 1.0, R)
    ensures t + 1.0 <= R as real ==> Block(GallopStrokes(pitch, t), t, t + 1.0, R)
    ensures t + 1.0 <= R as real ==> Block(RevGallopStrokes(pitch, t), t, t + 1.0, R)
    ensures t + 0.5 <= R as real ==> Block(UpDownShortStrokes(pitch, t), t, t + 0.5, R)
    ensures t + 0.5 <= R as real ==> Block(PMChordShortStrokes(pitch, pitch2, t), t, t + 0.5, R)
  {
    StraightBlocks(pitch, t, R);
    GallopBlocks(pitch, t, R);
    ShortBlocks(pitch, pitch2, t, R);
  }

  lemma StraightBlocks(pitch: int, t: real, R: int)
    requires 0.0 <= t && InKey(pitch - Key)
    ensures t + 1.0 <= R as real ==> Block(DownPMStrokes(pitch, t), t, t + 1.0, R)
    ensures t + 1.0 <= R as real ==> Block(UpDownStrokes(pitch, t), t, t + 1.0, R)
  {
  }

  lemma GallopBlocks(pitch: int, t: real, R: int)
    requires 0.0 <= t && InKey(pitch - Key)
    ensures t + 1.0 <= R as real ==> Block(GallopStrokes(pitch, t), t, t + 1.0, R)
    ensures t + 1.0 <= R as real ==> Block(RevGallopStrokes(pitch, t), t, t + 1.0, R)
  {
  }

  lemma ShortBlocks(pitch: int, pitch2: int, t: real, R: int)
    requires 0.0 <= t && InKey(pitch - Key) && InKey(pitch2 - Key)
    ensures t + 0.5 <= R as real ==> Block(UpDownShortStrokes(pitch, t), t, t + 0.5, R)
    ensures t + 0.5 <= R as real ==> Block(PMChordShortStrokes(pitch, pitch2, t), t, t + 0.5, R)
  {
  }

  /** Python's `int` on a float: truncation toward zero. */
  function Trunc(x: real): (n: int)
    ensures 0.0 <= x ==> n as real <= x < n as real + 1.0
    ensures x <= 0.0 ==> n as real - 1.0 < x <= n as real
  {
    if x >= 0.0 then x.Floor else -((-x).Floor)
  }

  /** A whole number of half beats. */
  predicate HalfBeat(t: real)
  {
    (2.0 * t).Floor as real == 2.0 * t
  }

  /** `int(time * 2) / 2`: the clock snapped down to the half beat. */
  function Snap(t: real): (s: real)
    ensures 0.0 <= t ==> HalfBeat(s) && 0.0 <= s <= t < s + 0.5
  {
    var n := Trunc(2.0 * t);
    assert (n as real).Floor == n;
    n as real / 2.0
  }

  /** `time % 1` (Python's modulo rounds toward minus infinity, so this is the
      fractional part for every `time`). */
  function FracPart(t: real): (f: real)
    ensures 0.0 <= f < 1.0
  {
    t - t.Floor as real
  }

  /** The snap is the latest half beat not after `x`: it lies at or after every
      half beat that `x` has reached. */
  lemma SnapAtLeast(a: real, x: real)
    requires HalfBeat(a) && 0.0 <= a <= x
    ensures a <= Snap(x)
  {
    assert (2.0 * a).Floor <= (2.0 * x).Floor;
  }

  /** A half beat is a whole number `k` of halves. */
  lemma HalfBeatHalves(t: real) returns (k: int)
    requires HalfBeat(t)
    ensures t == k as real / 2.0
  {
    k := (2.0 * t).Floor;
  }

  /** A half beat before beat `R` leaves at least half a beat. */
  lemma RoomLeft(t: real, R: int)
    requires HalfBeat(t) && t < R as real
    ensures t + 0.5 <= R as real
  {
    var k := HalfBeatHalves(t);
    assert k < 2 * R;
  }

  /** Half a beat and a whole beat after a half beat are half beats. */
  lemma HalfBeatNext(t: real)
    requires HalfBeat(t)
    ensures HalfBeat(t + 0.5) && HalfBeat(t + 1.0)
  {
    var k := HalfBeatHalves(t);
    assert ((k + 1) as real).Floor == k + 1;
    assert 2.0 * (t + 0.5) == (k + 1) as real;
    assert ((k + 2) as real).Floor == k + 2;
    assert 2.0 * (t + 1.0) == (k + 2) as real;
  }

  /** A half beat before beat `R` leaves at least half a beat; on a whole beat
      it leaves a whole beat; off the beat it sits exactly half way, so the
      `time % 1 != 0` test of the palm-mute branch sees either 0 or 1/2. */
  lemma HalfBeatRoom(t: real, R: int)
    requires HalfBeat(t) && t < R as real
    ensures t + 0.5 <= R as real
    ensures FracPart(t) == 0.0 ==> t + 1.0 <= R as real
    ensures FracPart(t) != 0.0 ==> FracPart(t) == 0.5
    ensures HalfBeat(t + 0.5) && HalfBeat(t + 1.0)
  {
    var k := HalfBeatHalves(t);
    assert k < 2 * R;
    var w := t.Floor;
    assert w as real <= t < w as real + 1.0;
    assert 2 * w <= k < 2 * w + 2;
    if k == 2 * w {
      assert FracPart(t) == 0.0;
      assert w < R;
    } else {
      assert k == 2 * w + 1;
      assert FracPart(t) == 0.5;
    }
    assert ((k + 1) as real).Floor == k + 1;
    assert 2.0 * (t + 0.5) == (k + 1) as real;
    assert ((k + 2) as real).Floor == k + 2;
    assert 2.0 * (t + 1.0) == (k + 2) as real;
  }

  /** `time % 1 != 0` for a clock at `halves` half beats: an odd count. */
  lemma OffBeatHalves(t: real, halves: int)
    requires t == halves as real / 2.0
    ensures FracPart(t) != 0.0 <==> halves % 2 == 1
  {
    var w := halves / 2;
    assert halves == 2 * w + halves % 2;
    assert t == w as real + (halves % 2) as real / 2.0;
    assert t.Floor == w;
  }
}
