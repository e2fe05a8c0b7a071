/** The in-key scale and the harmony lookup of Riff_Generator.py.

    The scale is natural minor with an added flat second, flat fifth and sharp
    seventh, spanning two octaves plus the closing root. Every note is an offset
    in semitones above the key's root. The two harmony tables give, position by
    position, the note a third and a fifth above the scale note at that position,
    chosen so the harmony stays in key. */
module Scale {
  import opened Seqs

  const KeyScale: seq<int> := [0, 1, 2, 3, 5, 6, 7, 8, 10, 11, 12, 13, 14, 15, 17, 18, 19, 20, 22, 23, 24]
  const KeyHarmony3: seq<int> := [3, 5, 5, 7, 8, 10, 10, 12, 14, 14, 15, 17, 17, 19, 20, 22, 22, 24, 26, 26, 27]
  const KeyHarmony7: seq<int> := [7, 8, 10, 10, 12, 13, 14, 15, 17, 18, 19, 20, 22, 22, 24, 25, 26, 27, 29, 30, 31]

  /** The pitch classes (semitones above the root, within one octave) the
      scale uses. */
  const PitchClasses: set<int> := {0, 1, 2, 3, 5, 6, 7, 8, 10, 11}

  /** A pitch (semitones above the root, any octave) whose pitch class is one of
      the scale's. */
  predicate InKey(pitch: int)
  {
    pitch % 12 in PitchClasses
  }

  /** The harmony note `interval` above `note`. Intervals 3 and 7 are looked up
      in the harmony tables at `note`'s position in the scale, and fail when
      `note` is not a scale note (the source takes `.index[0]` of an empty
      selection and raises); any other interval is plain addition. */
  function Harmony(note: int, interval: int): (r: Option<int>)
    ensures r.None? <==> (interval == 3 || interval == 7) && note !in KeyScale
    ensures interval != 3 && interval != 7 ==> r == Some(note + interval)
  {
    if interval == 3 || interval == 7 then
      match IndexOf(KeyScale, note)
      case None => None
      case Some(i) => Some(if interval == 3 then KeyHarmony3[i] else KeyHarmony7[i])
    else
      Some(note + interval)
  }

  /** Position `i` of the tables holds a scale note in key, a third 3 or 4
      semitones above it and a fifth 7 or 8 semitones above it, both in key. */
  predicate HarmonyRowGood(i: nat)
    requires i < |KeyScale|
  {
    InKey(KeyScale[i]) &&
    KeyHarmony3[i] - KeyScale[i] in {3, 4} && InKey(KeyHarmony3[i]) &&
    KeyHarmony7[i] - KeyScale[i] in {7, 8} && InKey(KeyHarmony7[i])
  }

  /** Checks every table position from `i` on. */
  predicate HarmonyRowsGoodFrom(i: nat)
    decreases |KeyScale| - i
  {
    i >= |KeyScale| || (HarmonyRowGood(i) && HarmonyRowsGoodFrom(i + 1))
  }

  lemma {:induction false} HarmonyRowsGoodFromAt(i: nat, k: nat)
    requires HarmonyRowsGoodFrom(i) && i <= k < |KeyScale|
    ensures HarmonyRowGood(k)
    decreases k - i
  {
    if i < k {
      HarmonyRowsGoodFromAt(i + 1, k);
    }
  }

  /** The tables, checked from the top position down. */
  lemma HarmonyTablesGood()
    ensures HarmonyRowsGoodFrom(0)
  {
    assert HarmonyRowsGoodFrom(18);
    assert HarmonyRowsGoodFrom(15);
    assert HarmonyRowsGoodFrom(12);
    assert HarmonyRowsGoodFrom(9);
    assert HarmonyRowsGoodFrom(6);
    assert HarmonyRowsGoodFrom(3);
  }

  /** For every scale note the third lies 3 or 4 semitones above it, the fifth 7
      or 8 semitones above it, and both stay in key. */
  lemma HarmonyStaysInKey(note: int)
    requires note in KeyScale
    ensures Harmony(note, 3).Some? && Harmony(note, 3).value - note in {3, 4}
    ensures InKey(Harmony(note, 3).value)
    ensures Harmony(note, 7).Some? && Harmony(note, 7).value - note in {7, 8}
    ensures InKey(Harmony(note, 7).value)
  {
    var i := IndexOf(KeyScale, note).value;
    HarmonyTablesGood();
    HarmonyRowsGoodFromAt(0, i);
  }

  /** Every scale note is in key. */
  lemma ScaleNotesInKey()
    ensures forall i :: 0 <= i < |KeyScale| ==> InKey(KeyScale[i])
  {
    forall i | 0 <= i < |KeyScale|
      ensures InKey(KeyScale[i])
    {
      HarmonyTablesGood();
      HarmonyRowsGoodFromAt(0, i);
    }
  }

  /** The scale is strictly ascending from the root, so no note occurs twice. */
  lemma ScaleDistinct()
    ensures Distinct(KeyScale)
    ensures KeyScale[0] == 0
  {
    assert Ascending(KeyScale);
    AscendingDistinct(KeyScale);
  }
}
