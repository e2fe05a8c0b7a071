# Riff generator model

A Dafny model of `Riff_Generator.py`, a Markov-chain composer of metal guitar
riffs written as MIDI. It covers:

- The in-key scale and its harmony tables (`Scale`).
- The two hand-drawn transition matrices, one for chords (`TransferFunction`)
  and one for melody notes (`MelodyTransferFunction`). Each is cut down to the
  scale up to `highestNote`, flattened by the chaos term `howMuchCrazy`, and
  normalised (`Transfer`, over the rational rows of `Markov`).
- The random walk that picks the riff's chord vocabulary and the chord matrix
  restricted to it (`Chords`).
- The ranges of the randomised inputs, the category priorities derived from
  them, and the choice of riff length (`Settings`).
- The stroke patterns and the beat clock (`Events`).
- The riff engine itself (`Generator`): the MIDI file and the global clock
  `time` become the fields of a `Score`, and every musical building block
  (`Chord`, `Note`, `Rest`, the palm-mute patterns and their short forms)
  becomes a method that appends notes and moves the clock on. `RiffGenerator`
  is the loop that, pass by pass, steps the chord matrix, snaps the clock to
  the half beat, and plays the first category that fires: palm mute, chord,
  melody or rest.
- One song part as `Main` produces it (`Riff`).

Randomness is an explicit stream of draws in [0, 1) (`Random.Rng`):
- `np.random.random()` hands out the next draw.
- `np.random.choice(keys, p = row)` maps one draw to a key by inverse
  cumulative distribution. Such a key always has positive probability.

A fixed stream gives a fixed song part (`Riff.SongPartDetermined`): the
vocabulary, the length and every note. Probabilities and times are exact
rationals.

What is proved, in the system's terms:
- Every harmony of a scale note stays in key: a third is 3 or 4 semitones up,
  a fifth 7 or 8.
- The chord and melody matrices share their keys, the scale prefix ending in
  `highestNote`. Every row is a probability distribution.
- Without chaos, a transition drawn as `p` or `0` is impossible and every
  other transition is possible. With any chaos, every transition is possible.
- The chord vocabulary starts at the root, has no repeats, and only contains
  chords of the matrix. Each chord was reached with positive probability from
  an earlier one.
- The restricted chord matrix is a transition matrix over exactly those
  chords.
- Every palm-mute stroke follows the picking rule: down-picked on the beat and
  its half, up-picked on the quarters, one sixteenth long, on the palm-mute
  track. The full patterns fill a beat, the short ones half a beat.
- Throughout a riff, every note starts at or after 0, ends by the riff's end,
  sounds a pitch in key, and notes are listed in order of their start. The
  clock runs at most half a beat past the end (a closing rest).
- Each pass that fires moves the clock on by at least half a beat. The chord
  and melody branches move it by exactly their clipped note length. An idle
  pass plays nothing and leaves the walk as it was apart from the chord step;
  like every pass, it still snaps the clock to the half beat.
- Every branch, every pass and the whole loop are pure functions of the state
  and the stream (`Generator.Branch`, `Generator.IterationOutcome`,
  `Generator.Run`), and the methods are proved to compute exactly them. A
  fixed stream therefore fixes the whole riff, and each step only uses draws
  from the front of the stream. The chord vocabulary is likewise the walk the
  stream dictates (`Chords.WalkPath`), with its revisits dropped, stopping as
  soon as the vocabulary is full (`Chords.WalkStopped`); one song part is
  `Riff.SongPart` of that walk.
- A 3/4-beat melody note (a 3/2-beat note halved) is followed by a snap that
  moves the clock back a quarter beat, so the next pass starts before that
  note ends. `Generator.QuarterRewind` states this behaviour. It is modelled
  as written.

Behaviours kept as the code has them:
- The full-beat palm-mute pattern is chosen by three chained tests at odds
  1/4 each, not uniformly among four (`Generator.Score.PalmMute`).
- A muted chord always plays one stab, and a second one when the chord lasts a
  beat or more (`Generator.Score.MutedStabs`).
- A pass in which no category fires plays nothing and does not fall back to a
  rest; it only steps the chord and snaps the clock (`Generator.Moved`, case
  `Idle`).
- A ceiling or a harmony lookup outside the scale raises an exception; the
  model returns `None` for both. An unreachable chord vocabulary size makes the
  code loop for ever; in the model the walk stops when the stream runs dry.

## Model

| member | source | states |
|---|---|---|
| Seqs.FirstOccurrencesMembers | Riff_Generator.py:199-202 | the chords kept from a walk are exactly the chords it visited, each once |
| Seqs.FirstOccurrencesStep | Riff_Generator.py:201-202 | one more step adds its chord to the kept chords exactly when it is not among them yet |
| Seqs.DistinctWithinPool | Riff_Generator.py:199-202 | distinct chords drawn from the keys are never more than the keys |
| Seqs.FirstOccurrencesGrow | Riff_Generator.py:199-202 | a walk never keeps more chords than a longer walk it begins |
| Seqs.IndexOf | Riff_Generator.py:200 | the label lookup `get_loc`: none exactly when the key is absent, otherwise the first position holding it |
| Scale.Harmony | Riff_Generator.py:216-222 | fails exactly for interval 3 or 7 on a note outside the scale (the source indexes an empty selection); any other interval gives `note + interval` |
| Scale.HarmonyTablesGood | Riff_Generator.py:69-74 | at every position of the tables the third is 3 or 4 semitones and the fifth 7 or 8 semitones above the scale note, and all three are in key |
| Scale.HarmonyStaysInKey | Riff_Generator.py:216-222 | for every scale note, `Harmony(note, 3)` is 3 or 4 semitones above it and `Harmony(note, 7)` 7 or 8 above it, both in key |
| Scale.ScaleNotesInKey | Riff_Generator.py:74 | every scale note's pitch class is one of the scale's |
| Scale.ScaleDistinct | Riff_Generator.py:74 | the scale starts at the root and no note occurs twice |
| Markov.Normalise | Riff_Generator.py:136 | dividing a row by its positive total gives a distribution in which each entry keeps its weight's share, and is zero exactly when its weight is |
| Markov.Pick | Riff_Generator.py:200 | the position a draw selects always has positive weight |
| Markov.PickIsInverseCdf | Riff_Generator.py:200 | the selected position is where the running total first exceeds the draw |
| Markov.Matrix.Row | Riff_Generator.py:200 | the row of a key is a distribution over all keys |
| Markov.Matrix.P | Riff_Generator.py:200 | a transition probability lies in [0, 1] |
| Transfer.LevelWeight | Riff_Generator.py:87-90 | a level weighs nothing exactly when it is `p` or a literal 0 |
| Transfer.ChordTableShaped | Riff_Generator.py:102-127 | the chord table is square over the 21 scale degrees with `stay` on its diagonal |
| Transfer.MelodyTableShaped | Riff_Generator.py:149-174 | the melody table is square over the 21 scale degrees with `h` on its diagonal |
| Transfer.TablesWellFormed | Riff_Generator.py:102-174 | both tables are square over the scale and staying on a degree has positive weight |
| Transfer.ChaosRow | Riff_Generator.py:132-134 | a cut-down row with the chaos added has the transposed table weight plus `howMuchCrazy` in every cell and a total at least its positive diagonal |
| Transfer.Build | Riff_Generator.py:131-136 | no matrix exactly when `highestNote` is not a scale note; otherwise the keys are the scale up to and including it, every row is a distribution with a positive diagonal, and each cell is its weight over its row's total |
| Transfer.Restricted | Riff_Generator.py:132-136 | the matrix over the first `n` degrees is a transition matrix whose cells are weight over row total |
| Transfer.NormalRow | Riff_Generator.py:136 | each normalised row is a distribution, positive on the diagonal, with entries weight over total |
| Transfer.TransferFunction | Riff_Generator.py:98-136 | no chord matrix exactly when `highestNote` is not a scale note; otherwise a transition matrix over the scale from the root up to `highestNote`, staying on a chord always possible |
| Transfer.MelodyTransferFunction | Riff_Generator.py:145-181 | no melody matrix exactly when `highestNote` is not a scale note; otherwise a transition matrix over the scale from the root up to `highestNote` |
| Transfer.TransferKeysAgree | Riff_Generator.py:98-181 | `tf` and `mtf` exist for the same ceilings and have the same keys: the scale from the root up to `highestNote` |
| Transfer.ChaosAndZeros | Riff_Generator.py:132-136 | with no chaos a transition is impossible exactly when drawn `p` or 0; with any chaos every transition is possible |
| Random.Rng.Random | Riff_Generator.py:278 | `np.random.random()` returns the next draw, in [0, 1), and consumes it |
| Random.Rng.Choice | Riff_Generator.py:357 | `np.random.choice` consumes one draw and returns the key it selects, one the current key moves to with positive probability |
| Chords.SubRow | Riff_Generator.py:207 | the row of `tf` restricted to the vocabulary holds `tf`'s probabilities and has a positive total |
| Chords.ChordRow | Riff_Generator.py:208 | each renormalised row of `ct` is a distribution, positive on the diagonal, zero exactly where `tf` is |
| Chords.ChordTransitions | Riff_Generator.py:206-208 | `ct` is a transition matrix over exactly the vocabulary, in its order, staying on a chord always possible |
| Chords.ChordTransitionsAgree | Riff_Generator.py:206-208 | a transition is possible in `ct` exactly when it is in `tf`, with `tf`'s probability over the total of the restricted row |
| Chords.WalkPath | Riff_Generator.py:197-200 | the walk starts on the root and stands on one more chord per draw |
| Chords.WalkPathPrefix | Riff_Generator.py:199-200 | a longer walk on the same draws begins with the shorter one |
| Chords.WalkPathKeys | Riff_Generator.py:199-200 | every chord the walk stands on is a key of `tf` |
| Chords.WalkPathNext | Riff_Generator.py:200 | step `k` moves to the chord that draw `k` selects from the chord before it |
| Chords.WalkPathStep | Riff_Generator.py:200 | step `k` moves from a key to the key that draw `k` picks from that key's row |
| Chords.ReachedAll | Riff_Generator.py:199-202 | every kept chord after the root was reached with positive probability from a chord kept before it |
| Chords.WalkedStep | Riff_Generator.py:200 | one more draw extends the walk by the chord it picks and leaves the rest of the stream |
| Chords.KeptStep | Riff_Generator.py:200-202 | appending the picked chord only when it is new keeps the vocabulary equal to the walk without its revisits; a new chord was reached from the chord the walk stood on |
| Chords.WalkEnds | Riff_Generator.py:195-202 | at any point of the walk the vocabulary starts at the root, has no repeats, holds keys of `tf`, is no longer than the keys, and each chord was reached from an earlier one |
| Chords.Walk | Riff_Generator.py:195-202 | the loop: the walk is the one the stream dictates from the root, the vocabulary is that walk without its revisits, and the stream has moved on by one draw per step; every step was taken while fewer than `howManyChords` chords were kept (so none when `howManyChords` is at most 1), and the loop stops at `howManyChords` chords or when the stream runs dry |
| Chords.WalkStep | Riff_Generator.py:200-202 | one pass of the loop consumes one draw and extends the walk and the vocabulary as above |
| Chords.WalkStoppedUnique | Riff_Generator.py:199-202 | only one walk on a given stream stops as the loop does, so the stream fixes the vocabulary |
| Chords.WalkPastStop | Riff_Generator.py:199 | a walk that goes on past one that stopped as the loop does took its last step with the vocabulary already full |
| Chords.ChordsTransferFunction | Riff_Generator.py:191-208 | the walk taken is the one the stream dictates from the root and stops as the source's loop does (`WalkStopped`: each step taken while the vocabulary was short, ending once it is full or the stream runs dry); the vocabulary is that walk without its revisits, and the stream has moved on by exactly the steps taken; so the vocabulary starts at the root, has no repeats, is drawn from `tf`'s keys, has `howManyChords` entries unless the stream runs dry, each chord reached with positive probability from an earlier one, and `ct` is `tf` restricted to it |
| Settings.HighestNotesInScale | Riff_Generator.py:61 | every ceiling `RandomiseInputs` may pick is a scale note an octave or more above the root |
| Settings.CategoryPriorities | Riff_Generator.py:328-332 | the priorities are undefined exactly when the four ratings sum to zero |
| Settings.PrioritiesDistribution | Riff_Generator.py:328-332 | for inputs `RandomiseInputs` can produce, the four priorities are non-negative and sum to one, palm mute, chords and melody strictly positive |
| Settings.RiffLengthRandom | Riff_Generator.py:311-318 | the length is 4, 8 or 16; 4 exactly when the first draw is below 1/3, which takes one draw; otherwise a second draw picks 8 when below 1/2 and 16 when not; None exactly when the stream runs out before the choice is made |
| Events.PatternsArePicked | Riff_Generator.py:244-306 | every stroke of every palm-mute pattern is a sixteenth on the palm-mute track inside the pattern's span, down-picked exactly on offsets 0 and 1/2, up-picked exactly on 1/4 and 3/4; full patterns span a beat, short ones half |
| Events.PatternBlocks | Riff_Generator.py:244-306 | each pattern, with room for it, is a list of in-key notes, in order, starting within its span and ending by the riff's end |
| Events.Trunc | Riff_Generator.py:359 | Python's `int`: the integer toward zero within one of its argument |
| Events.Snap | Riff_Generator.py:359 | `int(time * 2) / 2` is a half beat at most the clock and less than half a beat below it |
| Events.SnapAtLeast | Riff_Generator.py:359 | the snap is the latest half beat the clock has reached |
| Events.FracPart | Riff_Generator.py:367 | `time % 1` lies in [0, 1) |
| Events.OffBeatHalves | Riff_Generator.py:367 | the clock is off the beat exactly when it is an odd number of half beats |
| Events.HalfBeatRoom | Riff_Generator.py:359-370 | a snapped clock before the end leaves half a beat, a whole beat when on the beat, and `time % 1` is then 0 or 1/2 |
| Events.RoomLeft | Riff_Generator.py:387-388 | a snapped clock before the end leaves at least half a beat, so a clipped length is never below half a beat |
| Generator.SnapPoises | Riff_Generator.py:359 | snapping a sound riff before its end leaves it poised for a branch |
| Generator.Extend | Riff_Generator.py:224-306 | appending notes that start between the clock and a later half beat, then moving the clock to or past it, keeps the riff sound |
| Generator.ScaleNoteVoiced | Riff_Generator.py:216-222 | every scale note is in key and has a third and a fifth in key |
| Generator.PalmMuteStrokesFit | Riff_Generator.py:361-370 | whatever the draws, the palm-mute branch's strokes follow the picking rule and fit in the riff, a whole beat on the beat and half a beat off it |
| Generator.PalmMutedSound | Riff_Generator.py:361-373 | the palm-mute branch keeps a poised riff sound |
| Generator.ChordLength | Riff_Generator.py:377-385 | the chord length is 1/2 exactly when the first draw is below `pCH` (one draw), 3/2 exactly when the first fails and the second passes (two draws), 2 exactly when both fail and the third is below `pCH / 2`, and 1 exactly when all three fail (three draws) |
| Generator.ChordStrokesSound | Riff_Generator.py:396-404 | one or two muted stabs or a ringing chord, of at least half a beat and ending by the riff's end, keep a poised riff sound |
| Generator.TwoStabsBlock | Riff_Generator.py:396-400 | two muted stabs half a beat apart fill one beat in order and in key |
| Generator.NoteLength | Riff_Generator.py:414-422 | the melody length always ends between half a beat and two beats; an in-range length neither doubled nor halved is kept, in-range doubling and halving are kept, anything that doubling, halving or neither takes outside half a beat to two beats becomes one beat |
| Generator.DoubledLongNote | Riff_Generator.py:414-420 | a two-beat note doubled becomes one beat, not four; halved it also becomes one beat, and kept it stays two |
| Generator.Clip | Riff_Generator.py:387-388 | the clipped length is at most the length and at most the time left, and equals one of them |
| Generator.Dispatch | Riff_Generator.py:362-436 | palm muting fires exactly when its test passes; chords, melody and rest each fire exactly when every earlier test failed and their own passed; nothing fires exactly when all four tests fail |
| Generator.ClockAdvances | Riff_Generator.py:359-443 | a pass moves the snapped clock on by at least half a beat exactly when a category fired |
| Generator.QuarterRewind | Riff_Generator.py:416-417 | halving a 3/2-beat note gives 3/4 of a beat, after which the next snap moves the clock back a quarter beat, so the next pass starts before that note ends |
| Generator.PalmMuteNote | Riff_Generator.py:363-366 | the palm-mute note is the chord's note or the root |
| Generator.PalmMuteDraws | Riff_Generator.py:277-285 | the palm-mute pattern takes one draw off the beat; on the beat it takes one per test up to the first below 1/4, at most three |
| Generator.PalmMuteOutcome | Riff_Generator.py:361-373 | the palm-mute branch on the draws after its test only appends notes, moves the clock on by at least half a beat, and uses two to four draws from the front of the stream |
| Generator.ChordOutcome | Riff_Generator.py:375-407 | the chord branch only appends notes, sets a note length between half a beat and two, moves the clock on by at least half a beat but not past the end, and uses at least three draws from the front |
| Generator.MelodyOutcome | Riff_Generator.py:409-433 | the melody branch appends exactly one note, a key of the melody matrix, sets a length between half a beat and two, moves the clock on by at least half a beat but not past the end, and uses at least three draws from the front |
| Generator.RestOutcome | Riff_Generator.py:435-443 | the rest branch appends nothing, moves the clock on by at least half a beat and uses one draw |
| Generator.Branch | Riff_Generator.py:361-443 | only a pass in which nothing fires leaves the state as it was, and only then does the clock stay; the chord is untouched, and the walk stays on the matrices |
| Generator.BranchMoved | Riff_Generator.py:361-443 | each branch outcome moves the state as `Moved` says for its category |
| Generator.PassOutcome | Riff_Generator.py:359-443 | after the snap, a pass only appends notes, never takes the clock below the snap, and uses at least one draw from the front |
| Generator.IterationOutcome | Riff_Generator.py:355-443 | one pass from a state on the matrices stays on them, only appends notes, and uses at least one draw from the front |
| Generator.Run | Riff_Generator.py:355-443 | the loop as a function of its start: it ends with the clock at the riff's end or fewer draws than a pass needs, has only appended notes, and has used draws from the front only |
| Generator.RunStep | Riff_Generator.py:355-357 | while the clock is before the end and a pass's draws remain, the run goes on from the outcome of one more pass |
| Generator.RunStops | Riff_Generator.py:355 | once the clock reaches the end or the draws run short, the run is over |
| Generator.Score.constructor | Riff_Generator.py:36-43 | `CreateMIDIFile`: no notes, the clock at 0 |
| Generator.Score.AddNote | Riff_Generator.py:229 | `mf.addNote` appends exactly one note and leaves the clock |
| Generator.Score.Chord | Riff_Generator.py:224-231 | the note and its harmony, both for `length` beats at the chord velocity, and the clock moved on by `length` |
| Generator.Score.Note | Riff_Generator.py:233-238 | one note for `length` beats, the clock moved on by `length` |
| Generator.Score.Rest | Riff_Generator.py:240-242 | no note, the clock moved on by `length` |
| Generator.Score.DownPM | Riff_Generator.py:244-249 | the down-stroke pattern at the clock, the clock moved on by a beat |
| Generator.Score.UpDown | Riff_Generator.py:251-258 | the alternate-picking pattern at the clock, the clock moved on by a beat |
| Generator.Score.Gallop | Riff_Generator.py:260-266 | the gallop at the clock, the clock moved on by a beat |
| Generator.Score.RevGallop | Riff_Generator.py:268-274 | the reverse gallop at the clock, the clock moved on by a beat |
| Generator.Score.PalmMute | Riff_Generator.py:277-285 | a gallop, a reverse gallop or alternate picking on the first of up to three draws below 1/4, else down-strokes; the draws it consumed; the clock moved on by a beat |
| Generator.Score.UpDownShort | Riff_Generator.py:287-292 | a down- and an up-stroke, the clock moved on by half a beat |
| Generator.Score.PMChordShort | Riff_Generator.py:294-300 | the note and its harmony struck muted once, the clock moved on by half a beat |
| Generator.Score.PalmMuteShort | Riff_Generator.py:302-306 | on one draw, alternate picking below 1/2, else a muted chord; the clock moved on by half a beat |
| Generator.Score.PalmMuteOnOrOffBeat | Riff_Generator.py:367-370 | the short form exactly when the clock is off the beat; the stream moved on by one draw off the beat and, on it, one per pattern test up to the first below 1/4 (`PalmMuteDraws`); the riff stays sound |
| Generator.Score.PalmMuteBranch | Riff_Generator.py:361-373 | the chord's note when the draw exceeds `pPM`, else the root, played with its fifth; the new walk, clock, notes and stream are exactly `PalmMuteOutcome`; the riff stays sound; the palm-mute stickiness is raised and the others reset |
| Generator.ChordInterval | Riff_Generator.py:390-394 | the chord's harmony is always a third or a fifth |
| Generator.Score.ChordBranch | Riff_Generator.py:375-407 | the clipped chord length, a third on a draw below `pCH` else a fifth, muted on a draw below `pCH`; the new walk, clock, notes and stream are exactly `ChordOutcome`; the clock moved on by the length; the riff stays sound; the chord stickiness is raised |
| Generator.Score.ChordDraws | Riff_Generator.py:377-394 | the chord branch's draws: the length clipped to the time left and between 1/2 and 2 beats, the interval, whether muted |
| Generator.Score.ChordLengthDraw | Riff_Generator.py:377-385 | the chord length test on the stream agrees with `ChordLength` and consumes its draws |
| Generator.Score.ChordPlay | Riff_Generator.py:396-404 | exactly the muted stabs or the ringing chord are appended, the clock moves on by the whole length, and the riff stays sound |
| Generator.Score.MutedStabs | Riff_Generator.py:396-402 | one muted stab, a second when the chord lasts a beat or more, and the clock moved on by the whole length |
| Generator.Score.RingingChord | Riff_Generator.py:404 | the chord ringing for its length, the clock moved on by it |
| Generator.Score.MelodyBranch | Riff_Generator.py:409-433 | the note is drawn from the chord's or the current note's row with positive probability; its length is the clipped `NoteLength`; exactly that note is appended; the new walk, clock, notes and stream are exactly `MelodyOutcome`; melody stickiness 4 |
| Generator.Score.MelodyDraws | Riff_Generator.py:411-422 | back to the chord's note on a draw below `pN`; doubled below `pN`, else halved below `2 pN`; brought into range |
| Generator.Score.MelodyPlay | Riff_Generator.py:430 | one in-key note within the riff keeps it sound |
| Generator.Score.RestBranch | Riff_Generator.py:435-443 | half a beat or a whole one on one draw, no note, exactly `RestOutcome`; the riff sound though the clock may pass the end |
| Generator.Score.DrawCategory | Riff_Generator.py:362-436 | the category fired is the one `Dispatch` selects, after exactly the tests it needed |
| Generator.Score.Play | Riff_Generator.py:361-443 | from a poised clock, the fired category is the one `Dispatch` selects; the new walk, clock, notes and stream are exactly `Branch` of that category on the draws left after its tests; the riff stays sound and the state moves as `Moved` says |
| Generator.Score.SnapClock | Riff_Generator.py:359 | the clock snapped to the half beat, the riff poised, off the beat exactly at an odd count of half beats |
| Generator.Score.Pass | Riff_Generator.py:359-443 | a pass after the chord step: snap, then the fired category's branch; the new state is exactly `PassOutcome`; the riff kept sound |
| Generator.Score.Iteration | Riff_Generator.py:357-443 | the chord steps along `ct` with positive probability, then a pass as above; the new state is exactly `IterationOutcome` of the old one |
| Generator.Score.RiffGenerator | Riff_Generator.py:320-443 | the final walk, clock, notes and stream are exactly `Run` from the start state, so the stream fixes the whole riff; the loop ends with the clock at the riff's end or the stream low; the riff stays sound throughout and earlier notes are never changed |
| Riff.RiffLength | Riff_Generator.py:311-318 | `RiffLengthRandom` on the stream agrees with the pure choice and consumes its draws |
| Riff.PrefixBelowCeiling | Riff_Generator.py:132 | the label slice up to `highestNote` holds scale notes no higher than it |
| Riff.Matrices | Riff_Generator.py:131-181 | for inputs `RandomiseInputs` can produce, both matrices exist, share keys from the root up to `highestNote`, and the chord matrix stays positive on its diagonal |
| Riff.Tables | Riff_Generator.py:486-487 | `tf` and `mtf` for the inputs, with the properties the walk and the generator need |
| Riff.SongPart | Riff_Generator.py:484-495 | one song part as a function of the stream: no riff exactly when the draws run out before the length is chosen; otherwise the drawn length, and the riff ends at its length or with the stream low, having used draws from the front only |
| Riff.SongRiff | Riff_Generator.py:489-495 | the riff once its length is drawn ends at the length or with the stream low, and uses draws from the front of the stream only |
| Riff.VocabularyFits | Riff_Generator.py:488-495 | the vocabulary of a stopped walk, with the melody matrix, is a setting the generator can walk, and valid inputs give category priorities |
| Riff.SongPartIs | Riff_Generator.py:489-495 | once the length is drawn, the song part is `Run` from a fresh file on the vocabulary's matrix and the draws the length left |
| Riff.SongPartDetermined | Riff_Generator.py:484-495 | a fixed stream fixes the song part: any two walks that stop as the loop does give the same vocabulary and the same riff |
| Riff.GenerateFrom | Riff_Generator.py:488-495 | the vocabulary is the one the stopped walk keeps, from the root, without repeats, within the ceiling, with exactly `howManyChords` chords when a riff is produced; a riff is produced exactly when `SongPart` gives one, and then the length, the notes, the clock and the stream left are exactly `SongPart`'s; the riff is sound for its length |
| Riff.Generate | Riff_Generator.py:484-495 | one song part for valid inputs: the matrices are the two transfer functions and always meet the generator's needs; the vocabulary, the length, the notes and the stream left are exactly `SongPart` of the walk the stream dictates; the riff is sound for a length of 4, 8 or 16 beats |

## Left out

- The MIDI library is left out because it is a foreign library:
  - `MIDIFile`, `addTempo`, the tempo, the channel and the `"PM"` annotation;
  - `addNote` becomes appending an `Event` to the score;
  - `CreateMIDIFile` becomes the `Score` constructor.
- `WriteMIDIFile` is left out: it builds a file name from the date and time and writes a file, which is I/O.
- `Main`'s `repeats` and `songParts` loops are left out as outer glue. `Riff.Generate` models one song part. Later parts would call `RiffGenerator` again on a fresh score with the same matrices.
- `RandomiseInputs` becomes the predicate `Settings.ValidInputs`, stating the ranges of its draws. Its draws are not taken from the stream.
- numpy's generator and the float arithmetic of `np.random.choice` are left out:
  - draws are injected values in [0, 1);
  - `choice` is one draw mapped by inverse cumulative distribution.
- pandas and `pd.set_option` are left out:
  - degree labels (`'0'`, `'12'`, …) are their integer values;
  - DataFrames are key sequences with rows of rationals.
- Floating point is left out. Times and probabilities are exact rationals, so the rounding drift that the half-beat snap corrects never arises in the model.
- Chords.ChordsTransferFunction: the walk also stops when the stream runs dry. The source keeps drawing for ever when `howManyChords` distinct chords cannot be reached, so the exact length is promised only while draws remain.
- Generator.Score.RiffGenerator: the loop also stops when fewer draws remain than one pass can take (`MaxDraws`). The source has no such bound and can spin on idle passes.
- Generator.Score.RiffGenerator: the riff length is any whole number of beats rather than only 4, 8 or 16. The loop starts from any sound score, not only the fresh one.
- Division by a zero row total in the normalisations cannot occur: every row keeps a positive diagonal, and the model proves this instead of modelling NaN.
