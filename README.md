# MML compiler of Midi-Unreal, modelled in Dafny

This project models the Music Macro Language compiler `MML_LITE` of the
Procedural-Midi plugin. It also models the integer helpers of `UMidiUtils`.

The compiler reads a text such as `"t120 l8 cde,o4 c2&c"` one character at a
time. It turns notes, rests and volume commands into NoteOn, NoteOff and
Controller events on the current track. A comma opens a new track. The
model has these parts:

- `Classifier` holds the character categories (`get_char_type`) and the
  pitch classes (`get_note_value`).
- `Scanner` holds the modifier scanner (`parseModifiers`) as a function on
  the text. It proves what that function's record means: the last number of
  the run, its last accidental, and whether the run has a tie mark or a dot.
- `Dispatcher` holds the parser state as a value `Machine`.
  - `Step` is one iteration of `parseNote`'s loop.
  - `Run` is the whole loop.
  - `Start` and `Compile` are `parse` followed by `reset`.
- `Behaviour` proves what each command does, one at a time. It also proves
  properties of whole texts: NoteOn and Controller events in time order
  within every track, the two-note tie rule, one track per separator, and
  track numbering.
- `Examples` works out whole texts to their events from a fresh compiler.
- `MmlCompiler.MmlLite` is the class itself. Its fields are updated in
  place by methods shaped like the source's. Each method is proved to leave
  the state that the matching `Dispatcher` function computes.
- `MidiUtils` holds `NoteToChord` and the pitch-bend pack and unpack
  functions, together with their round-trip lemmas.

Modelling choices:

- Floating-point values (`curPos`, `speed`, `startPos`) are modelled as
  exact reals.
- The `unsigned int` fields `octave` and `note` wrap modulo 2^32.
  `playNote` receives the note through an `int` parameter, so the model
  reads it as a signed 32-bit value (`Signed32`).
- The tracks (`_tracks`) are a sequence of event sequences. The current
  track `_track` is always the last of them.
- `startPos`, `numNotes` and `volume` are never written by the compiler,
  so they are the configuration `Config`.
- A note or rest divides by the tempo, and by the default length when it
  carries no number. The model refuses only a run in which such a divisor
  is 0 when a note or rest needs it (`Completes`). An `L` or `T` with no
  number is accepted, and so is a zero default length that the next note
  overrides with its own number (`"LC4"`).

Where the code and the usual reading of the language differ, the model
follows the code:

- Event times are `curPos * 1000`, and `curPos` starts at `startPos = 1`.
  So `"C"` gives NoteOn at 1000 and NoteOff at 1250, not at 0 and 600.
- A NoteOff comes `speed * 1000` after its NoteOn, whatever the tempo.
  Only `moveTime` scales by `240 / tempo`, so the NoteOff meets the next
  note only at tempo 240 (`NoteOffAndTempo`).
- A note tied into the next one (`"C&C"`) emits one NoteOn and no NoteOff
  at all. The note after the tie emits neither event.
- Only a lower-case `o` sets the octave. With `O` the cursor moves one
  character, and its digits are then skipped one by one (`"O6C"` sounds at
  pitch 60).
- `L` or `T` with no digits sets the default length or tempo to 0. It does
  not leave them unchanged.
- `V` reads its number and drops it. The controller carries the unchanged
  `volume` field.
- A dot after a rest is ignored.
- In a modifier run, the last number wins. A blank splits a number, so
  `"C1 2"` is a half note.
- `parse` does not clear the earlier tracks. It does not reset `skipNext`
  or `note` either.

## Model

| member | source | states |
|---|---|---|
| Classifier.ToUpper | Procedural-Midi/MidiAsset/Source/Midi/Classes/MML/mml_lite.h:63 | lower-case ASCII letters map to the upper-case letter 32 code points below; every other character is unchanged |
| Classifier.NoteValue | Procedural-Midi/MidiAsset/Source/Midi/Classes/MML/mml_lite.h:39-59 | the result is -1 or one of 0,2,4,5,7,9,11; it is non-negative exactly for the letters A-G in either case |
| Classifier.CharTypeOf | Procedural-Midi/MidiAsset/Source/Midi/Classes/MML/mml_lite.h:61-106 | a character is a value exactly when it is a digit, and a track separator exactly when it is a comma |
| Classifier.CharTypeMeaning | Procedural-Midi/MidiAsset/Source/Midi/Classes/MML/mml_lite.h:61-106 | for each category, the exact set of characters in it (both directions); notes are exactly the characters with a pitch class |
| Classifier.CaseInsensitive | Procedural-Midi/MidiAsset/Source/Midi/Classes/MML/mml_lite.h:41-63 | category and pitch class are the same for a character, its upper case and its lower case |
| Classifier.DiatonicOrder | Procedural-Midi/MidiAsset/Source/Midi/Classes/MML/mml_lite.h:39-59 | C=0, B=11, and C<D<E<F<G<A<B |
| Scanner.DecimalValue | Procedural-Midi/MidiAsset/Source/Midi/Classes/MML/mml_lite.h:147 | a one-digit run has that digit's value |
| Scanner.DecimalAppend | Procedural-Midi/MidiAsset/Source/Midi/Classes/MML/mml_lite.h:143-147 | one more digit at the end makes the decimal value ten times the old one plus the digit |
| Scanner.ReadDigits | Procedural-Midi/MidiAsset/Source/Midi/Classes/MML/mml_lite.h:141-148 | the digit loop stops at the first non-digit or at the end, and passes no command character |
| Scanner.ReadDigitsValue | Procedural-Midi/MidiAsset/Source/Midi/Classes/MML/mml_lite.h:141-148 | the digit loop ends at the end of the maximal digit run, with the decimal value of the whole run |
| Scanner.ApplyMod | Procedural-Midi/MidiAsset/Source/Midi/Classes/MML/mml_lite.h:149-157 | a modifier keeps the number and the dot; the tie is set exactly by &; otherwise the accidental becomes +1 for + or # and -1 for anything else |
| Scanner.AfterChar | Procedural-Midi/MidiAsset/Source/Midi/Classes/MML/mml_lite.h:149-160 | a non-digit never changes the number; the dot flag is set exactly by ., the tie exactly by &, and only a modifier changes the accidental |
| Scanner.ScanChar | Procedural-Midi/MidiAsset/Source/Midi/Classes/MML/mml_lite.h:140-160 | one loop pass moves the cursor forward over no command character, and keeps the accidental in -1..1 |
| Scanner.ScanFrom | Procedural-Midi/MidiAsset/Source/Midi/Classes/MML/mml_lite.h:129-163 | the loop stops exactly at the first command character or at the end, and passes over no command |
| Scanner.ScanFromValues | Procedural-Midi/MidiAsset/Source/Midi/Classes/MML/mml_lite.h:129-161 | from any starting record, the result summarises the run: its last number, its last accidental, and any tie or dot |
| Scanner.Scan | Procedural-Midi/MidiAsset/Source/Midi/Classes/MML/mml_lite.h:123-164 | parseModifiers leaves the cursor no earlier than where it starts, at the next command character or at the end of the text |
| Scanner.ScanMeaning | Procedural-Midi/MidiAsset/Source/Midi/Classes/MML/mml_lite.h:123-164 | parseModifiers ends at the next command or the end of the text; value = last number (0 if none), halfStep = last accidental (0 if none), tie iff & in run, stop iff . in run |
| Dispatcher.Signed32 | Procedural-Midi/MidiAsset/Source/Midi/Classes/MML/mml_lite.h:182-186 | the unsigned note passed as int is the 32-bit signed value congruent to it modulo 2^32 |
| Dispatcher.LengthPositive | Procedural-Midi/MidiAsset/Source/Midi/Classes/MML/mml_lite.h:175-179 | with a number, or with a positive default length, every note and rest length is positive, and a dot never shortens it |
| Dispatcher.AppendToCurrent | Procedural-Midi/MidiAsset/Source/Midi/Classes/MML/mml_lite.h:110-113 | insertEvent adds the events at the end of the last track and leaves every other track unchanged |
| Dispatcher.Wrap32 | Procedural-Midi/MidiAsset/Source/Midi/Classes/MML/mml_lite.h:182-212 | unsigned arithmetic: a value in 0..2^32-1 is kept, one step below 0 (octave 0 minus 1) wraps to 2^32-1 and upward, one step above wraps down |
| Dispatcher.Fresh | Procedural-Midi/MidiAsset/Source/Midi/Classes/MML/mml_lite.h:19-37 | a newly constructed compiler has positive tempo and length, cursor 0, track 0, position startPos, no tracks and no pending tie |
| Dispatcher.MoveTime | Procedural-Midi/MidiAsset/Source/Midi/Classes/MML/mml_lite.h:116-119 | moveTime: the advance times the tempo is the length times 240, so doubling the tempo halves the advance |
| Dispatcher.NoteEvents | Procedural-Midi/MidiAsset/Source/Midi/Classes/MML/mml_lite.h:108-114 | playNote: a NoteOn at curPos*1000 first; a second event, a NoteOff of the same pitch and track one length*1000 later, exactly when the note is not tied |
| Dispatcher.Sounding | Procedural-Midi/MidiAsset/Source/Midi/Classes/MML/mml_lite.h:183-191 | the end of the note branch: the pending tie becomes this note's tie, the position moves by moveTime, events only go to the current track, and nothing else changes |
| Dispatcher.NoteStep | Procedural-Midi/MidiAsset/Source/Midi/Classes/MML/mml_lite.h:171-192 | the note branch moves the cursor past the modifier run and changes only speed, note, pending tie, position and the current track |
| Dispatcher.TrackStep | Procedural-Midi/MidiAsset/Source/Midi/Classes/MML/mml_lite.h:193-200 | the track branch: cursor and track number up by one, position back to startPos, one empty track appended, earlier tracks unchanged |
| Dispatcher.OctaveStep | Procedural-Midi/MidiAsset/Source/Midi/Classes/MML/mml_lite.h:201-214 | the octave branch changes only cursor and octave; only o reads a number, every other octave character moves the cursor by one |
| Dispatcher.LengthStep | Procedural-Midi/MidiAsset/Source/Midi/Classes/MML/mml_lite.h:215-220 | the length branch changes only cursor and default length, which is never negative |
| Dispatcher.VolumeStep | Procedural-Midi/MidiAsset/Source/Midi/Classes/MML/mml_lite.h:221-225 | the volume branch changes only cursor and tracks: the current track gains exactly one Controller 7 with the volume field |
| Dispatcher.RestStep | Procedural-Midi/MidiAsset/Source/Midi/Classes/MML/mml_lite.h:226-235 | the rest branch changes only cursor and position |
| Dispatcher.TempoStep | Procedural-Midi/MidiAsset/Source/Midi/Classes/MML/mml_lite.h:236-241 | the tempo branch changes only cursor and tempo, which is never negative |
| Dispatcher.Step | Procedural-Midi/MidiAsset/Source/Midi/Classes/MML/mml_lite.h:167-245 | each iteration of parseNote moves the cursor strictly forward and never past the end of the text |
| Dispatcher.StepAdvances | Procedural-Midi/MidiAsset/Source/Midi/Classes/MML/mml_lite.h:166-246 | each iteration consumes the command at the cursor and its modifier run, and passes over no later command |
| Dispatcher.StepRunnable | Procedural-Midi/MidiAsset/Source/Midi/Classes/MML/mml_lite.h:215-241 | when every L and T of the text carries a nonzero number and tempo and length start positive, each iteration is defined and keeps them positive |
| Dispatcher.StepNonNegative | Procedural-Midi/MidiAsset/Source/Midi/Classes/MML/mml_lite.h:215-241 | each iteration keeps tempo and default length non-negative, since they only take a digit run's value |
| Dispatcher.StepTracks | Procedural-Midi/MidiAsset/Source/Midi/Classes/MML/mml_lite.h:193-200 | tracks are only appended to; a comma, and only a comma, opens one track and increments the track number |
| Dispatcher.RunnableCompletes | Procedural-Midi/MidiAsset/Source/Midi/Classes/MML/mml_lite.h:166-246 | parseNote runs to the end without a zero divisor on any text whose every L and T carries a nonzero number |
| Dispatcher.Run | Procedural-Midi/MidiAsset/Source/Midi/Classes/MML/mml_lite.h:166-246 | parseNote, on a text where no note or rest meets a zero divisor, ends with the cursor at the end of the text, with the earlier tracks extended and never rewritten |
| Dispatcher.Start | Procedural-Midi/MidiAsset/Source/Midi/Classes/MML/mml_lite.h:248-267 | parse and reset restart cursor, track number and position, open a new empty track, and keep the pending tie |
| Dispatcher.Compile | Procedural-Midi/MidiAsset/Source/Midi/Classes/MML/mml_lite.h:248-260 | parse consumes the whole text, adds at least one track, and leaves the earlier tracks untouched |
| Behaviour.NoteCommand | Procedural-Midi/MidiAsset/Source/Midi/Classes/MML/mml_lite.h:171-192 | the whole state after a note, field by field: cursor, speed, note number, pending tie, position and events |
| Behaviour.NotePitch | Procedural-Midi/MidiAsset/Source/Midi/Classes/MML/mml_lite.h:182 | a note's number is octave*numNotes + pitch class + accidental, wrapped to 32 bits; it is exact when in range |
| Behaviour.Signed32Wrap | Procedural-Midi/MidiAsset/Source/Midi/Classes/MML/mml_lite.h:182-186 | wrapping to unsigned and reading back as signed is the identity on 32-bit signed values |
| Behaviour.NoteTiming | Procedural-Midi/MidiAsset/Source/Midi/Classes/MML/mml_lite.h:175-191 | length = NoteSpeed: 1/value, or 1/defaultLength without a number, times 1.5 if dotted; position += length*240/tempo; pending tie iff &; no other field changes |
| Behaviour.NoteEmits | Procedural-Midi/MidiAsset/Source/Midi/Classes/MML/mml_lite.h:183-187 | after a tie a note emits nothing; otherwise a NoteOn at curPos*1000, and a NoteOff one length later unless it is tied |
| Behaviour.RestCommand | Procedural-Midi/MidiAsset/Source/Midi/Classes/MML/mml_lite.h:226-235 | a rest emits nothing and moves the position by BaseLength, 1/value (or 1/defaultLength), ignoring a dot |
| Behaviour.TrackCommand | Procedural-Midi/MidiAsset/Source/Midi/Classes/MML/mml_lite.h:193-200 | a comma increments the track number, returns to startPos and appends an empty track |
| Behaviour.OctaveCommand | Procedural-Midi/MidiAsset/Source/Midi/Classes/MML/mml_lite.h:201-214 | > and < step the octave with 32-bit wrap (< from 0 gives 2^32-1); o assigns the number that follows; O moves only the cursor |
| Behaviour.LengthCommand | Procedural-Midi/MidiAsset/Source/Midi/Classes/MML/mml_lite.h:215-220 | L assigns the last number of its run to the default length and changes nothing else; a run without digits sets it to 0 |
| Behaviour.TempoCommand | Procedural-Midi/MidiAsset/Source/Midi/Classes/MML/mml_lite.h:236-241 | T assigns the last number of its run to the tempo and changes nothing else; a run without digits sets it to 0 |
| Behaviour.NoNumberIsZero | Procedural-Midi/MidiAsset/Source/Midi/Classes/MML/mml_lite.h:125-147 | the record starts cleared, so a modifier run with no digits carries the number 0 |
| Behaviour.VolumeCommand | Procedural-Midi/MidiAsset/Source/Midi/Classes/MML/mml_lite.h:221-225 | V emits Controller 7 at curPos*1000 with the unchanged volume, whatever number follows it |
| Behaviour.StrayCharacter | Procedural-Midi/MidiAsset/Source/Midi/Classes/MML/mml_lite.h:242-244 | a digit, modifier, dot or unknown character outside a run only moves the cursor by one |
| Behaviour.StepMoves | Procedural-Midi/MidiAsset/Source/Midi/Classes/MML/mml_lite.h:171-235 | with non-negative tempo and length, a note or rest has a positive length and moves the position by exactly moveTime of it |
| Behaviour.StepStays | Procedural-Midi/MidiAsset/Source/Midi/Classes/MML/mml_lite.h:201-244 | every command other than a note, a rest or a comma leaves the position unchanged |
| Behaviour.StepSilent | Procedural-Midi/MidiAsset/Source/Midi/Classes/MML/mml_lite.h:201-241 | only a note, a V and a comma change the tracks |
| Behaviour.StepTime | Procedural-Midi/MidiAsset/Source/Midi/Classes/MML/mml_lite.h:166-246 | only a comma moves time back; every other step keeps it, and every note and rest moves it strictly forward |
| Behaviour.MoveTimeForward | Procedural-Midi/MidiAsset/Source/Midi/Classes/MML/mml_lite.h:116-119 | with a positive tempo, a positive length moves the position strictly forward |
| Behaviour.AdvanceAgainstLength | Procedural-Midi/MidiAsset/Source/Midi/Classes/MML/mml_lite.h:116-119 | moveTime moves a positive length exactly that far only at tempo 240; further below 240 and less far above it |
| Behaviour.NoteOffAndTempo | Procedural-Midi/MidiAsset/Source/Midi/Classes/MML/mml_lite.h:108-119 | a note's NoteOff lands where the next command starts exactly when the tempo is 240; earlier at a slower tempo, later at a faster one |
| Behaviour.TieJoinsTwoNotes | Procedural-Midi/MidiAsset/Source/Midi/Classes/MML/mml_lite.h:183-191 | two notes joined by a tie emit exactly one NoteOn, for the first note, and no NoteOff; the pending tie afterwards is the second note's own |
| Behaviour.TieFirst | Procedural-Midi/MidiAsset/Source/Midi/Classes/MML/mml_lite.h:183-191 | a tied note after no pending tie emits only its NoteOn and leaves a tie pending |
| Behaviour.NoteTie | Procedural-Midi/MidiAsset/Source/Midi/Classes/MML/mml_lite.h:183-191 | a note leaves pending exactly its own tie, and emits nothing when a tie was pending |
| Behaviour.RunCountsTracks | Procedural-Midi/MidiAsset/Source/Midi/Classes/MML/mml_lite.h:166-246 | parseNote opens exactly one track per comma left in the text, and the track number rises by the same count |
| Behaviour.NoteNumbered | Procedural-Midi/MidiAsset/Source/Midi/Classes/MML/mml_lite.h:108-114 | a note's events carry the number of the track they are inserted into |
| Behaviour.StepNumbered | Procedural-Midi/MidiAsset/Source/Midi/Classes/MML/mml_lite.h:166-246 | each step keeps every event's track number equal to the position of its track |
| Behaviour.RunNumbered | Procedural-Midi/MidiAsset/Source/Midi/Classes/MML/mml_lite.h:166-246 | parseNote keeps every event's track number equal to the position of its track |
| Behaviour.CompileTracks | Procedural-Midi/MidiAsset/Source/Midi/Classes/MML/mml_lite.h:248-260 | parse adds 1 + (number of commas) tracks, ends with the track counter at the number of commas, leaves the earlier tracks unchanged, and numbers the k-th new track k |
| Behaviour.AppendInOrder | Procedural-Midi/MidiAsset/Source/Midi/Classes/MML/mml_lite.h:108-114 | NoteOn and Controller events at the current time, appended to a track with nothing later, keep it in time order |
| Behaviour.EmitOrdered | Procedural-Midi/MidiAsset/Source/Midi/Classes/MML/mml_lite.h:108-119 | emitting at the position and then moving forward keeps every track in order with nothing after the new position |
| Behaviour.NoteOrdered | Procedural-Midi/MidiAsset/Source/Midi/Classes/MML/mml_lite.h:171-192 | a note keeps the tracks in time order |
| Behaviour.TrackOrdered | Procedural-Midi/MidiAsset/Source/Midi/Classes/MML/mml_lite.h:193-200 | a comma keeps the tracks in time order: the new track is empty |
| Behaviour.StepOrdered | Procedural-Midi/MidiAsset/Source/Midi/Classes/MML/mml_lite.h:166-246 | every iteration keeps NoteOn and Controller times non-decreasing in every track |
| Behaviour.RunOrdered | Procedural-Midi/MidiAsset/Source/Midi/Classes/MML/mml_lite.h:166-246 | parseNote keeps NoteOn and Controller times non-decreasing in every track |
| Behaviour.CompileOrdered | Procedural-Midi/MidiAsset/Source/Midi/Classes/MML/mml_lite.h:248-260 | in every track parse opens, NoteOn and Controller times never decrease |
| Examples.SingleNote | Procedural-Midi/MidiAsset/Source/Midi/Classes/MML/mml_lite.h:248-260 | "C" gives NoteOn(1000, track 0, pitch 60, 127) and NoteOff(1250), and ends at position 1.6 |
| Examples.TiedNotes | Procedural-Midi/MidiAsset/Source/Midi/Classes/MML/mml_lite.h:183-191 | "C&C" gives a single NoteOn at 1000 and no NoteOff, and ends at position 2.2 |
| Examples.SecondTrack | Procedural-Midi/MidiAsset/Source/Midi/Classes/MML/mml_lite.h:193-200 | ",C" gives an empty track 0, and a track 1 with the note at 1000/1250 carrying track number 1 |
| Examples.DottedNote | Procedural-Midi/MidiAsset/Source/Midi/Classes/MML/mml_lite.h:178-179 | "C4." makes the NoteOff come at 1375, one and a half quarters after the NoteOn |
| Examples.VolumeIgnoresValue | Procedural-Midi/MidiAsset/Source/Midi/Classes/MML/mml_lite.h:221-225 | "V50" gives Controller(1000, 0, 7, 127) |
| Examples.RestIgnoresDot | Procedural-Midi/MidiAsset/Source/Midi/Classes/MML/mml_lite.h:226-235 | "R." moves from 1 to 1.6 like "R" and emits nothing |
| Examples.BlankSplitsNumber | Procedural-Midi/MidiAsset/Source/Midi/Classes/MML/mml_lite.h:141-148 | "C1 2" leaves speed 1/2: a half note, where "C12" is a twelfth |
| Examples.JoinedNumber | Procedural-Midi/MidiAsset/Source/Midi/Classes/MML/mml_lite.h:141-148 | "C12" leaves speed 1/12: the digits of a run form one number |
| Examples.UpperCaseOctaveSkips | Procedural-Midi/MidiAsset/Source/Midi/Classes/MML/mml_lite.h:210-213 | in "O6C" the O and the 6 are each passed over without changing the octave |
| Examples.UpperCaseOctave | Procedural-Midi/MidiAsset/Source/Midi/Classes/MML/mml_lite.h:201-214 | "O6C" sounds at pitch 60 |
| Examples.LowerCaseOctave | Procedural-Midi/MidiAsset/Source/Midi/Classes/MML/mml_lite.h:210-213 | "o6c" sounds at pitch 72 |
| Examples.LengthZeroThenNumber | Procedural-Midi/MidiAsset/Source/Midi/Classes/MML/mml_lite.h:171-220 | "LC4" compiles: L sets the default length to 0, and the note still lasts a quarter (NoteOff at 1250) |
| Examples.TrailingLength | Procedural-Midi/MidiAsset/Source/Midi/Classes/MML/mml_lite.h:215-220 | "CL" compiles and ends with default length 0 |
| MmlCompiler.MmlLite.constructor | Procedural-Midi/MidiAsset/Source/Midi/Classes/MML/mml_lite.h:19-37 | the member initialisers: index 0, numNotes 12, octave 5, tempo 100, length 4, speed 1/4, position = startPos = 1, volume 127, no tracks |
| MmlCompiler.MmlLite.MoveTime | Procedural-Midi/MidiAsset/Source/Midi/Classes/MML/mml_lite.h:116-119 | curPos advances by speed*(240/tempo) and nothing else changes |
| MmlCompiler.MmlLite.Insert | Procedural-Midi/MidiAsset/Source/Midi/Classes/MML/mml_lite.h:110 | the event is appended to the current (last) track |
| MmlCompiler.MmlLite.PlayNote | Procedural-Midi/MidiAsset/Source/Midi/Classes/MML/mml_lite.h:108-114 | the current track gains NoteOn at curPos*1000 and, unless tied, NoteOff at (curPos+speed)*1000 |
| MmlCompiler.MmlLite.ParseModifiers | Procedural-Midi/MidiAsset/Source/Midi/Classes/MML/mml_lite.h:123-164 | the loop returns the record and cursor that Scan computes, which ScanMeaning characterises |
| MmlCompiler.MmlLite.ReadNumber | Procedural-Midi/MidiAsset/Source/Midi/Classes/MML/mml_lite.h:141-148 | the digit loop ends past the first digit with the value and end ReadDigits computes |
| MmlCompiler.MmlLite.ParseCommand | Procedural-Midi/MidiAsset/Source/Midi/Classes/MML/mml_lite.h:167-245 | one loop iteration leaves exactly the state Step computes |
| MmlCompiler.MmlLite.NoteCommand | Procedural-Midi/MidiAsset/Source/Midi/Classes/MML/mml_lite.h:171-192 | the note branch leaves exactly the state Step computes |
| MmlCompiler.MmlLite.ReadNote | Procedural-Midi/MidiAsset/Source/Midi/Classes/MML/mml_lite.h:173-182 | the cursor passes the run, speed = note length, note = wrapped octave*numNotes + class + accidental; returns the tie flag |
| MmlCompiler.MmlLite.Sound | Procedural-Midi/MidiAsset/Source/Midi/Classes/MML/mml_lite.h:183-191 | plays the note unless a tie is pending, moves time, and sets the pending tie to this note's tie |
| MmlCompiler.MmlLite.TrackCommand | Procedural-Midi/MidiAsset/Source/Midi/Classes/MML/mml_lite.h:193-200 | the track branch leaves exactly the state Step computes |
| MmlCompiler.MmlLite.NextTrack | Procedural-Midi/MidiAsset/Source/Midi/Classes/MML/mml_lite.h:193-200 | cursor and track number go up by one, curPos = startPos, and one empty track is appended |
| MmlCompiler.MmlLite.OctaveCommand | Procedural-Midi/MidiAsset/Source/Midi/Classes/MML/mml_lite.h:201-214 | the octave branch leaves exactly the state Step computes |
| MmlCompiler.MmlLite.SetOctave | Procedural-Midi/MidiAsset/Source/Midi/Classes/MML/mml_lite.h:201-214 | the octave branch leaves the state OctaveStep computes |
| MmlCompiler.MmlLite.LengthCommand | Procedural-Midi/MidiAsset/Source/Midi/Classes/MML/mml_lite.h:215-220 | the length branch leaves exactly the state Step computes |
| MmlCompiler.MmlLite.Argument | Procedural-Midi/MidiAsset/Source/Midi/Classes/MML/mml_lite.h:217-218 | the cursor passes the command and its run, and the run's number is returned |
| MmlCompiler.MmlLite.VolumeCommand | Procedural-Midi/MidiAsset/Source/Midi/Classes/MML/mml_lite.h:221-225 | the volume branch leaves exactly the state Step computes |
| MmlCompiler.MmlLite.VolumeEvent | Procedural-Midi/MidiAsset/Source/Midi/Classes/MML/mml_lite.h:221-225 | the cursor passes the run, and Controller 7 with the volume field is appended to the current track |
| MmlCompiler.MmlLite.RestCommand | Procedural-Midi/MidiAsset/Source/Midi/Classes/MML/mml_lite.h:226-235 | the rest branch leaves exactly the state Step computes |
| MmlCompiler.MmlLite.AdvanceRest | Procedural-Midi/MidiAsset/Source/Midi/Classes/MML/mml_lite.h:226-235 | the cursor passes the run, and curPos moves by the undotted length |
| MmlCompiler.MmlLite.TempoCommand | Procedural-Midi/MidiAsset/Source/Midi/Classes/MML/mml_lite.h:236-241 | the tempo branch leaves exactly the state Step computes |
| MmlCompiler.MmlLite.StrayCharacter | Procedural-Midi/MidiAsset/Source/Midi/Classes/MML/mml_lite.h:242-244 | the fall-through branch leaves exactly the state Step computes (cursor + 1) |
| MmlCompiler.MmlLite.ParseNote | Procedural-Midi/MidiAsset/Source/Midi/Classes/MML/mml_lite.h:166-246 | the loop leaves exactly the state Run computes, so every Behaviour property of Run holds of it |
| MmlCompiler.MmlLite.Reset | Procedural-Midi/MidiAsset/Source/Midi/Classes/MML/mml_lite.h:262-267 | speed 1/4, octave 5, tempo 100, default length 4 |
| MmlCompiler.MmlLite.Parse | Procedural-Midi/MidiAsset/Source/Midi/Classes/MML/mml_lite.h:248-260 | on a text where no note or rest meets a zero divisor, parse takes the text and leaves exactly the state Compile computes (see CompileTracks, CompileOrdered) |
| MmlCompiler.MmlLite.Begin | Procedural-Midi/MidiAsset/Source/Midi/Classes/MML/mml_lite.h:248-257 | the state before parseNote is the one Start computes |
| MidiUtils.NoteToChord | Procedural-Midi/MidiAsset/Source/Midi/Private/MidiUtils.cpp:51-53 | the pitch class is below 12 and congruent to the note modulo 12 |
| MidiUtils.ChordPeriodic | Procedural-Midi/MidiAsset/Source/Midi/Private/MidiUtils.cpp:51-53 | notes any number of octaves apart have the same pitch class |
| MidiUtils.ChordOfLetter | Procedural-Midi/MidiAsset/Source/Midi/Private/MidiUtils.cpp:51-53 | the pitch class of a letter note in any octave is the letter's get_note_value |
| MidiUtils.GetPitchBendAmount | Procedural-Midi/MidiAsset/Source/Midi/Private/MidiUtils.cpp:55-60 | the low 7 bits of data2 go above data1; the upper bit of data2 is dropped; the result is 14-bit when data1 < 128 |
| MidiUtils.ConvertPitchBendAmount | Procedural-Midi/MidiAsset/Source/Midi/Private/MidiUtils.cpp:62-66 | both bytes are 7-bit, and data2*128 + data1 is the amount's low 14 bits |
| MidiUtils.LowBits | Procedural-Midi/MidiAsset/Source/Midi/Private/MidiUtils.cpp:56 | masking a byte with 0x7F is its remainder by 128 |
| MidiUtils.Split14 | Procedural-Midi/MidiAsset/Source/Midi/Private/MidiUtils.cpp:64-65 | on a 14-bit value, & 0x7F and >> 7 are the remainder and quotient by 128 |
| MidiUtils.PackAfterConvert | Procedural-Midi/MidiAsset/Source/Midi/Private/MidiUtils.cpp:55-66 | packing the unpacked bytes gives the amount's low 14 bits, and so the amount itself for 0..16383 |
| MidiUtils.ConvertAfterPack | Procedural-Midi/MidiAsset/Source/Midi/Private/MidiUtils.cpp:55-66 | unpacking a packed pair gives back data1 and the low 7 bits of data2, when data1 < 128 |

## Left out

- Floating point: `curPos`, `speed` and `startPos` are `float` in the source. The model uses exact reals, so rounding is not modelled.
- Division by zero: a note or rest at tempo 0, or one with no number at default length 0, divides by zero, which gives infinity in `float`. The model does not follow a text past such a command.
- MmlCompiler.MmlLite.Parse: requires `Completes`, i.e. no note or rest of the text meets a zero divisor. It does not model the infinite times that such a command produces.
- Behaviour.StepTime: requires `NonNegative`, i.e. tempo and default length are not negative. This always holds after `parse`, given exact `atoi` (see below); a caller who sets the public fields negative and calls `parseNote` directly makes time run backwards.
- Behaviour.StepMoves: requires `NonNegative`, i.e. tempo and default length are not negative. This always holds after `parse`, given exact `atoi` (see below); a caller who sets the public fields negative and calls `parseNote` directly makes time run backwards.
- Behaviour.NoteOffAndTempo: requires `NonNegative`, i.e. tempo and default length are not negative. This always holds after `parse`, given exact `atoi` (see below); a caller who sets the public fields negative and calls `parseNote` directly makes time run backwards.
- Behaviour.StepOrdered: requires `NonNegative`, i.e. tempo and default length are not negative. This always holds after `parse`, given exact `atoi` (see below); a caller who sets the public fields negative and calls `parseNote` directly makes time run backwards.
- Behaviour.RunOrdered: requires `NonNegative`, i.e. tempo and default length are not negative. This always holds after `parse`, given exact `atoi` (see below); a caller who sets the public fields negative and calls `parseNote` directly makes time run backwards.
- Upper-casing: `ntlibc_toupper` is assumed to map exactly the ASCII letters a-z to A-Z and leave every other character alone (`Classifier.ToUpper`). `ntlibc_toupper` is not part of this model.
- Integer overflow of `atoi`: a digit run's value is its exact decimal value, with no 32-bit overflow. `ntlibc_atoi` is not part of this model.
- Channels: the compiler passes the track counter `track` to the `NoteOn`, `NoteOff` and `Controller` constructors (mml_lite.h lines 110, 113 and 224), and the model names that slot `track`. Playback reads that slot back as the MIDI channel, masked to 4 bits (`getChannel() & 0x0F`, MidiComponent.cpp line 160), so from the 17th track on, tracks share channels. The model does not follow the channel mapping.
- The `int` fields `tempo` and `defaultLength` and the `unsigned` field `track` do not wrap in the model. Only `octave` and `note` wrap.
- `insertEvent`: the model keeps each track's events in the order they are emitted. Where `insertEvent` places an event within a `MidiTrack` is not shown in the source files; `MidiTrack` is not part of this model.
- Event objects are values: the conversion of `curPos * 1000` to ticks inside the `NoteOn`, `NoteOff` and `Controller` constructors is not modelled.
- Pointers: `source = &data` keeps the address of a by-value argument, and `parseModifiers` returns a static array. The model holds the text as a value and returns the record as a value, so aliasing through the static array is not modelled.
- The unused members `delay` and `value` have no counterpart.
- The frequency functions of `UMidiUtils` (lines 10-49 of MidiUtils.cpp) use floating point and logarithms and are not modelled.
- `ENoteEnum` is declared in MidiUtils.h, which is not part of this model. `NoteToChord` returns the enumerator's ordinal 0..11.
- `ConvertPitchBendAmount` writes through two reference parameters. The model returns the pair.
- `MidiComponent` (loading, playback, threads) is not part of this model.
