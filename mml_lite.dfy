/** The MML compiler as the source has it: an object whose methods move a
    cursor over the text and update its fields in place. Every method is
    proved to do what the corresponding function of Scanner and Dispatcher
    says, so everything proved about those functions holds of the object. */
module MmlCompiler {
  import opened Classifier
  import opened Scanner
  import opened Dispatcher
  import Behaviour

  class MmlLite {
    var note: u32
    var numNotes: u32
    var defaultLength: int
    var index: nat
    var track: nat
    var startPos: real
    var curPos: real
    var speed: real
    var octave: u32
    var tempo: int
    var volume: u32
    var source: string
    var skipNext: bool
    /** _tracks; the current track _track is its last element. */
    var tracks: seq<seq<Event>>

    /** The parser state as a value. */
    ghost function State(): Machine
      reads this
    {
      Machine(index, octave, tempo, defaultLength, curPos, speed, note, track, skipNext, tracks)
    }

    /** The settings that parsing reads but never writes. */
    ghost function Cfg(): Config
      reads this`startPos, this`numNotes, this`volume
    {
      Config(startPos, numNotes, volume)
    }

    /** The member initialisers. */
    constructor ()
      ensures State() == Fresh(Cfg()) && Cfg() == DefaultConfig && source == []
    {
      note := 0;
      numNotes := 12;
      defaultLength := 4;
      index := 0;
      track := 0;
      startPos := 1.0;
      curPos := 1.0;
      speed := 0.25;
      octave := 5;
      tempo := 100;
      volume := 127;
      source := [];
      skipNext := false;
      tracks := [];
    }

    /** moveTime. */
    method MoveTime(length: real)
      requires tempo != 0
      modifies this`curPos
      ensures curPos == Dispatcher.MoveTime(old(curPos), length, tempo)
    {
      var timeIndex := length * (240.0 / tempo as real);
      curPos := curPos + timeIndex;
    }

    /** insertEvent on the current track _track, the last of the tracks. */
    method Insert(e: Event)
      requires |tracks| > 0
      modifies this`tracks
      ensures tracks == AppendToCurrent(old(tracks), [e])
    {
      var k := |tracks| - 1;
      tracks := tracks[..k] + [tracks[k] + [e]];
    }

    /** playNote: a note-on, and a note-off one length later unless the
        note is tied, go to the current track. */
    method PlayNote(pitch: int, length: real, tie: bool)
      requires |tracks| > 0
      modifies this`tracks
      ensures tracks == AppendToCurrent(old(tracks), NoteEvents(curPos, length, track, pitch, volume, tie))
    {
      var on := NoteOn(curPos * 1000.0, track, pitch, volume);
      Insert(on);
      if tie {
        assert [on] + [] == [on];
      } else {
        var off := NoteOff((curPos + length) * 1000.0, track, pitch, 0);
        Insert(off);
        AppendTwice(old(tracks), [on], [off]);
      }
    }

    /** parseModifiers: the record and the cursor it leaves are those of
        Scan, whose meaning Scanner.ScanMeaning states. */
    method ParseModifiers() returns (mods: Modifiers)
      requires index <= |source|
      modifies this`index
      ensures Scanned(mods, index) == Scan(source, old(index))
    {
      mods := NoMods;
      var i := index;
      while i < |source|
        invariant old(index) <= i <= |source|
        invariant ScanFrom(source, i, mods) == Scan(source, old(index))
        decreases |source| - i
      {
        var cur := source[i];
        var t := CharTypeOf(cur);
        if t.IsCommand() {
          break;
        }
        ghost var step := ScanChar(source, i, mods);
        if t == Val {
          var value, end := ReadNumber(i);
          // The loop's own i++ steps over the last digit.
          i := end - 1;
          mods := mods.(value := value);
        } else if t == Mod {
          if cur == '+' || cur == '#' {
            mods := mods.(halfStep := 1);
          } else if cur == '&' {
            mods := mods.(tie := true);
          } else {
            mods := mods.(halfStep := -1);
          }
        } else if t == Stop {
          mods := mods.(stop := true);
        }
        i := i + 1;
        assert Scanned(mods, i) == step;
      }
      index := i;
    }

    /** The inner loop of parseModifiers: the digits from start are
        collected and converted, and end is just past the last of them. */
    method ReadNumber(start: nat) returns (value: nat, end: nat)
      requires start < |source| && IsDigit(source[start])
      ensures start < end <= |source|
      ensures Number(value, end) == ReadDigits(source, start, 0)
    {
      var v: seq<char> := [];
      end := start;
      while end < |source| && IsDigit(source[end])
        invariant start <= end <= |source|
        invariant AllDigits(v)
        invariant ReadDigits(source, end, DecimalValue(v)) == ReadDigits(source, start, 0)
        decreases |source| - end
      {
        DecimalAppend(v, source[end]);
        v := v + [source[end]];
        end := end + 1;
      }
      value := DecimalValue(v);
    }

    /** One iteration of parseNote's loop: the command at the cursor is
        dispatched on its character type. */
    method ParseCommand()
      requires Ready(State(), source)
      modifies this`index, this`curPos, this`speed, this`note, this`octave, this`tempo,
               this`defaultLength, this`track, this`skipNext, this`tracks
      ensures State() == Step(old(State()), old(source), old(Cfg()))
    {
      match CharTypeOf(source[index])
      case Note => NoteCommand();
      case Trk => TrackCommand();
      case Oct => OctaveCommand();
      case Len => LengthCommand();
      case Vol => VolumeCommand();
      case Rest => RestCommand();
      case Tempo => TempoCommand();
      case _ => StrayCharacter();
    }

    /** A note: ReadNote reads its length and pitch, then Sound plays it
        and moves the time on. */
    method NoteCommand()
      requires Ready(State(), source) && CharTypeOf(source[index]) == Note
      modifies this`index, this`curPos, this`speed, this`note, this`skipNext, this`tracks
      ensures State() == Step(old(State()), old(source), old(Cfg()))
    {
      ghost var before, src, cfg := State(), source, Cfg();
      assert Step(before, src, cfg) == NoteStep(before, src, cfg);
      var tie := ReadNote();
      Sound(tie);
    }

    /** The start of the note branch of parseNote: the cursor passes the
        modifier run; the length is 1/value or 1/defaultLength, half as
        long again when dotted; the pitch is octave * numNotes + pitch
        class + accidental in unsigned 32-bit arithmetic. */
    method ReadNote() returns (tie: bool)
      requires index < |source| && (Scan(source, index + 1).mods.value != 0 || defaultLength != 0)
      modifies this`index, this`speed, this`note
      ensures var s := Scan(source, old(index) + 1);
              && State() == old(State()).(index := s.next, speed := NoteSpeed(s.mods, defaultLength),
                   note := Wrap32(octave * numNotes + NoteValue(source[old(index)]) + s.mods.halfStep))
              && tie == s.mods.tie
    {
      var cur := source[index];
      index := index + 1;
      var mods := ParseModifiers();
      // 1/defaultLength is only taken when the note carries no number: the
      // source takes it first and overwrites it, which is the same value.
      var length: real;
      if mods.value != 0 {
        length := 1.0 / mods.value as real;
      } else {
        length := 1.0 / defaultLength as real;
      }
      if mods.stop {
        length := length * 1.5;
      }
      assert length == NoteSpeed(mods, defaultLength);
      speed := length;
      note := Wrap32(octave * numNotes + NoteValue(cur) + mods.halfStep);
      tie := mods.tie;
    }

    /** The end of the note branch of parseNote: the note is played unless
        the previous note tied into it, the time moves on, and a tie on
        this note makes the next one silent. */
    method Sound(tie: bool)
      requires |tracks| > 0 && tempo != 0
      modifies this`curPos, this`skipNext, this`tracks
      ensures State() == Sounding(old(State()), Cfg(), tie)
    {
      if skipNext {
        skipNext := false;
        AppendNothing(tracks);
      } else {
        PlayNote(Signed32(note), speed, tie);
      }
      MoveTime(speed);
      if tie {
        skipNext := true;
      }
    }

    /** A track separator. */
    method TrackCommand()
      requires Ready(State(), source) && CharTypeOf(source[index]) == Trk
      modifies this`index, this`track, this`curPos, this`tracks
      ensures State() == Step(old(State()), old(source), old(Cfg()))
    {
      assert Step(State(), source, Cfg()) == TrackStep(State(), Cfg());
      NextTrack();
    }

    /** The track branch of parseNote: the next track, back at startPos. */
    method NextTrack()
      modifies this`index, this`track, this`curPos, this`tracks
      ensures index == old(index) + 1 && track == old(track) + 1
      ensures curPos == startPos && tracks == old(tracks) + [[]]
    {
      index := index + 1;
      track := track + 1;
      curPos := startPos;
      tracks := tracks + [[]];
    }

    /** An octave command. */
    method OctaveCommand()
      requires Ready(State(), source) && CharTypeOf(source[index]) == Oct
      modifies this`index, this`octave
      ensures State() == Step(old(State()), old(source), old(Cfg()))
    {
      assert Step(State(), source, Cfg()) == OctaveStep(State(), source);
      SetOctave();
    }

    /** The octave branch of parseNote: > and < step the octave (as an
        unsigned 32-bit number), a lower-case o sets it from the number that
        follows, and an upper-case O only moves the cursor. */
    method SetOctave()
      requires index < |source|
      modifies this`index, this`octave
      ensures State() == OctaveStep(old(State()), source)
    {
      var cur := source[index];
      index := index + 1;
      if cur == '>' {
        octave := Wrap32(octave + 1);
      } else if cur == '<' {
        octave := Wrap32(octave - 1);
      } else if cur == 'o' {
        var mods := ParseModifiers();
        octave := Wrap32(mods.value);
      }
    }

    /** A default-length command. */
    method LengthCommand()
      requires Ready(State(), source) && CharTypeOf(source[index]) == Len
      modifies this`index, this`defaultLength
      ensures State() == Step(old(State()), old(source), old(Cfg()))
    {
      assert Step(State(), source, Cfg()) == LengthStep(State(), source);
      var value := Argument();
      defaultLength := value;
    }

    /** The number that follows a command letter; the cursor passes the
        letter and its modifier run. */
    method Argument() returns (value: int)
      requires index < |source|
      modifies this`index
      ensures var s := Scan(source, old(index) + 1);
              index == s.next && value == s.mods.value
    {
      index := index + 1;
      var mods := ParseModifiers();
      value := mods.value;
    }

    /** A volume command: its number is read and dropped, and a controller
        event with the fixed volume goes to the current track. */
    method VolumeCommand()
      requires Ready(State(), source) && CharTypeOf(source[index]) == Vol
      modifies this`index, this`tracks
      ensures State() == Step(old(State()), old(source), old(Cfg()))
    {
      ghost var before, src, cfg := State(), source, Cfg();
      assert Step(before, src, cfg) == VolumeStep(before, src, cfg);
      VolumeEvent();
      assert State() == VolumeStep(before, src, cfg);
    }

    /** The volume branch of parseNote. */
    method VolumeEvent()
      requires index < |source| && |tracks| > 0
      modifies this`index, this`tracks
      ensures index == Scan(source, old(index) + 1).next
      ensures tracks == AppendToCurrent(old(tracks), [Controller(curPos * 1000.0, track, 7, volume)])
    {
      var _ := Argument();
      Insert(Controller(curPos * 1000.0, track, 7, volume));
    }

    /** A rest: the time moves on by its length; a dot is ignored. */
    method RestCommand()
      requires Ready(State(), source) && CharTypeOf(source[index]) == Rest
      modifies this`index, this`curPos
      ensures State() == Step(old(State()), old(source), old(Cfg()))
    {
      assert Step(State(), source, Cfg()) == RestStep(State(), source);
      AdvanceRest();
    }

    /** The rest branch of parseNote. */
    method AdvanceRest()
      requires index < |source| && tempo != 0
      requires Scan(source, index + 1).mods.value != 0 || defaultLength != 0
      modifies this`index, this`curPos
      ensures var s := Scan(source, old(index) + 1);
              index == s.next && curPos == Dispatcher.MoveTime(old(curPos), BaseLength(s.mods, defaultLength), tempo)
    {
      index := index + 1;
      var mods := ParseModifiers();
      var length: real;
      if mods.value != 0 {
        length := 1.0 / mods.value as real;
      } else {
        length := 1.0 / defaultLength as real;
      }
      MoveTime(length);
    }

    /** A tempo command. */
    method TempoCommand()
      requires Ready(State(), source) && CharTypeOf(source[index]) == Tempo
      modifies this`index, this`tempo
      ensures State() == Step(old(State()), old(source), old(Cfg()))
    {
      assert Step(State(), source, Cfg()) == TempoStep(State(), source);
      var value := Argument();
      tempo := value;
    }

    /** Any other character: parseNote's loop steps over it. */
    method StrayCharacter()
      requires Ready(State(), source) && !CharTypeOf(source[index]).IsCommand()
      modifies this`index
      ensures State() == Step(old(State()), old(source), old(Cfg()))
    {
      Behaviour.StrayCharacter(State(), source, Cfg());
      index := index + 1;
    }

    /** parseNote: the state it leaves is the one Run computes. */
    method ParseNote()
      requires Completes(State(), source, Cfg())
      modifies this`index, this`curPos, this`speed, this`note, this`octave, this`tempo,
               this`defaultLength, this`track, this`skipNext, this`tracks
      ensures State() == Run(old(State()), source, Cfg())
    {
      while index < |source|
        invariant Completes(State(), source, Cfg())
        invariant Run(State(), source, Cfg()) == Run(old(State()), source, Cfg())
        decreases |source| - index
      {
        ParseCommand();
      }
    }

    /** reset. */
    method Reset()
      modifies this`speed, this`octave, this`tempo, this`defaultLength
      ensures speed == 0.25 && octave == 5 && tempo == 100 && defaultLength == 4
    {
      speed := 1.0 / 4.0;
      octave := 5;
      tempo := 100;
      defaultLength := 4;
    }

    /** parse: the state it leaves is the one Compile computes. */
    method Parse(data: string)
      requires Completes(Start(State(), Cfg()), data, Cfg())
      modifies this`source, this`index, this`curPos, this`speed, this`note, this`octave, this`tempo,
               this`defaultLength, this`track, this`skipNext, this`tracks
      ensures source == data
      ensures State() == Compile(old(State()), data, Cfg())
    {
      Begin(data);
      ParseNote();
    }

    /** The start of parse: the text is taken, the cursor, the track number
        and the position go back to the start, a new track is opened and the
        settings are reset. */
    method Begin(data: string)
      modifies this`source, this`index, this`curPos, this`speed, this`octave, this`tempo,
               this`defaultLength, this`track, this`tracks
      ensures source == data
      ensures State() == Start(old(State()), Cfg())
    {
      source := data;
      curPos := startPos;
      index := 0;
      track := 0;
      tracks := tracks + [[]];
      Reset();
    }
  }
}
