/** Whole texts compiled from a newly constructed compiler with the default
    settings (start position 1, volume 127), worked out to their events.
    Each text is a parameter pinned by the precondition, and each iteration
    of parseNote is worked out on its own before the iterations are joined. */
module Examples {
  import opened Classifier
  import opened Scanner
  import opened Dispatcher
  import Behaviour

  /** The state parse hands to parseNote in a newly constructed compiler. */
  function Initial(): Machine {
    Start(Fresh(DefaultConfig), DefaultConfig)
  }

  /** parseNote unrolled by one iteration. */
  lemma RunUnroll(m: Machine, src: string, cfg: Config)
    requires Ready(m, src) && Completes(Step(m, src, cfg), src, cfg)
    ensures Completes(m, src, cfg)
    ensures Run(m, src, cfg) == Run(Step(m, src, cfg), src, cfg)
  {
  }

  /** parseNote when one iteration reaches the end of the text. */
  lemma RunLast(m: Machine, src: string, cfg: Config)
    requires Ready(m, src) && Step(m, src, cfg).index == |src|
    ensures Completes(m, src, cfg)
    ensures Run(m, src, cfg) == Step(m, src, cfg)
  {
    assert Completes(Step(m, src, cfg), src, cfg);
    assert Run(Step(m, src, cfg), src, cfg) == Step(m, src, cfg);
  }

  lemma AppendToLast(before: seq<seq<Event>>, t: seq<Event>, es: seq<Event>)
    ensures AppendToCurrent(before + [t], es) == before + [t + es]
  {
    assert (before + [t])[..|before|] == before;
  }

  /** The text "C": one quarter note at octave 5 (pitch 60), on at time
      1000 and off a quarter later at 1250, after which the position has
      moved by a quarter at tempo 100, to 1.6. */
  lemma SingleNote(src: string)
    requires src == "C"
    ensures Completes(Initial(), src, DefaultConfig)
    ensures var r := Compile(Fresh(DefaultConfig), src, DefaultConfig);
            && r.tracks == [[NoteOn(1000.0, 0, 60, 127), NoteOff(1250.0, 0, 60, 0)]]
            && r.curPos == 1.6
  {
    SingleStep(src);
    RunLast(Initial(), src, DefaultConfig);
  }

  /** The one iteration of parseNote on "C". */
  lemma SingleStep(src: string)
    requires src == "C"
    ensures var n := Step(Initial(), src, DefaultConfig);
            && n.index == |src|
            && n.tracks == [[NoteOn(1000.0, 0, 60, 127), NoteOff(1250.0, 0, 60, 0)]]
            && n.curPos == 1.6
  {
    assert Scan(src, 1) == Scanned(NoMods, 1);
    Behaviour.NoteCommand(Initial(), src, DefaultConfig);
    assert NoteSpeed(NoMods, 4) == 0.25;
    assert MoveTime(1.0, 0.25, 100) == 1.6 by {
      assert 240.0 / 100 as real == 2.4;
    }
    var es := NoteEvents(1.0, 0.25, 0, 60, 127, false);
    assert es == [NoteOn(1000.0, 0, 60, 127), NoteOff(1250.0, 0, 60, 0)];
    AppendToLast([], [], es);
    assert [] + es == es;
  }

  lemma TiedFirst(src: string)
    requires src == "C&C"
    ensures Step(Initial(), src, DefaultConfig)
            == Initial().(index := 2, note := 60, curPos := 1.6, skipNext := true,
                          tracks := [[NoteOn(1000.0, 0, 60, 127)]])
  {
    var m := Initial();
    assert ScanFrom(src, 2, NoMods.(tie := true)) == Scanned(NoMods.(tie := true), 2);
    assert Scan(src, 1) == Scanned(NoMods.(tie := true), 2);
    var es := NoteEvents(1.0, 0.25, 0, 60, 127, true);
    assert es == [NoteOn(1000.0, 0, 60, 127)];
    Behaviour.NoteCommand(m, src, DefaultConfig);
    assert NoteSpeed(NoMods.(tie := true), 4) == 0.25;
    assert MoveTime(1.0, 0.25, 100) == 1.6 by {
      assert 240.0 / 100 as real == 2.4;
    }
    AppendToLast([], [], es);
    assert [] + es == es;
  }

  lemma TiedSecond(src: string, m: Machine)
    requires src == "C&C"
    requires m == Initial().(index := 2, note := 60, curPos := 1.6, skipNext := true,
                             tracks := [[NoteOn(1000.0, 0, 60, 127)]])
    ensures Step(m, src, DefaultConfig) == m.(index := 3, curPos := 2.2, skipNext := false)
  {
    assert Scan(src, 3) == Scanned(NoMods, 3);
    Behaviour.NoteCommand(m, src, DefaultConfig);
    assert NoteSpeed(NoMods, 4) == 0.25;
    assert MoveTime(1.6, 0.25, 100) == 2.2 by {
      assert 240.0 / 100 as real == 2.4;
    }
    AppendNothing(m.tracks);
  }

  /** The text "C&C": the tie suppresses the first NoteOff and the second
      note entirely, so one NoteOn remains; both notes still move the
      position, and no tie is left pending. */
  lemma TiedNotes(src: string)
    requires src == "C&C"
    ensures Completes(Initial(), src, DefaultConfig)
    ensures var r := Compile(Fresh(DefaultConfig), src, DefaultConfig);
            && r.tracks == [[NoteOn(1000.0, 0, 60, 127)]]
            && r.curPos == 2.2 && !r.skipNext
  {
    TiedFirst(src);
    var n := Step(Initial(), src, DefaultConfig);
    TiedSecond(src, n);
    RunUnroll(Initial(), src, DefaultConfig);
    RunLast(n, src, DefaultConfig);
  }

  /** The text ",C": the separator opens track 1 and returns to the start
      position, so the note lands in the second track with track number 1;
      the first track stays empty. */
  lemma SecondTrack(src: string)
    requires src == ",C"
    ensures Completes(Initial(), src, DefaultConfig)
    ensures Compile(Fresh(DefaultConfig), src, DefaultConfig).tracks
            == [[], [NoteOn(1000.0, 1, 60, 127), NoteOff(1250.0, 1, 60, 0)]]
  {
    SeparatorStep(src);
    var n := Step(Initial(), src, DefaultConfig);
    SecondTrackNote(src, n);
    RunUnroll(Initial(), src, DefaultConfig);
    RunLast(n, src, DefaultConfig);
  }

  /** The separator of ",C" opens the second track. */
  lemma SeparatorStep(src: string)
    requires src == ",C"
    ensures Step(Initial(), src, DefaultConfig)
            == Initial().(index := 1, track := 1, tracks := [[], []])
  {
    assert Step(Initial(), src, DefaultConfig) == TrackStep(Initial(), DefaultConfig);
  }

  /** The note of ",C" goes to the second track with track number 1. */
  lemma SecondTrackNote(src: string, m: Machine)
    requires src == ",C"
    requires m == Initial().(index := 1, track := 1, tracks := [[], []])
    ensures Step(m, src, DefaultConfig).index == |src|
    ensures Step(m, src, DefaultConfig).tracks
            == [[], [NoteOn(1000.0, 1, 60, 127), NoteOff(1250.0, 1, 60, 0)]]
  {
    assert Scan(src, 2) == Scanned(NoMods, 2);
    Behaviour.NoteCommand(m, src, DefaultConfig);
    assert NoteSpeed(NoMods, 4) == 0.25;
    var es := NoteEvents(1.0, 0.25, 1, 60, 127, false);
    assert es == [NoteOn(1000.0, 1, 60, 127), NoteOff(1250.0, 1, 60, 0)];
    AppendToLast([[]], [], es);
    assert [] + es == es;
  }

  /** The text "C4.": the dot makes the quarter note half as long again,
      so the NoteOff comes at 1375 instead of 1250. */
  lemma DottedNote(src: string)
    requires src == "C4."
    ensures Completes(Initial(), src, DefaultConfig)
    ensures Compile(Fresh(DefaultConfig), src, DefaultConfig).tracks
            == [[NoteOn(1000.0, 0, 60, 127), NoteOff(1375.0, 0, 60, 0)]]
  {
    DottedStep(src);
    RunLast(Initial(), src, DefaultConfig);
  }

  /** The one iteration of parseNote on "C4.". */
  lemma DottedStep(src: string)
    requires src == "C4."
    ensures Step(Initial(), src, DefaultConfig).index == |src|
    ensures Step(Initial(), src, DefaultConfig).tracks
            == [[NoteOn(1000.0, 0, 60, 127), NoteOff(1375.0, 0, 60, 0)]]
  {
    var mods := NoMods.(value := 4, stop := true);
    DottedScan(src);
    Behaviour.NoteCommand(Initial(), src, DefaultConfig);
    assert BaseLength(mods, 4) == 0.25;
    assert NoteSpeed(mods, 4) == 0.375;
    var es := NoteEvents(1.0, 0.375, 0, 60, 127, false);
    assert (1.0 + 0.375) * 1000.0 == 1375.0;
    assert es == [NoteOn(1000.0, 0, 60, 127), NoteOff(1375.0, 0, 60, 0)];
    AppendToLast([], [], es);
    assert [] + es == es;
  }

  /** The modifier run of "C4." is the number 4 and a dot. */
  lemma DottedScan(src: string)
    requires src == "C4."
    ensures Scan(src, 1) == Scanned(NoMods.(value := 4, stop := true), 3)
  {
    var mods := NoMods.(value := 4, stop := true);
    assert ScanFrom(src, 3, mods) == Scanned(mods, 3);
    assert ScanFrom(src, 2, NoMods.(value := 4)) == ScanFrom(src, 3, mods);
    assert ReadDigits(src, 1, 0) == Number(4, 2);
  }

  /** The text "V50": a channel-volume controller at time 1000 carrying the
      configured volume 127, not the 50 that follows the V. */
  lemma VolumeIgnoresValue(src: string)
    requires src == "V50"
    ensures Completes(Initial(), src, DefaultConfig)
    ensures Compile(Fresh(DefaultConfig), src, DefaultConfig).tracks
            == [[Controller(1000.0, 0, 7, 127)]]
  {
    VolumeStepOf(src);
    RunLast(Initial(), src, DefaultConfig);
  }

  /** The one iteration of parseNote on "V50". */
  lemma VolumeStepOf(src: string)
    requires src == "V50"
    ensures var n := Step(Initial(), src, DefaultConfig);
            n.index == |src| && n.tracks == [[Controller(1000.0, 0, 7, 127)]]
  {
    VolumeScan(src);
    Behaviour.VolumeCommand(Initial(), src, DefaultConfig);
    var es := [Controller(1000.0, 0, 7, 127)];
    AppendToLast([], [], es);
    assert [] + es == es;
  }

  /** The modifier run of "V50" is the number 50. */
  lemma VolumeScan(src: string)
    requires src == "V50"
    ensures Scan(src, 1) == Scanned(NoMods.(value := 50), 3)
  {
    assert ReadDigits(src, 3, 50) == Number(50, 3);
    assert ReadDigits(src, 2, 5) == Number(50, 3);
    assert ReadDigits(src, 1, 0) == Number(50, 3);
    assert ScanFrom(src, 3, NoMods.(value := 50)) == Scanned(NoMods.(value := 50), 3);
  }

  /** A dot does not lengthen a rest: "R." moves the position by a quarter
      at tempo 100, from 1 to 1.6, as "R" does, and emits nothing. */
  lemma RestIgnoresDot(src: string)
    requires src == "R."
    ensures Completes(Initial(), src, DefaultConfig)
    ensures var r := Compile(Fresh(DefaultConfig), src, DefaultConfig);
            r.curPos == 1.6 && r.tracks == [[]]
  {
    assert ScanFrom(src, 2, NoMods.(stop := true)) == Scanned(NoMods.(stop := true), 2);
    assert Scan(src, 1) == Scanned(NoMods.(stop := true), 2);
    var m := Initial();
    assert Step(m, src, DefaultConfig) == RestStep(m, src);
    RunLast(m, src, DefaultConfig);
  }

  /** A blank inside a number splits it and the later digits win: "C1 2" is
      a half note, where "C12" would be a twelfth. */
  lemma BlankSplitsNumber(src: string)
    requires src == "C1 2"
    ensures Completes(Initial(), src, DefaultConfig)
    ensures Compile(Fresh(DefaultConfig), src, DefaultConfig).speed == 0.5
  {
    BlankStep(src);
    RunLast(Initial(), src, DefaultConfig);
  }

  /** The one iteration of parseNote on "C1 2". */
  lemma BlankStep(src: string)
    requires src == "C1 2"
    ensures var n := Step(Initial(), src, DefaultConfig);
            n.index == |src| && n.speed == 0.5
  {
    BlankScan(src);
    Behaviour.NoteCommand(Initial(), src, DefaultConfig);
    assert NoteSpeed(NoMods.(value := 2), 4) == 0.5;
  }

  /** The modifier run of "C1 2" ends with the number 2. */
  lemma BlankScan(src: string)
    requires src == "C1 2"
    ensures Scan(src, 1) == Scanned(NoMods.(value := 2), 4)
  {
    var one := NoMods.(value := 1);
    var two := NoMods.(value := 2);
    assert ReadDigits(src, 4, 2) == Number(2, 4);
    assert ReadDigits(src, 3, 0) == Number(2, 4);
    assert ScanFrom(src, 4, two) == Scanned(two, 4);
    assert ScanFrom(src, 3, one) == Scanned(two, 4);
    assert ScanFrom(src, 2, one) == Scanned(two, 4);
    assert ReadDigits(src, 2, 1) == Number(1, 2);
    assert ReadDigits(src, 1, 0) == Number(1, 2);
  }

  /** The modifier run of "C12" is the number 12. */
  lemma JoinedScan(src: string)
    requires src == "C12"
    ensures Scan(src, 1) == Scanned(NoMods.(value := 12), 3)
  {
    assert ReadDigits(src, 3, 12) == Number(12, 3);
    assert ReadDigits(src, 2, 1) == Number(12, 3);
    assert ReadDigits(src, 1, 0) == Number(12, 3);
    assert ScanFrom(src, 3, NoMods.(value := 12)) == Scanned(NoMods.(value := 12), 3);
  }

  /** "C12" is a twelfth note: the digits of a run form one number. */
  lemma JoinedNumber(src: string)
    requires src == "C12"
    ensures Completes(Initial(), src, DefaultConfig)
    ensures Compile(Fresh(DefaultConfig), src, DefaultConfig).speed == 1.0 / 12.0
  {
    JoinedStep(src);
    RunLast(Initial(), src, DefaultConfig);
  }

  /** The one iteration of parseNote on "C12". */
  lemma JoinedStep(src: string)
    requires src == "C12"
    ensures var n := Step(Initial(), src, DefaultConfig);
            n.index == |src| && n.speed == 1.0 / 12.0
  {
    JoinedScan(src);
    Behaviour.NoteCommand(Initial(), src, DefaultConfig);
    assert NoteSpeed(NoMods.(value := 12), 4) == 1.0 / 12.0;
  }

  /** An upper-case O does not set the octave: in "O6C" the O and then the 6
      are passed over one at a time. */
  lemma UpperCaseOctaveSkips(src: string)
    requires src == "O6C"
    ensures Step(Initial(), src, DefaultConfig) == Initial().(index := 1)
    ensures Step(Initial().(index := 1), src, DefaultConfig) == Initial().(index := 2)
  {
    var m := Initial();
    assert CharTypeOf(src[0]) == Oct && CharTypeOf(src[1]) == Val;
    assert Step(m, src, DefaultConfig) == OctaveStep(m, src) == m.(index := 1);
    Behaviour.StrayCharacter(m.(index := 1), src, DefaultConfig);
  }

  /** ... so the note of "O6C" sounds at the default octave 5, pitch 60. */
  lemma UpperCaseOctave(src: string)
    requires src == "O6C"
    ensures Completes(Initial(), src, DefaultConfig)
    ensures Compile(Fresh(DefaultConfig), src, DefaultConfig).note == 60
  {
    UpperCaseOctaveSkips(src);
    var m := Initial().(index := 2);
    assert Scan(src, 3) == Scanned(NoMods, 3);
    Behaviour.NoteCommand(m, src, DefaultConfig);
    RunUnroll(Initial(), src, DefaultConfig);
    RunUnroll(Initial().(index := 1), src, DefaultConfig);
    RunLast(m, src, DefaultConfig);
  }

  /** A lower-case o sets the octave: "o6c" sounds at pitch 72. */
  lemma LowerCaseOctave(src: string)
    requires src == "o6c"
    ensures Completes(Initial(), src, DefaultConfig)
    ensures Compile(Fresh(DefaultConfig), src, DefaultConfig).note == 72
  {
    LowerScan(src);
    var s := Initial();
    var m := s.(index := 2, octave := 6);
    LowerSteps(src, s, m);
    RunUnroll(s, src, DefaultConfig);
    RunLast(m, src, DefaultConfig);
  }

  lemma LowerScan(src: string)
    requires src == "o6c"
    ensures Scan(src, 1) == Scanned(NoMods.(value := 6), 2)
    ensures Scan(src, 3) == Scanned(NoMods, 3)
  {
    assert ReadDigits(src, 2, 6) == Number(6, 2);
    assert ReadDigits(src, 1, 0) == Number(6, 2);
    assert ScanFrom(src, 2, NoMods.(value := 6)) == Scanned(NoMods.(value := 6), 2);
  }

  /** The o of "o6c" moves to octave 6 and its note sounds at pitch 72. */
  lemma LowerSteps(src: string, s: Machine, m: Machine)
    requires src == "o6c"
    requires s == Initial() && m == s.(index := 2, octave := 6)
    ensures Step(s, src, DefaultConfig) == m
    ensures Step(m, src, DefaultConfig).note == 72 && Step(m, src, DefaultConfig).index == 3
  {
    LowerScan(src);
    assert Step(s, src, DefaultConfig) == OctaveStep(s, src);
    Behaviour.NoteCommand(m, src, DefaultConfig);
  }

  /** "LC4": an L without digits sets the default length to 0, and the note
      after it still sounds for a quarter, since it carries its own 4. */
  lemma LengthZeroThenNumber(src: string)
    requires src == "LC4"
    ensures Completes(Initial(), src, DefaultConfig)
    ensures var r := Compile(Fresh(DefaultConfig), src, DefaultConfig);
            && r.defaultLength == 0
            && r.tracks == [[NoteOn(1000.0, 0, 60, 127), NoteOff(1250.0, 0, 60, 0)]]
  {
    var s := Initial();
    var m := s.(index := 1, defaultLength := 0);
    LengthZeroSteps(src, s, m);
    RunLast(m, src, DefaultConfig);
    RunUnroll(s, src, DefaultConfig);
  }

  /** The two iterations of parseNote on "LC4". */
  lemma LengthZeroSteps(src: string, s: Machine, m: Machine)
    requires src == "LC4"
    requires s == Initial() && m == s.(index := 1, defaultLength := 0)
    ensures Scan(src, 2) == Scanned(NoMods.(value := 4), 3)
    ensures Step(s, src, DefaultConfig) == m
    ensures var r := Step(m, src, DefaultConfig);
            && r.index == 3 && r.defaultLength == 0
            && r.tracks == [[NoteOn(1000.0, 0, 60, 127), NoteOff(1250.0, 0, 60, 0)]]
  {
    assert Scan(src, 1) == Scanned(NoMods, 1);
    assert ReadDigits(src, 3, 4) == Number(4, 3);
    assert ReadDigits(src, 2, 0) == Number(4, 3);
    assert ScanFrom(src, 3, NoMods.(value := 4)) == Scanned(NoMods.(value := 4), 3);
    assert Step(s, src, DefaultConfig) == LengthStep(s, src);
    Behaviour.NoteCommand(m, src, DefaultConfig);
    assert NoteSpeed(NoMods.(value := 4), 0) == 0.25;
    var es := NoteEvents(1.0, 0.25, 0, 60, 127, false);
    assert es == [NoteOn(1000.0, 0, 60, 127), NoteOff(1250.0, 0, 60, 0)];
    AppendToLast([], [], es);
    assert [] + es == es;
  }

  /** "CL": a final L without digits leaves the default length at 0, and
      no note or rest after it needs the length. */
  lemma TrailingLength(src: string)
    requires src == "CL"
    ensures Completes(Initial(), src, DefaultConfig)
    ensures Compile(Fresh(DefaultConfig), src, DefaultConfig).defaultLength == 0
  {
    var s := Initial();
    assert CharTypeOf(src[0]) == Note && CharTypeOf(src[1]) == Len;
    assert Scan(src, 1) == Scanned(NoMods, 1);
    var n := Step(s, src, DefaultConfig);
    assert n == NoteStep(s, src, DefaultConfig);
    assert Scan(src, 2) == Scanned(NoMods, 2);
    assert Step(n, src, DefaultConfig) == LengthStep(n, src);
    RunLast(n, src, DefaultConfig);
    RunUnroll(s, src, DefaultConfig);
  }
}
