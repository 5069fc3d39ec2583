/** The dispatcher of the MML compiler (parseNote, playNote, moveTime,
    parse, reset) as functions on an explicit parser state. Step is one
    iteration of parseNote's loop; Run is the whole loop; Compile is parse. */
module Dispatcher {
  import opened Classifier
  import opened Scanner

  const U32: int := 0x1_0000_0000

  /** The source's `unsigned int`. */
  type u32 = x: int | 0 <= x < 0x1_0000_0000

  /** Unsigned 32-bit wrap-around of an arithmetic result. */
  function Wrap32(x: int): (r: u32)
    ensures 0 <= x < U32 ==> r == x
    ensures -U32 <= x < 0 ==> r == x + U32
    ensures U32 <= x < 2 * U32 ==> r == x - U32
  {
    x % U32
  }

  /** An `unsigned int` read as a two's-complement `int`. */
  function Signed32(x: u32): (v: int)
    ensures -0x8000_0000 <= v < 0x8000_0000
    ensures (v - x) % U32 == 0
  {
    if x < 0x8000_0000 then x else x - U32
  }

  /** The events the compiler hands to a track. Times are curPos * 1000; the
      conversion to ticks inside the event constructors is not modelled. */
  datatype Event =
    | NoteOn(time: real, track: nat, note: int, velocity: nat)
    | NoteOff(time: real, track: nat, note: int, velocity: nat)
    | Controller(time: real, track: nat, controller: nat, value: nat)

  /** Members that no operation writes and a caller may set: startPos,
      numNotes (pitch classes per octave) and volume. */
  datatype Config = Config(startPos: real, numNotes: u32, volume: u32)

  const DefaultConfig := Config(1.0, 12, 127)

  /** The fields of MML_LITE that parsing reads and writes. The current
      track (_track) is always the last element of tracks (_tracks). */
  datatype Machine = Machine(
    index: nat,
    octave: u32,
    tempo: int,
    defaultLength: int,
    curPos: real,
    speed: real,
    note: u32,
    track: nat,
    skipNext: bool,
    tracks: seq<seq<Event>>)

  /** The field values of a newly constructed MML_LITE. */
  function Fresh(cfg: Config): (r: Machine)
    ensures Timed(r) && r.index == 0 && r.track == 0 && r.curPos == cfg.startPos
    ensures r.tracks == [] && !r.skipNext
  {
    Machine(0, 5, 100, 4, cfg.startPos, 0.25, 0, 0, false, [])
  }

  /** Tempo and default length are positive, so the divisions of every note
      and rest are defined. */
  predicate Timed(m: Machine) {
    m.tempo > 0 && m.defaultLength > 0
  }

  /** Tempo and default length are never negative: the compiler only ever
      assigns them a digit run's value. */
  predicate NonNegative(m: Machine) {
    m.tempo >= 0 && m.defaultLength >= 0
  }

  /** A note or rest with these modifiers can be measured: the tempo is not
      zero, and neither is the default length when no number is given. */
  predicate CanMeasure(m: Machine, mods: Modifiers) {
    m.tempo != 0 && (mods.value != 0 || m.defaultLength != 0)
  }

  /** The command at the cursor divides by nothing that is zero. */
  predicate Defined(m: Machine, src: string)
    requires m.index < |src|
  {
    var t := CharTypeOf(src[m.index]);
    t == Note || t == Rest ==> CanMeasure(m, Scan(src, m.index + 1).mods)
  }

  /** What one iteration of parseNote needs: a character at the cursor, a
      current track, and a command that divides by nothing that is zero. */
  predicate Ready(m: Machine, src: string) {
    m.index < |src| && |m.tracks| > 0 && Defined(m, src)
  }

  /** An L or T command at position i carries a nonzero number. */
  predicate SettingOk(src: string, i: nat)
    requires i < |src|
  {
    var t := CharTypeOf(src[i]);
    t == Len || t == Tempo ==> Scan(src, i + 1).mods.value > 0
  }

  /** Every L and T command of the text carries a nonzero number, so that no
      division by zero can happen while the text is parsed. */
  predicate SettingsNonZero(src: string) {
    forall i :: 0 <= i < |src| ==> SettingOk(src, i)
  }

  /** A simple sufficient condition for parseNote to run to the end: every
      L and T carries a nonzero number, and tempo and default length start
      positive. */
  predicate Runnable(m: Machine, src: string) {
    m.index <= |src| && |m.tracks| > 0 && Timed(m) && SettingsNonZero(src)
  }

  /** Tracks are append-only: earlier tracks are unchanged, the current one
      only grows, and new tracks may follow. */
  predicate Extends(before: seq<seq<Event>>, after: seq<seq<Event>>)
    requires |before| > 0
  {
    && |after| >= |before|
    && after[..|before| - 1] == before[..|before| - 1]
    && before[|before| - 1] <= after[|before| - 1]
  }

  lemma ExtendsTrans(a: seq<seq<Event>>, b: seq<seq<Event>>, c: seq<seq<Event>>)
    requires |a| > 0 && Extends(a, b) && Extends(b, c)
    ensures Extends(a, c)
  {
    assert c[..|a| - 1] == c[..|b| - 1][..|a| - 1];
    assert b[..|a| - 1] == b[..|b| - 1][..|a| - 1];
    if |b| > |a| {
      assert c[|a| - 1] == c[..|b| - 1][|a| - 1];
      assert b[|a| - 1] == b[..|b| - 1][|a| - 1];
    }
  }

  /** The note or rest length before a dot: 1/value, or 1/defaultLength when
      the command carries no number (or the number 0). */
  function BaseLength(mods: Modifiers, defaultLength: int): real
    requires mods.value != 0 || defaultLength != 0
  {
    if mods.value != 0 then 1.0 / mods.value as real else 1.0 / defaultLength as real
  }

  /** The length of a note: a dot makes it half as long again. */
  function NoteSpeed(mods: Modifiers, defaultLength: int): real
    requires mods.value != 0 || defaultLength != 0
  {
    BaseLength(mods, defaultLength) * (if mods.stop then 1.5 else 1.0)
  }

  /** Every note and rest has a positive length. */
  lemma LengthPositive(mods: Modifiers, defaultLength: int)
    requires mods.value != 0 || defaultLength > 0
    ensures BaseLength(mods, defaultLength) > 0.0
    ensures NoteSpeed(mods, defaultLength) >= BaseLength(mods, defaultLength)
  {
  }

  /** moveTime: the position advances by speed * (240 / tempo). */
  function MoveTime(curPos: real, speed: real, tempo: int): (r: real)
    requires tempo != 0
    ensures (r - curPos) * tempo as real == speed * 240.0
  {
    var q := 240.0 / tempo as real;
    assert q * tempo as real == 240.0;
    assert (speed * q) * tempo as real == speed * (q * tempo as real);
    curPos + speed * q
  }

  /** playNote: a NoteOn at the current position and, unless the note is
      tied, a NoteOff one unscaled length later. */
  function NoteEvents(curPos: real, speed: real, track: nat, note: int, volume: nat, tie: bool): (es: seq<Event>)
    ensures |es| == (if tie then 1 else 2)
    ensures es[0] == NoteOn(curPos * 1000.0, track, note, volume)
    ensures !tie ==> es[1].NoteOff? && es[1].note == note && es[1].track == track
    ensures !tie ==> es[1].time - es[0].time == speed * 1000.0
  {
    [NoteOn(curPos * 1000.0, track, note, volume)]
    + (if tie then [] else [NoteOff((curPos + speed) * 1000.0, track, note, 0)])
  }

  /** Hand events to the current (last) track. */
  function AppendToCurrent(tracks: seq<seq<Event>>, es: seq<Event>): (r: seq<seq<Event>>)
    requires |tracks| > 0
    ensures |r| == |tracks| && r[|r| - 1] == tracks[|tracks| - 1] + es
    ensures Extends(tracks, r)
  {
    tracks[..|tracks| - 1] + [tracks[|tracks| - 1] + es]
  }

  lemma AppendNothing(tracks: seq<seq<Event>>)
    requires |tracks| > 0
    ensures AppendToCurrent(tracks, []) == tracks
  {
    var k := |tracks| - 1;
    assert tracks[k] + [] == tracks[k];
    assert tracks[..k] + [tracks[k]] == tracks;
  }

  /** Two insertions into the current track are one insertion of both. */
  lemma AppendTwice(tracks: seq<seq<Event>>, a: seq<Event>, b: seq<Event>)
    requires |tracks| > 0
    ensures AppendToCurrent(AppendToCurrent(tracks, a), b) == AppendToCurrent(tracks, a + b)
  {
    var k := |tracks| - 1;
    assert AppendToCurrent(tracks, a)[..k] == tracks[..k];
    assert tracks[k] + a + b == tracks[k] + (a + b);
  }

  /** The second half of a note, once its length and pitch are set: its
      events unless a tie from the previous note is pending, the advance of
      the position, and the tie this note leaves pending. */
  function Sounding(m: Machine, cfg: Config, tie: bool): (r: Machine)
    requires |m.tracks| > 0 && m.tempo != 0
    ensures r.skipNext == tie && r.curPos == MoveTime(m.curPos, m.speed, m.tempo)
    ensures |r.tracks| == |m.tracks| && Extends(m.tracks, r.tracks)
    ensures r.(skipNext := m.skipNext, curPos := m.curPos, tracks := m.tracks) == m
  {
    var played := if m.skipNext then [] else NoteEvents(m.curPos, m.speed, m.track, Signed32(m.note), cfg.volume, tie);
    m.(skipNext := tie, curPos := MoveTime(m.curPos, m.speed, m.tempo),
       tracks := AppendToCurrent(m.tracks, played))
  }

  /** A note: its length, its pitch, its events and the position after it. */
  function NoteStep(m: Machine, src: string, cfg: Config): (r: Machine)
    requires m.index < |src| && |m.tracks| > 0 && CanMeasure(m, Scan(src, m.index + 1).mods)
    ensures r.index == Scan(src, m.index + 1).next
    ensures |r.tracks| == |m.tracks| && Extends(m.tracks, r.tracks)
    ensures r.(index := m.index, speed := m.speed, note := m.note, skipNext := m.skipNext,
               curPos := m.curPos, tracks := m.tracks) == m
  {
    var c := src[m.index];
    var s := Scan(src, m.index + 1);
    var speed := NoteSpeed(s.mods, m.defaultLength);
    var note := Wrap32(m.octave * cfg.numNotes + NoteValue(c) + s.mods.halfStep);
    Sounding(m.(index := s.next, speed := speed, note := note), cfg, s.mods.tie)
  }

  /** A track separator: the next track, back at the start position. */
  function TrackStep(m: Machine, cfg: Config): (r: Machine)
    ensures r.index == m.index + 1 && r.track == m.track + 1 && r.curPos == cfg.startPos
    ensures |r.tracks| == |m.tracks| + 1 && r.tracks[..|m.tracks|] == m.tracks && r.tracks[|m.tracks|] == []
    ensures r.(index := m.index, track := m.track, curPos := m.curPos, tracks := m.tracks) == m
  {
    m.(index := m.index + 1, track := m.track + 1, curPos := cfg.startPos, tracks := m.tracks + [[]])
  }

  /** An octave command: >, <, or o with a number; O only moves the cursor. */
  function OctaveStep(m: Machine, src: string): (r: Machine)
    requires m.index < |src|
    ensures m.index < r.index <= |src|
    ensures src[m.index] != 'o' ==> r.index == m.index + 1
    ensures r.(index := m.index, octave := m.octave) == m
  {
    var c := src[m.index];
    if c == '>' then m.(index := m.index + 1, octave := Wrap32(m.octave + 1))
    else if c == '<' then m.(index := m.index + 1, octave := Wrap32(m.octave - 1))
    else if c == 'o' then
      var s := Scan(src, m.index + 1);
      m.(index := s.next, octave := Wrap32(s.mods.value))
    else m.(index := m.index + 1)
  }

  /** L: the number that follows becomes the default length. */
  function LengthStep(m: Machine, src: string): (r: Machine)
    requires m.index < |src|
    ensures m.index < r.index <= |src| && r.defaultLength >= 0
    ensures r.(index := m.index, defaultLength := m.defaultLength) == m
  {
    var s := Scan(src, m.index + 1);
    m.(index := s.next, defaultLength := s.mods.value)
  }

  /** T: the number that follows becomes the tempo. */
  function TempoStep(m: Machine, src: string): (r: Machine)
    requires m.index < |src|
    ensures m.index < r.index <= |src| && r.tempo >= 0
    ensures r.(index := m.index, tempo := m.tempo) == m
  {
    var s := Scan(src, m.index + 1);
    m.(index := s.next, tempo := s.mods.value)
  }

  /** V: a channel-volume controller event with the configured volume. */
  function VolumeStep(m: Machine, src: string, cfg: Config): (r: Machine)
    requires m.index < |src| && |m.tracks| > 0
    ensures m.index < r.index <= |src|
    ensures |r.tracks| == |m.tracks| && Extends(m.tracks, r.tracks)
    ensures r.tracks[|r.tracks| - 1] == m.tracks[|m.tracks| - 1] + [Controller(m.curPos * 1000.0, m.track, 7, cfg.volume)]
    ensures r.(index := m.index, tracks := m.tracks) == m
  {
    var s := Scan(src, m.index + 1);
    m.(index := s.next, tracks := AppendToCurrent(m.tracks, [Controller(m.curPos * 1000.0, m.track, 7, cfg.volume)]))
  }

  /** R: the position advances; nothing is emitted. */
  function RestStep(m: Machine, src: string): (r: Machine)
    requires m.index < |src| && CanMeasure(m, Scan(src, m.index + 1).mods)
    ensures m.index < r.index <= |src|
    ensures r.(index := m.index, curPos := m.curPos) == m
  {
    var s := Scan(src, m.index + 1);
    m.(index := s.next, curPos := MoveTime(m.curPos, BaseLength(s.mods, m.defaultLength), m.tempo))
  }

  /** One iteration of parseNote's loop, on the character at the cursor. */
  function Step(m: Machine, src: string, cfg: Config): (r: Machine)
    requires Ready(m, src)
    ensures m.index < r.index <= |src|
  {
    match CharTypeOf(src[m.index])
    case Note => NoteStep(m, src, cfg)
    case Trk => TrackStep(m, cfg)
    case Oct => OctaveStep(m, src)
    case Len => LengthStep(m, src)
    case Vol => VolumeStep(m, src, cfg)
    case Rest => RestStep(m, src)
    case Tempo => TempoStep(m, src)
    case _ => m.(index := m.index + 1)
  }

  /** Every iteration consumes the command at the cursor and its modifier
      run and nothing else. */
  lemma StepAdvances(m: Machine, src: string, cfg: Config)
    requires Ready(m, src)
    ensures var r := Step(m, src, cfg);
            forall p :: m.index < p < r.index ==> !CommandAt(src, p)
  {
    var s := Scan(src, m.index + 1);
    match CharTypeOf(src[m.index])
    case Note => assert Step(m, src, cfg).index == s.next;
    case Oct => assert Step(m, src, cfg) == OctaveStep(m, src);
    case Len => assert Step(m, src, cfg).index == s.next;
    case Vol => assert Step(m, src, cfg).index == s.next;
    case Rest => assert Step(m, src, cfg).index == s.next;
    case Tempo => assert Step(m, src, cfg).index == s.next;
    case _ =>
  }

  /** Every iteration keeps tempo and default length non-negative. */
  lemma StepNonNegative(m: Machine, src: string, cfg: Config)
    requires Ready(m, src) && NonNegative(m)
    ensures NonNegative(Step(m, src, cfg))
  {
    var r := Step(m, src, cfg);
    match CharTypeOf(src[m.index])
    case Len => assert r == LengthStep(m, src);
    case Tempo => assert r == TempoStep(m, src);
    case Oct => assert r == OctaveStep(m, src);
    case _ => assert r.tempo == m.tempo && r.defaultLength == m.defaultLength;
  }

  /** Under Runnable every iteration is defined and leaves tempo and default
      length positive: L and T take the nonzero number that follows them. */
  lemma StepRunnable(m: Machine, src: string, cfg: Config)
    requires Runnable(m, src) && m.index < |src|
    ensures Ready(m, src) && Runnable(Step(m, src, cfg), src)
  {
    var r := Step(m, src, cfg);
    match CharTypeOf(src[m.index])
    case Len =>
      assert SettingOk(src, m.index);
      assert r == LengthStep(m, src);
    case Tempo =>
      assert SettingOk(src, m.index);
      assert r == TempoStep(m, src);
    case Oct => assert r == OctaveStep(m, src);
    case _ => assert r.tempo == m.tempo && r.defaultLength == m.defaultLength;
  }

  /** Tracks are only appended to; only a track separator opens a track and
      increments the track number. */
  lemma StepTracks(m: Machine, src: string, cfg: Config)
    requires Ready(m, src)
    ensures var r := Step(m, src, cfg);
            && Extends(m.tracks, r.tracks)
            && |r.tracks| == |m.tracks| + (if src[m.index] == ',' then 1 else 0)
            && r.track == m.track + (if src[m.index] == ',' then 1 else 0)
  {
    match CharTypeOf(src[m.index])
    case Note => assert Step(m, src, cfg) == NoteStep(m, src, cfg);
    case Trk => assert Step(m, src, cfg) == TrackStep(m, cfg);
    case Oct => assert Step(m, src, cfg) == OctaveStep(m, src);
    case Len => assert Step(m, src, cfg) == LengthStep(m, src);
    case Vol => assert Step(m, src, cfg) == VolumeStep(m, src, cfg);
    case Rest => assert Step(m, src, cfg) == RestStep(m, src);
    case Tempo => assert Step(m, src, cfg) == TempoStep(m, src);
    case _ =>
  }

  /** parseNote runs to the end of the text from m: there is a current
      track, and no note or rest on the way divides by zero. */
  predicate Completes(m: Machine, src: string, cfg: Config)
    decreases |src| - m.index
  {
    && m.index <= |src| && |m.tracks| > 0
    && (m.index < |src| ==> Defined(m, src) && Completes(Step(m, src, cfg), src, cfg))
  }

  /** A text whose every L and T carries a nonzero number completes from
      any state with positive tempo and default length. */
  lemma {:induction false} RunnableCompletes(m: Machine, src: string, cfg: Config)
    requires Runnable(m, src)
    ensures Completes(m, src, cfg)
    decreases |src| - m.index
  {
    if m.index < |src| {
      StepRunnable(m, src, cfg);
      RunnableCompletes(Step(m, src, cfg), src, cfg);
    }
  }

  /** parseNote: the loop runs until the cursor reaches the end of the text;
      tracks are only ever appended to. */
  function Run(m: Machine, src: string, cfg: Config): (r: Machine)
    requires Completes(m, src, cfg)
    ensures r.index == |src| && |r.tracks| > 0
    ensures Extends(m.tracks, r.tracks)
    decreases |src| - m.index
  {
    if m.index == |src| then m
    else
      var n := Step(m, src, cfg);
      StepTracks(m, src, cfg);
      var r := Run(n, src, cfg);
      ExtendsTrans(m.tracks, n.tracks, r.tracks);
      r
  }

  /** parse followed by reset: cursor, track number and position restart, a
      new empty track is opened, and octave, tempo, default length and speed
      return to their defaults. skipNext and earlier tracks are kept. */
  function Start(m: Machine, cfg: Config): (r: Machine)
    ensures Timed(r) && r.index == 0 && r.track == 0 && r.curPos == cfg.startPos
    ensures r.tracks == m.tracks + [[]] && r.skipNext == m.skipNext
  {
    m.(index := 0, track := 0, curPos := cfg.startPos, tracks := m.tracks + [[]],
       speed := 0.25, octave := 5, tempo := 100, defaultLength := 4)
  }

  /** parse: compile the text data from the state m. */
  function Compile(m: Machine, data: string, cfg: Config): (r: Machine)
    requires Completes(Start(m, cfg), data, cfg)
    ensures r.index == |data| && |r.tracks| > |m.tracks|
    ensures r.tracks[..|m.tracks|] == m.tracks
  {
    var s := Start(m, cfg);
    var r := Run(s, data, cfg);
    assert r.tracks[..|m.tracks|] == r.tracks[..|s.tracks| - 1];
    r
  }
}
