/** What the dispatcher does, command by command, and what follows for a
    whole text: tie semantics, track numbering and the number of tracks. */
module Behaviour {
  import opened Classifier
  import opened Scanner
  import opened Dispatcher

  // ---------------------------------------------------------------------
  // One command at a time.

  /** The whole state after a note, field by field. */
  lemma NoteCommand(m: Machine, src: string, cfg: Config)
    requires Ready(m, src) && CharTypeOf(src[m.index]) == Note
    ensures var s := Scan(src, m.index + 1);
            var len := NoteSpeed(s.mods, m.defaultLength);
            var note := Wrap32(m.octave * cfg.numNotes + NoteValue(src[m.index]) + s.mods.halfStep);
            var played := if m.skipNext then [] else NoteEvents(m.curPos, len, m.track, Signed32(note), cfg.volume, s.mods.tie);
            Step(m, src, cfg) == m.(index := s.next, speed := len, note := note, skipNext := s.mods.tie,
                                    curPos := MoveTime(m.curPos, len, m.tempo), tracks := AppendToCurrent(m.tracks, played))
  {
    assert Step(m, src, cfg) == NoteStep(m, src, cfg);
  }

  /** A note's pitch is octave * 12 + pitch class + accidental. It is
      computed in unsigned 32-bit arithmetic and handed on as an int, which
      gives back the plain sum whenever that sum fits an int (a flat C in
      octave 0 gives -1). */
  lemma NotePitch(m: Machine, src: string, cfg: Config)
    requires Ready(m, src) && CharTypeOf(src[m.index]) == Note
    ensures var pitch := m.octave * cfg.numNotes + NoteValue(src[m.index]) + Scan(src, m.index + 1).mods.halfStep;
            && Step(m, src, cfg).note == pitch % U32
            && (-0x8000_0000 <= pitch < 0x8000_0000 ==> Signed32(Step(m, src, cfg).note) == pitch)
  {
    var pitch := m.octave * cfg.numNotes + NoteValue(src[m.index]) + Scan(src, m.index + 1).mods.halfStep;
    NoteCommand(m, src, cfg);
    Signed32Wrap(pitch);
  }

  /** Wrapping to unsigned 32 bits and reading the result as a signed
      number gives back every number in the signed 32-bit range. */
  lemma Signed32Wrap(x: int)
    ensures -0x8000_0000 <= x < 0x8000_0000 ==> Signed32(Wrap32(x)) == x
  {
    if -0x8000_0000 <= x < 0 {
      assert Wrap32(x) == x + U32;
    }
  }

  /** A note's length is NoteSpeed: 1/value, or 1/defaultLength without a number, half
      as long again when dotted; the position advances by
      length * (240 / tempo), and the note leaves a pending tie exactly when it
      carries a tie mark. Nothing else but the cursor, the note number and
      the tracks changes. */
  lemma NoteTiming(m: Machine, src: string, cfg: Config)
    requires Ready(m, src) && CharTypeOf(src[m.index]) == Note
    ensures var s := Scan(src, m.index + 1);
            var r := Step(m, src, cfg);
            var len := NoteSpeed(s.mods, m.defaultLength);
            && r.index == s.next
            && r.speed == len
            && r.curPos == m.curPos + len * (240.0 / m.tempo as real)
            && r.skipNext == s.mods.tie
            && r.(index := m.index, speed := m.speed, curPos := m.curPos, note := m.note,
                  skipNext := m.skipNext, tracks := m.tracks) == m
  {
    assert Step(m, src, cfg) == NoteStep(m, src, cfg);
  }

  /** The events of a note. After a tie it emits nothing; otherwise a
      NoteOn at the current position and, unless the note is itself tied, a
      NoteOff one unscaled length later. */
  lemma NoteEmits(m: Machine, src: string, cfg: Config)
    requires Ready(m, src) && CharTypeOf(src[m.index]) == Note
    ensures var s := Scan(src, m.index + 1);
            var r := Step(m, src, cfg);
            var on := NoteOn(m.curPos * 1000.0, m.track, Signed32(r.note), cfg.volume);
            var off := NoteOff((m.curPos + r.speed) * 1000.0, m.track, Signed32(r.note), 0);
            && (m.skipNext ==> r.tracks == m.tracks)
            && (!m.skipNext && s.mods.tie ==> r.tracks == AppendToCurrent(m.tracks, [on]))
            && (!m.skipNext && !s.mods.tie ==> r.tracks == AppendToCurrent(m.tracks, [on, off]))
  {
    var r := Step(m, src, cfg);
    assert r == NoteStep(m, src, cfg);
    var s := Scan(src, m.index + 1);
    var on := NoteOn(m.curPos * 1000.0, m.track, Signed32(r.note), cfg.volume);
    var off := NoteOff((m.curPos + r.speed) * 1000.0, m.track, Signed32(r.note), 0);
    assert [on] + [] == [on];
    assert [on] + [off] == [on, off];
    AppendNothing(m.tracks);
  }

  /** A rest emits nothing and advances the position by
      (1/value or 1/defaultLength) * 240 / tempo: a dot does not lengthen it
      and a tie mark does not leave a pending tie. */
  lemma RestCommand(m: Machine, src: string, cfg: Config)
    requires Ready(m, src) && CharTypeOf(src[m.index]) == Rest
    ensures var s := Scan(src, m.index + 1);
            var len := BaseLength(s.mods, m.defaultLength);
            Step(m, src, cfg) == m.(index := s.next, curPos := m.curPos + len * (240.0 / m.tempo as real))
  {
    assert Step(m, src, cfg) == RestStep(m, src);
  }

  /** A track separator increments the track number, moves the position
      back to startPos and opens a new empty track; nothing else changes. */
  lemma TrackCommand(m: Machine, src: string, cfg: Config)
    requires Ready(m, src) && src[m.index] == ','
    ensures Step(m, src, cfg)
            == m.(index := m.index + 1, track := m.track + 1, curPos := cfg.startPos, tracks := m.tracks + [[]])
  {
  }

  /** > and < move the octave up and down by one (wrapping as an unsigned
      32-bit number); only a lower-case o assigns the number that follows it;
      an upper-case O changes nothing but the cursor, so its digits are then
      skipped one by one. */
  lemma OctaveCommand(m: Machine, src: string, cfg: Config)
    requires Ready(m, src) && CharTypeOf(src[m.index]) == Oct
    ensures var c := src[m.index];
            var r := Step(m, src, cfg);
            var s := Scan(src, m.index + 1);
            && (c == '>' ==> r == m.(index := m.index + 1, octave := (m.octave + 1) % U32))
            && (c == '<' ==> r == m.(index := m.index + 1, octave := (m.octave - 1) % U32))
            && (c == '<' && m.octave == 0 ==> r.octave == U32 - 1)
            && (c == 'o' ==> r == m.(index := s.next, octave := s.mods.value % U32))
            && (c == 'O' ==> r == m.(index := m.index + 1))
  {
    var c := src[m.index];
    var r := Step(m, src, cfg);
    assert r == OctaveStep(m, src);
    if c == '>' {
      assert r.octave == Wrap32(m.octave + 1);
    } else if c == '<' {
      assert r.octave == Wrap32(m.octave - 1);
    } else if c == 'o' {
      assert r.octave == Wrap32(Scan(src, m.index + 1).mods.value);
    }
  }

  /** L assigns the last number of its modifier run to the default length;
      a run without digits sets it to 0. */
  lemma LengthCommand(m: Machine, src: string, cfg: Config)
    requires Ready(m, src) && CharTypeOf(src[m.index]) == Len
    ensures var s := Scan(src, m.index + 1);
            var r := Step(m, src, cfg);
            && r == m.(index := s.next, defaultLength := s.mods.value)
            && r.defaultLength == LastNumber(src[m.index + 1..s.next])
            && (!HasDigit(src[m.index + 1..s.next]) ==> r.defaultLength == 0)
  {
    assert Step(m, src, cfg) == LengthStep(m, src);
    NoNumberIsZero(src, m.index + 1);
  }

  /** T assigns the last number of its modifier run to the tempo; a run
      without digits sets it to 0. */
  lemma TempoCommand(m: Machine, src: string, cfg: Config)
    requires Ready(m, src) && CharTypeOf(src[m.index]) == Tempo
    ensures var s := Scan(src, m.index + 1);
            var r := Step(m, src, cfg);
            && r == m.(index := s.next, tempo := s.mods.value)
            && r.tempo == LastNumber(src[m.index + 1..s.next])
            && (!HasDigit(src[m.index + 1..s.next]) ==> r.tempo == 0)
  {
    assert Step(m, src, cfg) == TempoStep(m, src);
    NoNumberIsZero(src, m.index + 1);
  }

  /** A modifier run without digits carries the number 0. */
  lemma NoNumberIsZero(src: string, i: nat)
    requires i <= |src|
    ensures var r := Scan(src, i);
            && r.mods.value == LastNumber(src[i..r.next])
            && (!HasDigit(src[i..r.next]) ==> r.mods.value == 0)
  {
    var run := src[i..Scan(src, i).next];
    ScanMeaning(src, i);
    if !HasDigit(run) {
      LastNumberNoDigit([], run);
      assert [] + run == run;
    }
  }

  /** V emits a channel-volume Controller (number 7) with the unchanged
      volume, whatever number follows it. */
  lemma VolumeCommand(m: Machine, src: string, cfg: Config)
    requires Ready(m, src) && CharTypeOf(src[m.index]) == Vol
    ensures var s := Scan(src, m.index + 1);
            Step(m, src, cfg) == m.(index := s.next, tracks := AppendToCurrent(m.tracks,
                                      [Controller(m.curPos * 1000.0, m.track, 7, cfg.volume)]))
  {
    assert Step(m, src, cfg) == VolumeStep(m, src, cfg);
  }

  /** Digits, modifiers, dots and unknown characters outside a modifier run
      only move the cursor. */
  lemma StrayCharacter(m: Machine, src: string, cfg: Config)
    requires Ready(m, src) && !CharTypeOf(src[m.index]).IsCommand()
    ensures Step(m, src, cfg) == m.(index := m.index + 1)
  {
  }

  /** The length a note or rest command at the cursor moves the position by,
      before tempo scaling. */
  function CommandLength(src: string, i: nat, defaultLength: int): real
    requires i < |src| && (Scan(src, i + 1).mods.value != 0 || defaultLength != 0)
  {
    var s := Scan(src, i + 1);
    if CharTypeOf(src[i]) == Note then NoteSpeed(s.mods, defaultLength)
    else BaseLength(s.mods, defaultLength)
  }

  lemma StepMoves(m: Machine, src: string, cfg: Config)
    requires Ready(m, src) && NonNegative(m)
    requires CharTypeOf(src[m.index]) == Note || CharTypeOf(src[m.index]) == Rest
    ensures CommandLength(src, m.index, m.defaultLength) > 0.0
    ensures Step(m, src, cfg).curPos == MoveTime(m.curPos, CommandLength(src, m.index, m.defaultLength), m.tempo)
  {
    LengthPositive(Scan(src, m.index + 1).mods, m.defaultLength);
    if CharTypeOf(src[m.index]) == Note {
      NoteCommand(m, src, cfg);
    } else {
      RestCommand(m, src, cfg);
    }
  }

  lemma StepStays(m: Machine, src: string, cfg: Config)
    requires Ready(m, src) && CharTypeOf(src[m.index]) != Note && CharTypeOf(src[m.index]) != Rest && CharTypeOf(src[m.index]) != Trk
    ensures Step(m, src, cfg).curPos == m.curPos
  {
  }

  /** Within a track time never goes backward: only a track separator moves
      the position back, and every note and rest moves it forward. */
  lemma StepTime(m: Machine, src: string, cfg: Config)
    requires Ready(m, src) && NonNegative(m)
    ensures var r := Step(m, src, cfg);
            && (src[m.index] != ',' ==> r.curPos >= m.curPos)
            && (CharTypeOf(src[m.index]) == Note || CharTypeOf(src[m.index]) == Rest ==> r.curPos > m.curPos)
  {
    if CharTypeOf(src[m.index]) == Note || CharTypeOf(src[m.index]) == Rest {
      StepMoves(m, src, cfg);
      MoveTimeForward(m.curPos, CommandLength(src, m.index, m.defaultLength), m.tempo);
    } else if src[m.index] != ',' {
      StepStays(m, src, cfg);
    }
  }

  lemma MoveTimeForward(curPos: real, len: real, tempo: int)
    requires tempo > 0 && len > 0.0
    ensures MoveTime(curPos, len, tempo) > curPos
  {
    assert 240.0 / tempo as real > 0.0;
  }

  /** A length moved by moveTime goes as far as the unscaled length exactly
      at tempo 240, further at a slower tempo and less far at a faster one. */
  lemma AdvanceAgainstLength(curPos: real, len: real, tempo: int)
    requires tempo > 0 && len > 0.0
    ensures curPos + len == MoveTime(curPos, len, tempo) <==> tempo == 240
    ensures curPos + len < MoveTime(curPos, len, tempo) <==> tempo < 240
  {
    var t := tempo as real;
    var q := 240.0 / t;
    assert MoveTime(curPos, len, tempo) - curPos == len * q;
    assert q * t == 240.0;
    if tempo < 240 {
      assert q > 1.0;
      assert len * q > len * 1.0;
    } else if tempo > 240 {
      assert q < 1.0;
      assert len * q < len * 1.0;
    }
  }

  /** The NoteOff of a note is placed one unscaled length after its NoteOn,
      while the position moves by the length scaled by 240 / tempo: the
      NoteOff falls where the next command starts exactly when the tempo
      is 240, before it at a slower tempo and after it at a faster one. */
  lemma NoteOffAndTempo(m: Machine, src: string, cfg: Config)
    requires Ready(m, src) && NonNegative(m) && CharTypeOf(src[m.index]) == Note
    ensures var r := Step(m, src, cfg);
            && (m.curPos + r.speed == r.curPos <==> m.tempo == 240)
            && (m.curPos + r.speed < r.curPos <==> m.tempo < 240)
  {
    var s := Scan(src, m.index + 1);
    NoteCommand(m, src, cfg);
    LengthPositive(s.mods, m.defaultLength);
    AdvanceAgainstLength(m.curPos, NoteSpeed(s.mods, m.defaultLength), m.tempo);
  }

  // ---------------------------------------------------------------------
  // Ties.

  /** A note tied into a following note: across the two notes exactly one
      NoteOn is emitted (for the first, at its position) and no NoteOff. The
      second note leaves a pending tie only if it carries one itself. */
  lemma TieJoinsTwoNotes(m: Machine, src: string, cfg: Config)
    requires Ready(m, src) && !m.skipNext
    requires CharTypeOf(src[m.index]) == Note && Scan(src, m.index + 1).mods.tie
    requires Ready(Step(m, src, cfg), src) && CharTypeOf(src[Step(m, src, cfg).index]) == Note
    ensures var n := Step(m, src, cfg);
            var r := Step(n, src, cfg);
            && r.tracks == AppendToCurrent(m.tracks, [NoteOn(m.curPos * 1000.0, m.track, Signed32(n.note), cfg.volume)])
            && r.skipNext == Scan(src, Scan(src, m.index + 1).next + 1).mods.tie
  {
    var n := Step(m, src, cfg);
    TieFirst(m, src, cfg);
    NoteTie(n, src, cfg);
  }

  lemma TieFirst(m: Machine, src: string, cfg: Config)
    requires Ready(m, src) && !m.skipNext
    requires CharTypeOf(src[m.index]) == Note && Scan(src, m.index + 1).mods.tie
    ensures var n := Step(m, src, cfg);
            && n.tracks == AppendToCurrent(m.tracks, [NoteOn(m.curPos * 1000.0, m.track, Signed32(n.note), cfg.volume)])
            && n.skipNext && n.index == Scan(src, m.index + 1).next
  {
    NoteEmits(m, src, cfg);
    NoteTie(m, src, cfg);
  }

  /** The tie a note leaves pending, and the silence of a note after one. */
  lemma NoteTie(m: Machine, src: string, cfg: Config)
    requires Ready(m, src) && CharTypeOf(src[m.index]) == Note
    ensures var r := Step(m, src, cfg);
            var s := Scan(src, m.index + 1);
            && r.index == s.next && r.skipNext == s.mods.tie
            && (m.skipNext ==> r.tracks == m.tracks)
  {
    assert Step(m, src, cfg) == NoteStep(m, src, cfg);
    AppendNothing(m.tracks);
  }

  // ---------------------------------------------------------------------
  // Tracks over a whole run.

  /** The number of track separators in s. */
  function Separators(s: string): nat {
    multiset(s)[',']
  }

  lemma SeparatorsSplit(src: string, i: nat, k: nat)
    requires i < k <= |src|
    requires forall p :: i < p < k ==> !CommandAt(src, p)
    ensures Separators(src[i..]) == (if src[i] == ',' then 1 else 0) + Separators(src[k..])
  {
    assert src[i..] == [src[i]] + src[i + 1..k] + src[k..];
    var mid := src[i + 1..k];
    forall q | 0 <= q < |mid|
      ensures mid[q] != ','
    {
      assert mid[q] == src[i + 1 + q] && !CommandAt(src, i + 1 + q);
    }
    assert ',' !in mid;
  }

  /** parseNote opens one track per separator in the rest of the text, and
      the track number goes up by the same count. */
  lemma {:induction false} RunCountsTracks(m: Machine, src: string, cfg: Config)
    requires Completes(m, src, cfg)
    ensures var r := Run(m, src, cfg);
            && |r.tracks| == |m.tracks| + Separators(src[m.index..])
            && r.track == m.track + Separators(src[m.index..])
    decreases |src| - m.index
  {
    if m.index < |src| {
      var n := Step(m, src, cfg);
      StepAdvances(m, src, cfg);
      StepTracks(m, src, cfg);
      RunCountsTracks(n, src, cfg);
      SeparatorsSplit(src, m.index, n.index);
    }
  }

  /** Every event in the tracks from index base on carries, as its track
      number, its track's distance from base. */
  predicate Numbered(tracks: seq<seq<Event>>, base: nat) {
    forall t, e :: base <= t < |tracks| && e in tracks[t] ==> e.track == t - base
  }

  /** The current track is the one numbered by the track counter. */
  predicate OnTrack(m: Machine, base: nat) {
    |m.tracks| == base + m.track + 1 && Numbered(m.tracks, base)
  }

  lemma AppendNumbered(tracks: seq<seq<Event>>, base: nat, es: seq<Event>)
    requires |tracks| > base && Numbered(tracks, base)
    requires forall e :: e in es ==> e.track == |tracks| - 1 - base
    ensures Numbered(AppendToCurrent(tracks, es), base)
  {
    var r := AppendToCurrent(tracks, es);
    forall t: nat, e: Event | base <= t < |r| && e in r[t]
      ensures e.track == t - base
    {
      if t < |tracks| - 1 {
        assert r[t] == tracks[t];
      }
    }
  }

  /** The events of a note carry the current track number. */
  lemma NoteNumbered(m: Machine, src: string, cfg: Config, base: nat)
    requires Ready(m, src) && OnTrack(m, base)
    requires CharTypeOf(src[m.index]) == Note
    ensures Numbered(Step(m, src, cfg).tracks, base)
  {
    var r := Step(m, src, cfg);
    NoteEmits(m, src, cfg);
    if !m.skipNext {
      var on := NoteOn(m.curPos * 1000.0, m.track, Signed32(r.note), cfg.volume);
      var off := NoteOff((m.curPos + r.speed) * 1000.0, m.track, Signed32(r.note), 0);
      AppendNumbered(m.tracks, base, [on]);
      AppendNumbered(m.tracks, base, [on, off]);
    }
  }

  lemma StepNumbered(m: Machine, src: string, cfg: Config, base: nat)
    requires Ready(m, src) && OnTrack(m, base)
    ensures OnTrack(Step(m, src, cfg), base)
  {
    var r := Step(m, src, cfg);
    StepTracks(m, src, cfg);
    match CharTypeOf(src[m.index])
    case Note => NoteNumbered(m, src, cfg, base);
    case Vol =>
      assert r == VolumeStep(m, src, cfg);
      AppendNumbered(m.tracks, base, [Controller(m.curPos * 1000.0, m.track, 7, cfg.volume)]);
    case Trk =>
      assert r == TrackStep(m, cfg);
      forall u: nat, e: Event | base <= u < |r.tracks| && e in r.tracks[u]
        ensures e.track == u - base
      {
        assert u < |m.tracks| && r.tracks[u] == m.tracks[u];
      }
    case Oct => assert r == OctaveStep(m, src);
    case _ => assert r.tracks == m.tracks;
  }

  lemma {:induction false} RunNumbered(m: Machine, src: string, cfg: Config, base: nat)
    requires Completes(m, src, cfg) && OnTrack(m, base)
    ensures OnTrack(Run(m, src, cfg), base)
    decreases |src| - m.index
  {
    if m.index < |src| {
      StepNumbered(m, src, cfg, base);
      RunNumbered(Step(m, src, cfg), src, cfg, base);
    }
  }

  /** parse: the tracks it opens are one more than the separators in the
      text, the track counter ends at the number of separators, the tracks
      that existed before are untouched, and every event in the k-th new
      track carries track number k. */
  lemma CompileTracks(m: Machine, data: string, cfg: Config)
    requires Completes(Start(m, cfg), data, cfg)
    ensures var r := Compile(m, data, cfg);
            && |r.tracks| == |m.tracks| + 1 + Separators(data)
            && r.track == Separators(data)
            && r.tracks[..|m.tracks|] == m.tracks
            && Numbered(r.tracks, |m.tracks|)
  {
    var s := Start(m, cfg);
    assert data[0..] == data;
    RunCountsTracks(s, data, cfg);
    RunNumbered(s, data, cfg, |m.tracks|);
  }

  // ---------------------------------------------------------------------
  // Time order over a whole run.

  /** NoteOn and Controller events mark the position they are emitted at;
      a NoteOff lies one unscaled length after its NoteOn. */
  predicate Marks(e: Event) {
    !e.NoteOff?
  }

  /** The marking events of a track come in non-decreasing time order. */
  predicate InOrder(t: seq<Event>) {
    forall i, j :: 0 <= i < j < |t| && Marks(t[i]) && Marks(t[j]) ==> t[i].time <= t[j].time
  }

  /** No marking event of the track lies after the given time. */
  predicate NotAfter(t: seq<Event>, time: real) {
    forall i :: 0 <= i < |t| && Marks(t[i]) ==> t[i].time <= time
  }

  /** Every track from index base on is in order, and the current one has
      nothing after the position pos. */
  predicate TimeOrdered(tracks: seq<seq<Event>>, pos: real, base: nat) {
    && |tracks| > base
    && (forall k :: base <= k < |tracks| ==> InOrder(tracks[k]))
    && NotAfter(tracks[|tracks| - 1], pos * 1000.0)
  }

  /** Events that mark the current time, added to a track that has nothing
      later, keep it in order. */
  lemma AppendInOrder(t: seq<Event>, es: seq<Event>, time: real)
    requires InOrder(t) && NotAfter(t, time)
    requires forall i :: 0 <= i < |es| && Marks(es[i]) ==> es[i].time == time
    ensures InOrder(t + es) && NotAfter(t + es, time)
  {
    var u := t + es;
    forall i, j | 0 <= i < j < |u| && Marks(u[i]) && Marks(u[j])
      ensures u[i].time <= u[j].time
    {
      if j < |t| {
        assert u[i] == t[i] && u[j] == t[j];
      } else if i < |t| {
        assert u[i] == t[i] && u[j] == es[j - |t|];
      } else {
        assert u[i] == es[i - |t|] && u[j] == es[j - |t|];
      }
    }
    forall i | 0 <= i < |u| && Marks(u[i])
      ensures u[i].time <= time
    {
      if i < |t| {
        assert u[i] == t[i];
      } else {
        assert u[i] == es[i - |t|];
      }
    }
  }

  /** Emitting events at the position pos and then moving on to next, no
      earlier than pos, keeps the tracks time-ordered. */
  lemma EmitOrdered(tracks: seq<seq<Event>>, es: seq<Event>, pos: real, next: real, base: nat)
    requires TimeOrdered(tracks, pos, base) && pos <= next
    requires forall i :: 0 <= i < |es| && Marks(es[i]) ==> es[i].time == pos * 1000.0
    ensures TimeOrdered(AppendToCurrent(tracks, es), next, base)
  {
    var r := AppendToCurrent(tracks, es);
    var k := |tracks| - 1;
    AppendInOrder(tracks[k], es, pos * 1000.0);
    forall q | base <= q < |r|
      ensures InOrder(r[q])
    {
      if q < k {
        assert r[q] == r[..k][q] == tracks[..k][q];
      }
    }
    assert NotAfter(r[k], next * 1000.0);
  }

  /** Only notes, volume commands and track separators touch the tracks. */
  lemma StepSilent(m: Machine, src: string, cfg: Config)
    requires Ready(m, src)
    requires CharTypeOf(src[m.index]) != Note && CharTypeOf(src[m.index]) != Vol && CharTypeOf(src[m.index]) != Trk
    ensures Step(m, src, cfg).tracks == m.tracks
  {
    var r := Step(m, src, cfg);
    match CharTypeOf(src[m.index])
    case Oct => assert r == OctaveStep(m, src);
    case Len => assert r == LengthStep(m, src);
    case Tempo => assert r == TempoStep(m, src);
    case Rest => assert r == RestStep(m, src);
    case _ =>
  }

  lemma NoteOrdered(m: Machine, src: string, cfg: Config, base: nat)
    requires Ready(m, src) && NonNegative(m) && TimeOrdered(m.tracks, m.curPos, base)
    requires CharTypeOf(src[m.index]) == Note
    ensures var r := Step(m, src, cfg); TimeOrdered(r.tracks, r.curPos, base)
  {
    var r := Step(m, src, cfg);
    StepTime(m, src, cfg);
    NoteEmits(m, src, cfg);
    var on := NoteOn(m.curPos * 1000.0, m.track, Signed32(r.note), cfg.volume);
    var off := NoteOff((m.curPos + r.speed) * 1000.0, m.track, Signed32(r.note), 0);
    if m.skipNext {
      EmitOrdered(m.tracks, [], m.curPos, r.curPos, base);
      AppendNothing(m.tracks);
    } else if Scan(src, m.index + 1).mods.tie {
      EmitOrdered(m.tracks, [on], m.curPos, r.curPos, base);
    } else {
      EmitOrdered(m.tracks, [on, off], m.curPos, r.curPos, base);
    }
  }

  lemma TrackOrdered(m: Machine, src: string, cfg: Config, base: nat)
    requires Ready(m, src) && TimeOrdered(m.tracks, m.curPos, base) && src[m.index] == ','
    ensures var r := Step(m, src, cfg); TimeOrdered(r.tracks, r.curPos, base)
  {
    var r := Step(m, src, cfg);
    assert r == TrackStep(m, cfg);
    forall q | base <= q < |r.tracks|
      ensures InOrder(r.tracks[q])
    {
      if q < |m.tracks| {
        assert r.tracks[q] == r.tracks[..|m.tracks|][q];
      }
    }
  }

  /** Every iteration keeps the tracks time-ordered. */
  lemma StepOrdered(m: Machine, src: string, cfg: Config, base: nat)
    requires Ready(m, src) && NonNegative(m) && TimeOrdered(m.tracks, m.curPos, base)
    ensures var r := Step(m, src, cfg); TimeOrdered(r.tracks, r.curPos, base)
  {
    var r := Step(m, src, cfg);
    var t := CharTypeOf(src[m.index]);
    if t == Note {
      NoteOrdered(m, src, cfg, base);
    } else if t == Trk {
      TrackOrdered(m, src, cfg, base);
    } else if t == Vol {
      VolumeCommand(m, src, cfg);
      EmitOrdered(m.tracks, [Controller(m.curPos * 1000.0, m.track, 7, cfg.volume)], m.curPos, r.curPos, base);
    } else {
      StepTime(m, src, cfg);
      StepSilent(m, src, cfg);
      EmitOrdered(m.tracks, [], m.curPos, r.curPos, base);
      AppendNothing(m.tracks);
    }
  }

  lemma {:induction false} RunOrdered(m: Machine, src: string, cfg: Config, base: nat)
    requires Completes(m, src, cfg) && NonNegative(m) && TimeOrdered(m.tracks, m.curPos, base)
    ensures var r := Run(m, src, cfg); TimeOrdered(r.tracks, r.curPos, base)
    decreases |src| - m.index
  {
    if m.index < |src| {
      StepOrdered(m, src, cfg, base);
      StepNonNegative(m, src, cfg);
      RunOrdered(Step(m, src, cfg), src, cfg, base);
    }
  }

  /** parse: in every track it opens, NoteOn and Controller times never
      decrease, since only a track separator moves the position back. */
  lemma CompileOrdered(m: Machine, data: string, cfg: Config)
    requires Completes(Start(m, cfg), data, cfg)
    ensures var r := Compile(m, data, cfg);
            forall k :: |m.tracks| <= k < |r.tracks| ==> InOrder(r.tracks[k])
  {
    var s := Start(m, cfg);
    assert s.tracks[|m.tracks|] == [];
    RunOrdered(s, data, cfg, |m.tracks|);
  }
}
