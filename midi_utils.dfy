/** The integer helpers of UMidiUtils: the pitch class of a note number, and
    the packing of a 14-bit pitch-bend value into the two 7-bit data bytes of
    a Pitch Bend Change message (least significant byte first, as the MIDI
    1.0 Detailed Specification lays the message out). The source's masks and
    shifts act on non-negative values below 2^14 once the amount is cut to
    14 bits, so they are written as their arithmetic: x & 0x7F is x % 128,
    x >> 7 is x / 128 and x << 7 is x * 128; LowBits and Split14 state that
    this reading agrees with the bit operations. */
module MidiUtils {
  import Classifier

  /** C++ uint8. */
  type uint8 = x: int | 0 <= x < 0x100

  /** C++ int32. */
  type int32 = x: int | -0x8000_0000 <= x < 0x8000_0000

  /** NoteToChord: the pitch class 0..11 (C, C#, ..., B) of a note number,
      as the ordinal of the note enumeration. */
  function NoteToChord(note: uint8): (chord: nat)
    ensures chord < 12
    ensures (note - chord) % 12 == 0
  {
    note % 12
  }

  /** Notes an octave apart have the same pitch class. */
  lemma {:induction false} ChordPeriodic(note: uint8, k: nat)
    requires note + 12 * k < 0x100
    ensures NoteToChord((note + 12 * k) as uint8) == NoteToChord(note)
  {
    if k > 0 {
      ChordPeriodic(note, k - 1);
      assert note + 12 * k == (note + 12 * (k - 1)) + 12;
    }
  }

  /** The pitch class of a note written as a letter in some octave is the
      letter's own position in the octave, whatever the octave. */
  lemma ChordOfLetter(octave: nat, c: char)
    requires 'A' <= Classifier.ToUpper(c) <= 'G'
    requires octave * 12 + Classifier.NoteValue(c) < 0x100
    ensures NoteToChord((octave * 12 + Classifier.NoteValue(c)) as uint8) == Classifier.NoteValue(c)
  {
    var v := Classifier.NoteValue(c);
    ChordPeriodic(v as uint8, octave);
    assert v + 12 * octave == octave * 12 + v;
  }

  /** GetPitchBendAmount: the low 7 bits of data2 are the high 7 bits of
      the amount and data1 is added below them; the higher bits of data2 are
      dropped and data1 is not masked. */
  function GetPitchBendAmount(data1: uint8, data2: uint8): (amount: int32)
    ensures amount / 128 == data2 % 128 + data1 / 128
    ensures amount % 128 == data1 % 128
    ensures data1 < 128 ==> 0 <= amount < 0x4000
  {
    var y := (data2 % 128) * 128;
    var x := data1;
    y + x
  }

  /** ConvertPitchBendAmount: the amount is cut to its low 14 bits; data1
      gets the low 7 of them and data2 the high 7. The low 14 bits of an
      int32 in two's complement are its remainder modulo 0x4000 taken
      non-negative, which Dafny's % gives for negative amounts too. */
  function ConvertPitchBendAmount(amount: int32): (r: (uint8, uint8))
    ensures r.0 < 128 && r.1 < 128
    ensures r.1 * 128 + r.0 == amount % 0x4000
  {
    var a := amount % 0x4000;
    (a % 128, a / 128)
  }

  /** Masking a byte with 0x7F keeps its remainder by 128. */
  lemma LowBits(b: bv8)
    ensures (b & 0x7F) as int == b as int % 128
  {
  }

  /** A 14-bit value split into its low 7 and high 7 bits. */
  lemma Split14(a: bv16)
    requires a < 0x4000
    ensures (a & 0x7F) as int == a as int % 128
    ensures (a >> 7) as int == a as int / 128
  {
  }

  /** Unpacking and packing again gives back the amount's low 14 bits, and
      so every amount in 0..16383 itself; a negative amount comes back as
      its two's-complement low bits. */
  lemma PackAfterConvert(amount: int32)
    ensures var (d1, d2) := ConvertPitchBendAmount(amount);
            GetPitchBendAmount(d1, d2) == amount % 0x4000
    ensures 0 <= amount < 0x4000 ==>
              var (d1, d2) := ConvertPitchBendAmount(amount);
              GetPitchBendAmount(d1, d2) == amount
  {
  }

  /** Packing two data bytes and unpacking again gives back data1 and the
      low 7 bits of data2, whenever data1 is a 7-bit byte. */
  lemma ConvertAfterPack(data1: uint8, data2: uint8)
    requires data1 < 128
    ensures ConvertPitchBendAmount(GetPitchBendAmount(data1, data2)) == (data1, data2 % 128)
  {
  }
}
