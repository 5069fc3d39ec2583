/** Character classification of the MML compiler: the category of one input
    character, and the pitch class of a note letter. Both look at the
    upper-cased character, so command letters are case-insensitive. */
module Classifier {

  /** The categories of get_char_type, one constructor per textual tag:
      "n", "rest", "mod", "trk", "len", "vol", "tempo", "oct", "val", "stop"
      and the empty tag for every other character. */
  datatype CharType = Note | Rest | Mod | Trk | Len | Vol | Tempo | Oct | Val | Stop | Unknown
  {
    /** Categories that end a modifier run; the dispatcher acts on them. */
    predicate IsCommand() {
      !(Mod? || Val? || Stop? || Unknown?)
    }
  }

  /** ASCII upper-casing, the behaviour assumed of `ntlibc_toupper`. */
  function ToUpper(c: char): (u: char)
    ensures 'a' <= c <= 'z' ==> 'A' <= u <= 'Z' && u as int == c as int - 32
    ensures !('a' <= c <= 'z') ==> u == c
  {
    if 'a' <= c <= 'z' then (c as int - 32) as char else c
  }

  /** ASCII lower-casing, used only to state case-insensitivity. */
  function ToLower(c: char): (l: char)
    ensures 'A' <= c <= 'Z' ==> 'a' <= l <= 'z' && ToUpper(l) == c
    ensures !('A' <= c <= 'Z') ==> l == c
  {
    if 'A' <= c <= 'Z' then (c as int + 32) as char else c
  }

  predicate IsDigit(c: char) {
    '0' <= c <= '9'
  }

  /** get_note_value: the pitch class of a note letter, -1 for anything else. */
  function NoteValue(c: char): (v: int)
    ensures v == -1 || v in {0, 2, 4, 5, 7, 9, 11}
    ensures v >= 0 <==> 'A' <= ToUpper(c) <= 'G'
  {
    match ToUpper(c)
    case 'C' => 0
    case 'D' => 2
    case 'E' => 4
    case 'F' => 5
    case 'G' => 7
    case 'A' => 9
    case 'B' => 11
    case _ => -1
  }

  /** get_char_type. Digits are exactly the values and the comma exactly the
      track separator; CharTypeMeaning characterises the other categories. */
  function CharTypeOf(c: char): (t: CharType)
    ensures t == Val <==> IsDigit(c)
    ensures t == Trk <==> c == ','
  {
    var u := ToUpper(c);
    if 'A' <= u <= 'G' then Note
    else if u == 'R' then Rest
    else if u == '#' || u == '+' || u == '-' || u == '&' then Mod
    else if u == ',' then Trk
    else if u == 'L' then Len
    else if u == 'V' then Vol
    else if u == 'T' then Tempo
    else if u == 'O' || u == '>' || u == '<' then Oct
    else if IsDigit(u) then Val
    else if u == '.' then Stop
    else Unknown
  }

  /** Exactly the characters with a pitch class are notes; the modifier and
      dot categories are the characters listed; the letter commands are
      recognised in either case, and so is the octave letter. */
  lemma CharTypeMeaning(c: char)
    ensures CharTypeOf(c) == Note <==> NoteValue(c) >= 0
    ensures CharTypeOf(c) == Mod <==> c in "#+-&"
    ensures CharTypeOf(c) == Stop <==> c == '.'
    ensures CharTypeOf(c) == Rest <==> ToUpper(c) == 'R'
    ensures CharTypeOf(c) == Oct <==> ToUpper(c) == 'O' || c == '>' || c == '<'
    ensures CharTypeOf(c) == Len <==> ToUpper(c) == 'L'
    ensures CharTypeOf(c) == Vol <==> ToUpper(c) == 'V'
    ensures CharTypeOf(c) == Tempo <==> ToUpper(c) == 'T'
  {
  }

  /** Classification and pitch class ignore the case of letters. */
  lemma CaseInsensitive(c: char)
    ensures CharTypeOf(c) == CharTypeOf(ToUpper(c)) == CharTypeOf(ToLower(c))
    ensures NoteValue(c) == NoteValue(ToUpper(c)) == NoteValue(ToLower(c))
  {
  }

  /** The pitch classes of C, D, E, F, G, A, B rise strictly within an octave. */
  lemma DiatonicOrder()
    ensures NoteValue('C') == 0 && NoteValue('B') == 11
    ensures NoteValue('C') < NoteValue('D') < NoteValue('E') < NoteValue('F')
    ensures NoteValue('F') < NoteValue('G') < NoteValue('A') < NoteValue('B')
  {
  }
}
