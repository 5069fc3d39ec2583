/** The modifier scanner (parseModifiers) as a function on the source text,
    and what its result means: the last number, the last accidental, and
    whether a tie or a dot occurs anywhere in the modifier run. */
module Scanner {
  import opened Classifier

  /** The four modifier slots {_value, halfStep, stop, and}. */
  datatype Modifiers = Modifiers(value: nat, halfStep: int, stop: bool, tie: bool)

  /** The record parseModifiers starts from: every slot zero. */
  const NoMods := Modifiers(0, 0, false, false)

  /** The record found and the index the cursor is left at. */
  datatype Scanned = Scanned(mods: Modifiers, next: nat)

  predicate AllDigits(s: seq<char>) {
    forall k :: 0 <= k < |s| ==> IsDigit(s[k])
  }

  function DigitValue(c: char): nat
    requires IsDigit(c)
  {
    c as int - '0' as int
  }

  /** The base-10 value of a run of digits, as atoi reads it. */
  function DecimalValue(s: seq<char>): (n: nat)
    requires AllDigits(s)
    ensures |s| == 1 ==> n == DigitValue(s[0])
  {
    if s == [] then 0 else DecimalValue(s[..|s| - 1]) * 10 + DigitValue(s[|s| - 1])
  }

  /** One more digit at the end multiplies the value by ten and adds the
      digit. */
  lemma DecimalAppend(v: seq<char>, c: char)
    requires AllDigits(v) && IsDigit(c)
    ensures AllDigits(v + [c])
    ensures DecimalValue(v + [c]) == DecimalValue(v) * 10 + DigitValue(c)
  {
    assert (v + [c])[..|v|] == v;
  }

  /** The character at p ends a modifier run. */
  predicate CommandAt(src: seq<char>, p: nat)
    requires p < |src|
  {
    CharTypeOf(src[p]).IsCommand()
  }

  /** A number read from the text and the index just past its last digit. */
  datatype Number = Number(value: nat, end: nat)

  /** The inner loop of parseModifiers followed by atoi: the digits from j
      on extend the value v read so far, until a non-digit or the end. */
  function ReadDigits(src: seq<char>, j: nat, v: nat): (r: Number)
    requires j <= |src|
    ensures j <= r.end <= |src|
    ensures r.end == |src| || !IsDigit(src[r.end])
    ensures forall p :: j <= p < r.end ==> !CommandAt(src, p)
    decreases |src| - j
  {
    if j < |src| && IsDigit(src[j]) then ReadDigits(src, j + 1, v * 10 + DigitValue(src[j]))
    else Number(v, j)
  }

  /** Reading on from the value of the digits src[i..j] gives the value of
      the whole run. */
  lemma {:induction false} ReadDigitsValue(src: seq<char>, i: nat, j: nat, v: nat)
    requires i <= j <= |src| && AllDigits(src[i..j]) && v == DecimalValue(src[i..j])
    ensures var r := ReadDigits(src, j, v);
            AllDigits(src[i..r.end]) && r.value == DecimalValue(src[i..r.end])
    decreases |src| - j
  {
    if j < |src| && IsDigit(src[j]) {
      var d := src[i..j + 1];
      assert d[..|d| - 1] == src[i..j];
      assert AllDigits(d);
      ReadDigitsValue(src, i, j + 1, v * 10 + DigitValue(src[j]));
    }
  }

  /** The effect of one modifier character (#, +, - or &) on the record. */
  function ApplyMod(acc: Modifiers, c: char): (r: Modifiers)
    ensures r.value == acc.value && r.stop == acc.stop
    ensures r.tie == (acc.tie || c == '&')
    ensures c == '&' ==> r.halfStep == acc.halfStep
    ensures c != '&' ==> (r.halfStep == 1 <==> c == '+' || c == '#') && (r.halfStep == 1 || r.halfStep == -1)
  {
    if c == '+' || c == '#' then acc.(halfStep := 1)
    else if c == '&' then acc.(tie := true)
    else acc.(halfStep := -1)
  }

  /** The record after one non-digit character of a modifier run. */
  function AfterChar(acc: Modifiers, c: char): (r: Modifiers)
    ensures r.value == acc.value
    ensures r.stop == (acc.stop || c == '.')
    ensures r.tie == (acc.tie || c == '&')
    ensures CharTypeOf(c) != Mod ==> r.halfStep == acc.halfStep
  {
    if CharTypeOf(c) == Mod then ApplyMod(acc, c)
    else if CharTypeOf(c) == Stop then acc.(stop := true)
    else acc
  }

  /** One pass of the loop of parseModifiers over a character that does
      not end the run: a digit starts a number, which is read whole; a
      modifier or a dot updates the record; anything else is skipped. */
  function ScanChar(src: seq<char>, i: nat, acc: Modifiers): (r: Scanned)
    requires i < |src| && !CommandAt(src, i)
    ensures i < r.next <= |src|
    ensures forall p :: i <= p < r.next ==> !CommandAt(src, p)
    ensures -1 <= acc.halfStep <= 1 ==> -1 <= r.mods.halfStep <= 1
  {
    if IsDigit(src[i]) then
      var n := ReadDigits(src, i, 0);
      Scanned(acc.(value := n.value), n.end)
    else Scanned(AfterChar(acc, src[i]), i + 1)
  }

  /** The loop of parseModifiers from position i with the record acc so far.
      It stops at the first command character or at the end of the text;
      everything it passes over is digits, modifiers, dots or unknown. */
  function ScanFrom(src: seq<char>, i: nat, acc: Modifiers): (r: Scanned)
    requires i <= |src|
    ensures i <= r.next <= |src|
    ensures r.next == |src| || CommandAt(src, r.next)
    ensures forall p :: i <= p < r.next ==> !CommandAt(src, p)
    ensures -1 <= acc.halfStep <= 1 ==> -1 <= r.mods.halfStep <= 1
    decreases |src| - i
  {
    if i == |src| || CommandAt(src, i) then Scanned(acc, i)
    else
      var s := ScanChar(src, i, acc);
      ScanFrom(src, s.next, s.mods)
  }

  /** parseModifiers called with the cursor at i. */
  function Scan(src: seq<char>, i: nat): (r: Scanned)
    requires i <= |src|
    ensures i <= r.next <= |src|
    ensures r.next == |src| || CommandAt(src, r.next)
  {
    ScanFrom(src, i, NoMods)
  }

  // ---------------------------------------------------------------------
  // Reference definitions, read from the end of the modifier run backward.

  predicate HasDigit(s: seq<char>) {
    s != [] && (IsDigit(s[|s| - 1]) || HasDigit(s[..|s| - 1]))
  }

  lemma {:induction false} HasDigitCons(c: char, s: seq<char>)
    ensures HasDigit([c] + s) == (IsDigit(c) || HasDigit(s))
    decreases |s|
  {
    if s != [] {
      assert ([c] + s)[..|[c] + s| - 1] == [c] + s[..|s| - 1];
      HasDigitCons(c, s[..|s| - 1]);
    } else {
      assert ([c] + s)[..0] == [];
    }
  }

  lemma {:induction false} HasDigitAppend(a: seq<char>, b: seq<char>)
    ensures HasDigit(a + b) == (HasDigit(a) || HasDigit(b))
    decreases |b|
  {
    if b == [] {
      assert a + b == a;
    } else {
      assert (a + b)[..|a + b| - 1] == a + b[..|b| - 1];
      HasDigitAppend(a, b[..|b| - 1]);
    }
  }

  /** The longest suffix of s made of digits. */
  function TrailingDigits(s: seq<char>): (d: seq<char>)
    ensures AllDigits(d) && |d| <= |s| && d == s[|s| - |d|..]
  {
    if s == [] || !IsDigit(s[|s| - 1]) then []
    else TrailingDigits(s[..|s| - 1]) + [s[|s| - 1]]
  }

  /** The value of the last maximal digit run in s, 0 when s has no digit. */
  function LastNumber(s: seq<char>): nat {
    if s == [] then 0
    else if IsDigit(s[|s| - 1]) then DecimalValue(TrailingDigits(s))
    else LastNumber(s[..|s| - 1])
  }

  /** +1 if the last accidental in s is + or #, -1 if it is -, 0 if none. */
  function LastAccidental(s: seq<char>): int {
    if s == [] then 0
    else if s[|s| - 1] == '+' || s[|s| - 1] == '#' then 1
    else if s[|s| - 1] == '-' then -1
    else LastAccidental(s[..|s| - 1])
  }

  // ---------------------------------------------------------------------
  // Lemmas about the reference definitions.

  lemma {:induction false} TrailingDigitsAll(d: seq<char>)
    requires AllDigits(d)
    ensures TrailingDigits(d) == d
  {
    if d != [] {
      assert AllDigits(d[..|d| - 1]);
      TrailingDigitsAll(d[..|d| - 1]);
      assert d == d[..|d| - 1] + [d[|d| - 1]];
    }
  }

  /** A non-digit at the end of a cuts every digit run of b off from a. */
  lemma {:induction false} TrailingDigitsCut(a: seq<char>, b: seq<char>)
    requires |a| > 0 && !IsDigit(a[|a| - 1])
    ensures TrailingDigits(a + b) == TrailingDigits(b)
    decreases |b|
  {
    if b == [] {
      assert a + b == a;
    } else {
      var b' := b[..|b| - 1];
      assert (a + b)[..|a + b| - 1] == a + b';
      TrailingDigitsCut(a, b');
    }
  }

  lemma {:induction false} LastNumberCut(a: seq<char>, b: seq<char>)
    requires |a| > 0 && !IsDigit(a[|a| - 1])
    requires HasDigit(b)
    ensures LastNumber(a + b) == LastNumber(b)
    decreases |b|
  {
    var b' := b[..|b| - 1];
    assert (a + b)[..|a + b| - 1] == a + b';
    if IsDigit(b[|b| - 1]) {
      TrailingDigitsCut(a, b);
    } else {
      LastNumberCut(a, b');
    }
  }

  lemma {:induction false} LastNumberNoDigit(a: seq<char>, b: seq<char>)
    requires !HasDigit(b)
    ensures LastNumber(a + b) == LastNumber(a)
    decreases |b|
  {
    if b == [] {
      assert a + b == a;
    } else {
      var b' := b[..|b| - 1];
      assert (a + b)[..|a + b| - 1] == a + b';
      LastNumberNoDigit(a, b');
    }
  }

  /** A digit run d followed by b, where b does not continue the run. */
  lemma RunThenRest(d: seq<char>, b: seq<char>)
    requires |d| > 0 && AllDigits(d)
    requires b == [] || !IsDigit(b[0])
    ensures LastNumber(d + b) == if HasDigit(b) then LastNumber(b) else DecimalValue(d)
  {
    if HasDigit(b) {
      assert b == [b[0]] + b[1..];
      HasDigitCons(b[0], b[1..]);
      assert d + b == (d + [b[0]]) + b[1..];
      LastNumberCut(d + [b[0]], b[1..]);
      LastNumberCut([b[0]], b[1..]);
    } else {
      LastNumberNoDigit(d, b);
      TrailingDigitsAll(d);
    }
  }

  /** A non-digit c in front of rest leaves the last number of rest. */
  lemma NonDigitThenRest(c: char, rest: seq<char>)
    requires !IsDigit(c)
    ensures HasDigit([c] + rest) == HasDigit(rest)
    ensures HasDigit(rest) ==> LastNumber([c] + rest) == LastNumber(rest)
  {
    HasDigitCons(c, rest);
    if HasDigit(rest) {
      LastNumberCut([c], rest);
    }
  }

  lemma {:induction false} LastAccidentalAppend(a: seq<char>, b: seq<char>)
    ensures LastAccidental(a + b) == if LastAccidental(b) != 0 then LastAccidental(b) else LastAccidental(a)
    decreases |b|
  {
    if b == [] {
      assert a + b == a;
    } else {
      assert (a + b)[..|a + b| - 1] == a + b[..|b| - 1];
      LastAccidentalAppend(a, b[..|b| - 1]);
    }
  }

  lemma {:induction false} DigitsHaveNoAccidental(d: seq<char>)
    requires AllDigits(d)
    ensures LastAccidental(d) == 0
    ensures '&' !in d && '.' !in d
  {
    if d != [] {
      assert AllDigits(d[..|d| - 1]);
      DigitsHaveNoAccidental(d[..|d| - 1]);
      assert d == d[..|d| - 1] + [d[|d| - 1]];
    }
  }

  // ---------------------------------------------------------------------
  // What the scanner computes.

  /** res is what scanning the modifier run `run` makes of the record acc:
      a number in the run replaces the value, the last accidental of the run
      wins, and the tie and dot flags are set by any & or . in the run. */
  predicate Summarises(acc: Modifiers, run: seq<char>, res: Modifiers) {
    && res.value == (if HasDigit(run) then LastNumber(run) else acc.value)
    && res.halfStep == (if LastAccidental(run) != 0 then LastAccidental(run) else acc.halfStep)
    && res.tie == (acc.tie || '&' in run)
    && res.stop == (acc.stop || '.' in run)
  }

  lemma DigitRunSummary(d: seq<char>, rest: seq<char>, acc: Modifiers, res: Modifiers)
    requires |d| > 0 && AllDigits(d)
    requires rest == [] || !IsDigit(rest[0])
    requires Summarises(acc.(value := DecimalValue(d)), rest, res)
    ensures Summarises(acc, d + rest, res)
  {
    RunThenRest(d, rest);
    LastAccidentalAppend(d, rest);
    DigitsHaveNoAccidental(d);
    HasDigitAppend(d, rest);
  }

  lemma CharSummary(c: char, rest: seq<char>, acc: Modifiers, res: Modifiers)
    requires !IsDigit(c)
    requires Summarises(AfterChar(acc, c), rest, res)
    ensures Summarises(acc, [c] + rest, res)
  {
    NonDigitThenRest(c, rest);
    LastAccidentalAppend([c], rest);
    assert [c][..0] == [];
  }

  lemma SliceSplit(s: seq<char>, i: nat, j: nat, k: nat)
    requires i <= j <= k <= |s|
    ensures s[i..k] == s[i..j] + s[j..k]
  {
  }

  /** A loop pass over a digit: if the rest of the scan summarises what
      follows the number, the whole scan summarises the number and the rest. */
  lemma DigitPass(src: seq<char>, i: nat, acc: Modifiers)
    requires i < |src| && IsDigit(src[i])
    requires var n := ReadDigits(src, i, 0);
             var r := ScanFrom(src, n.end, acc.(value := n.value));
             Summarises(acc.(value := n.value), src[n.end..r.next], r.mods)
    ensures var r := ScanFrom(src, i, acc); Summarises(acc, src[i..r.next], r.mods)
  {
    var r := ScanFrom(src, i, acc);
    var n := ReadDigits(src, i, 0);
    var j := n.end;
    assert src[i..i] == [];
    ReadDigitsValue(src, i, i, 0);
    SliceSplit(src, i, j, r.next);
    assert j < r.next ==> src[j..r.next][0] == src[j];
    DigitRunSummary(src[i..j], src[j..r.next], acc, r.mods);
  }

  /** A loop pass over a modifier, a dot or an unknown character. */
  lemma CharPass(src: seq<char>, i: nat, acc: Modifiers)
    requires i < |src| && !CommandAt(src, i) && !IsDigit(src[i])
    requires var r := ScanFrom(src, i + 1, AfterChar(acc, src[i]));
             Summarises(AfterChar(acc, src[i]), src[i + 1..r.next], r.mods)
    ensures var r := ScanFrom(src, i, acc); Summarises(acc, src[i..r.next], r.mods)
  {
    var r := ScanFrom(src, i, acc);
    assert r == ScanFrom(src, i + 1, AfterChar(acc, src[i]));
    SliceSplit(src, i, i + 1, r.next);
    assert src[i..i + 1] == [src[i]];
    CharSummary(src[i], src[i + 1..r.next], acc, r.mods);
  }

  /** ScanFrom from an arbitrary record summarises the run it passes over. */
  lemma {:induction false} ScanFromValues(src: seq<char>, i: nat, acc: Modifiers)
    requires i <= |src|
    ensures var r := ScanFrom(src, i, acc); Summarises(acc, src[i..r.next], r.mods)
    decreases |src| - i
  {
    if i == |src| || CommandAt(src, i) {
      assert src[i..i] == [];
    } else if IsDigit(src[i]) {
      var n := ReadDigits(src, i, 0);
      ScanFromValues(src, n.end, acc.(value := n.value));
      DigitPass(src, i, acc);
    } else {
      ScanFromValues(src, i + 1, AfterChar(acc, src[i]));
      CharPass(src, i, acc);
    }
  }

  /** parseModifiers: the cursor ends at the next command character (or the
      end of the text) and never moves backward; the record holds the last
      number of the run (0 if none), its last accidental (0 if none), and
      whether the run contains a tie mark or a dot. */
  lemma ScanMeaning(src: seq<char>, i: nat)
    requires i <= |src|
    ensures var r := Scan(src, i);
            var run := src[i..r.next];
            && i <= r.next <= |src|
            && (r.next == |src| || CommandAt(src, r.next))
            && r.mods.value == LastNumber(run)
            && r.mods.halfStep == LastAccidental(run)
            && r.mods.tie == ('&' in run)
            && r.mods.stop == ('.' in run)
  {
    ScanFromValues(src, i, NoMods);
    var run := src[i..Scan(src, i).next];
    if !HasDigit(run) {
      LastNumberNoDigit([], run);
      assert [] + run == run;
    }
  }
}
