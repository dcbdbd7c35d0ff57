/**
 * Chord transposition over the 12-tone table (index.js:131-156,
 * getTransposedChord).
 *
 * The source computes the new pitch index with JavaScript's `%`, which
 * truncates toward zero: for a shift below -12 - idx the index is negative,
 * the table lookup yields `undefined` and the chord is rendered as the text
 * "undefined". `Mode` selects between that arithmetic (`AsWritten`) and the
 * evidently intended Euclidean remainder (`Corrected`).
 */
module Chords {

  import opened Common

  const Sharps: seq<string> := ["C", "C#", "D", "D#", "E", "F", "F#", "G", "G#", "A", "A#", "B"]
  const Flats: seq<string> := ["C", "Db", "D", "Eb", "E", "F", "Gb", "G", "Ab", "A", "Bb", "B"]

  datatype Mode = AsWritten | Corrected

  /** The `toSharps` table, falling back to the name itself. */
  function ToSharps(base: string): string
  {
    if base == "Db" then "C#"
    else if base == "Eb" then "D#"
    else if base == "Gb" then "F#"
    else if base == "Ab" then "G#"
    else if base == "Bb" then "A#"
    else base
  }

  /** `sharps.indexOf(name)`, -1 when absent. */
  function NoteIndex(name: string): (r: int)
    ensures -1 <= r < 12
    ensures r >= 0 ==> Sharps[r] == name
    ensures r == -1 ==> name !in Sharps
  {
    if name == "C" then 0 else if name == "C#" then 1 else if name == "D" then 2
    else if name == "D#" then 3 else if name == "E" then 4 else if name == "F" then 5
    else if name == "F#" then 6 else if name == "G" then 7 else if name == "G#" then 8
    else if name == "A" then 9 else if name == "A#" then 10 else if name == "B" then 11
    else -1
  }

  /** Letters the case-insensitive root pattern `[CDEFGAB]` accepts. */
  predicate IsRootLetter(c: char)
  {
    c in "CDEFGABcdefgab"
  }

  /** Characters `.` does not match in a JavaScript regular expression. */
  predicate IsLineTerminator(c: char)
  {
    c == '\n' || c == '\r' || c == '\U{2028}' || c == '\U{2029}'
  }

  /** `/^([CDEFGAB][b#]?)(.*)$/i` matches the chord. */
  predicate RootMatches(chord: string)
  {
    |chord| >= 1 && IsRootLetter(chord[0])
    && forall i :: 1 <= i < |chord| ==> !IsLineTerminator(chord[i])
  }

  /** Length of the first group: the letter and an optional `b`, `B` or `#`. */
  function RootLen(chord: string): (n: nat)
    requires RootMatches(chord)
    ensures 1 <= n <= 2 && n <= |chord|
  {
    if |chord| >= 2 && chord[1] in "bB#" then 2 else 1
  }

  /** Pitch index of a matched chord's root, -1 when it is not in the table. */
  function RootIndex(chord: string): int
    requires RootMatches(chord)
  {
    NoteIndex(ToSharps(chord[..RootLen(chord)]))
  }

  /** `(a % n)` on JavaScript numbers: the remainder takes the sign of `a`. */
  function JsRem(a: int, n: int): (r: int)
    requires n > 0
    ensures a >= 0 ==> r == a % n
    ensures a < 0 ==> r <= 0 && a == n * -((-a) / n) + r
    ensures -n < r < n
  {
    if a >= 0 then a % n
    else
      assert -a == n * ((-a) / n) + (-a) % n;
      -((-a) % n)
  }

  /** Name of pitch `n`, spelled with flats for a flat root unless it is C or F. */
  function Spell(n: nat, flat: bool): (name: string)
    requires n < 12
    ensures name == Sharps[n] || name == Flats[n]
  {
    if flat && Sharps[n] != "C" && Sharps[n] != "F" then Flats[n] else Sharps[n]
  }

  /** The new root for root `base` at index `idx`, shifted by `semitones`. */
  function NewRoot(base: string, idx: nat, semitones: int, mode: Mode): string
    requires idx < 12
  {
    var nidx := if mode == AsWritten then JsRem(idx + semitones + 12, 12) else (idx + semitones) % 12;
    if 0 <= nidx < 12 then Spell(nidx, 'b' in base) else "undefined"
  }

  /** First position of `c` in `s`. */
  function IndexOfChar(s: string, c: char): (r: Option<nat>)
    ensures r.Some? ==> r.value < |s| && s[r.value] == c && c !in s[..r.value]
    ensures r.None? ==> c !in s
  {
    if s == [] then None
    else if s[0] == c then Some(0)
    else match IndexOfChar(s[1..], c)
      case None => None
      case Some(i) =>
        assert s[..i + 1] == [s[0]] + s[1..][..i];
        Some(i + 1)
  }

  /**
   * getTransposedChord. A chord whose root matches keeps its suffix
   * (including any "/bass") and gets a new root; a chord that does not match
   * is split at its first '/' and both halves are transposed.
   */
  function TransposeWith(chord: string, semitones: int, mode: Mode): string
    decreases |chord|
  {
    if !RootMatches(chord) then
      match IndexOfChar(chord, '/')
      case None => chord
      case Some(i) =>
        TransposeWith(chord[..i], semitones, mode) + "/" + TransposeWith(chord[i + 1..], semitones, mode)
    else
      var idx := RootIndex(chord);
      if idx == -1 then chord
      else NewRoot(chord[..RootLen(chord)], idx, semitones, mode) + chord[RootLen(chord)..]
  }

  /** The source's behaviour. */
  function TransposeChordAsWritten(chord: string, semitones: int): string
  {
    TransposeWith(chord, semitones, AsWritten)
  }

  /** The evidently intended behaviour: pitch arithmetic modulo 12. */
  function TransposeChord(chord: string, semitones: int): string
  {
    TransposeWith(chord, semitones, Corrected)
  }

  /**
   * A recognised root moves to pitch (idx + semitones) mod 12, spelled with
   * flats when the original root holds a 'b' and the target is not C or F;
   * the rest of the chord is copied unchanged.
   */
  lemma TransposeRecognised(chord: string, semitones: int)
    requires RootMatches(chord) && RootIndex(chord) >= 0
    ensures var n := (RootIndex(chord) + semitones) % 12;
            var flat := 'b' in chord[..RootLen(chord)];
            TransposeChord(chord, semitones)
              == (if flat && n != 0 && n != 5 then Flats[n] else Sharps[n]) + chord[RootLen(chord)..]
  {
    var len := RootLen(chord);
    var n := (RootIndex(chord) + semitones) % 12;
    assert TransposeChord(chord, semitones) == NewRoot(chord[..len], RootIndex(chord), semitones, Corrected) + chord[len..];
    assert NewRoot(chord[..len], RootIndex(chord), semitones, Corrected) == Spell(n, 'b' in chord[..len]);
    SharpsCF(n);
  }

  /** C and F are the table's entries 0 and 5. */
  lemma SharpsCF(n: nat)
    requires n < 12
    ensures Sharps[n] == "C" <==> n == 0
    ensures Sharps[n] == "F" <==> n == 5
  {
    assert Sharps[0] == "C" && Sharps[5] == "F";
  }

  /** A matched chord whose root is not in the table is returned unchanged. */
  lemma TransposeUnrecognised(chord: string, semitones: int, mode: Mode)
    requires RootMatches(chord) && RootIndex(chord) == -1
    ensures TransposeWith(chord, semitones, mode) == chord
  {
  }

  /** For a recognised root the result is always a note name from the table. */
  lemma TransposeYieldsNoteName(chord: string, semitones: int)
    requires RootMatches(chord) && RootIndex(chord) >= 0
    ensures exists n :: 0 <= n < 12 && TransposeChord(chord, semitones)
                                         in {Sharps[n] + chord[RootLen(chord)..], Flats[n] + chord[RootLen(chord)..]}
  {
    TransposeRecognised(chord, semitones);
    var n := (RootIndex(chord) + semitones) % 12;
    assert TransposeChord(chord, semitones) in {Sharps[n] + chord[RootLen(chord)..], Flats[n] + chord[RootLen(chord)..]};
  }

  /** Every table name spells its own pitch. */
  lemma SpellIsSelfIndexed(base: string, idx: nat)
    requires idx < 12 && NoteIndex(ToSharps(base)) == idx
    ensures Spell(idx, 'b' in base) == base
  {
  }

  lemma NewRootZero(base: string, idx: nat)
    requires idx < 12 && NoteIndex(ToSharps(base)) == idx
    ensures NewRoot(base, idx, 0, Corrected) == base
  {
    SpellIsSelfIndexed(base, idx);
  }

  /** Transposing by zero changes no chord at all. */
  lemma {:induction false} TransposeZero(chord: string)
    ensures TransposeChord(chord, 0) == chord
    decreases |chord|
  {
    if !RootMatches(chord) {
      match IndexOfChar(chord, '/')
      case None =>
      case Some(i) =>
        assert TransposeChord(chord[..i], 0) == chord[..i] by {
          TransposeZero(chord[..i]);
        }
        assert TransposeChord(chord[i + 1..], 0) == chord[i + 1..] by {
          TransposeZero(chord[i + 1..]);
        }
        assert TransposeChord(chord, 0) == TransposeChord(chord[..i], 0) + "/" + TransposeChord(chord[i + 1..], 0);
        assert chord == chord[..i] + "/" + chord[i + 1..] by {
          assert chord[i] == '/';
        }
    } else if RootIndex(chord) >= 0 {
      TransposeZeroRoot(chord);
    }
  }

  /** A recognised root shifted by zero is spelled as it was written. */
  lemma TransposeZeroRoot(chord: string)
    requires RootMatches(chord) && RootIndex(chord) >= 0
    ensures TransposeChord(chord, 0) == chord
  {
    var len := RootLen(chord);
    var base := chord[..len];
    NewRootZero(base, RootIndex(chord));
    calc {
      TransposeChord(chord, 0);
      NewRoot(base, RootIndex(chord), 0, Corrected) + chord[len..];
      base + chord[len..];
      chord;
    }
  }

  /** Shifting by a whole octave changes nothing. */
  lemma {:induction false} TransposeOctave(chord: string, semitones: int)
    ensures TransposeChord(chord, semitones + 12) == TransposeChord(chord, semitones)
    decreases |chord|
  {
    if !RootMatches(chord) {
      match IndexOfChar(chord, '/')
      case None =>
      case Some(i) =>
        assert TransposeChord(chord[..i], semitones + 12) == TransposeChord(chord[..i], semitones) by {
          TransposeOctave(chord[..i], semitones);
        }
        assert TransposeChord(chord[i + 1..], semitones + 12) == TransposeChord(chord[i + 1..], semitones) by {
          TransposeOctave(chord[i + 1..], semitones);
        }
    } else if RootIndex(chord) >= 0 {
      var idx := RootIndex(chord);
      assert (idx + semitones + 12) % 12 == (idx + semitones) % 12;
    }
  }

  /** For shifts of at least -12 the source's arithmetic is the intended one. */
  lemma {:induction false} AsWrittenAgrees(chord: string, semitones: int)
    requires semitones >= -12
    ensures TransposeChordAsWritten(chord, semitones) == TransposeChord(chord, semitones)
    decreases |chord|
  {
    if !RootMatches(chord) {
      match IndexOfChar(chord, '/')
      case None =>
      case Some(i) =>
        assert TransposeChordAsWritten(chord[..i], semitones) == TransposeChord(chord[..i], semitones) by {
          AsWrittenAgrees(chord[..i], semitones);
        }
        assert TransposeChordAsWritten(chord[i + 1..], semitones) == TransposeChord(chord[i + 1..], semitones) by {
          AsWrittenAgrees(chord[i + 1..], semitones);
        }
    } else if RootIndex(chord) >= 0 {
      var idx := RootIndex(chord);
      assert JsRem(idx + semitones + 12, 12) == (idx + semitones) % 12;
    }
  }

  /**
   * The source's arithmetic on a recognised root: the chord becomes
   * "undefined" followed by its suffix exactly when idx + semitones + 12 is
   * negative and not a multiple of 12; otherwise it is the intended chord.
   */
  lemma AsWrittenRecognised(chord: string, semitones: int)
    requires RootMatches(chord) && RootIndex(chord) >= 0
    ensures var a := RootIndex(chord) + semitones + 12;
            a < 0 && a % 12 != 0 ==> TransposeChordAsWritten(chord, semitones) == "undefined" + chord[RootLen(chord)..]
    ensures var a := RootIndex(chord) + semitones + 12;
            !(a < 0 && a % 12 != 0) ==> TransposeChordAsWritten(chord, semitones) == TransposeChord(chord, semitones)
  {
    var idx := RootIndex(chord);
    var base := chord[..RootLen(chord)];
    assert TransposeChordAsWritten(chord, semitones) == NewRoot(base, idx, semitones, AsWritten) + chord[RootLen(chord)..];
    assert TransposeChord(chord, semitones) == NewRoot(base, idx, semitones, Corrected) + chord[RootLen(chord)..];
    NewRootAsWritten(base, idx, semitones);
  }

  /** The two root arithmetics agree unless the dividend is negative and not a multiple of twelve. */
  lemma NewRootAsWritten(base: string, idx: nat, semitones: int)
    requires idx < 12
    ensures var a := idx + semitones + 12;
            a < 0 && a % 12 != 0 ==> NewRoot(base, idx, semitones, AsWritten) == "undefined"
    ensures var a := idx + semitones + 12;
            !(a < 0 && a % 12 != 0) ==> NewRoot(base, idx, semitones, AsWritten) == NewRoot(base, idx, semitones, Corrected)
  {
    var a := idx + semitones + 12;
    if a < 0 {
      JsRemNegative(a);
      if a % 12 == 0 {
        assert (idx + semitones) % 12 == 0;
      }
    }
  }

  /** On a negative dividend the truncating remainder by 12 is 0 exactly on multiples of 12, else negative. */
  lemma JsRemNegative(a: int)
    requires a < 0
    ensures a % 12 == 0 ==> JsRem(a, 12) == 0
    ensures a % 12 != 0 ==> JsRem(a, 12) < 0
  {
    var r := JsRem(a, 12);
    assert a == 12 * -((-a) / 12) + r;
  }

  /**
   * The defect: one press of "transpose down" past -12 turns a C chord into
   * the text "undefined"; the intended result is B.
   */
  lemma AsWrittenUndefinedBelowOctave()
    ensures TransposeChordAsWritten("C", -13) == "undefined"
    ensures TransposeChord("C", -13) == "B"
  {
    assert RootMatches("C") && RootLen("C") == 1 && "C"[..1] == "C";
    assert JsRem(-1, 12) == -1;
  }
}
