/** The pitch-class tables of assets/js/modules/transpose.js (also copied, with
    the same contents, into test/capo_test.js and test/validate_fix.mjs). */
module PitchTable {
  import opened Wrappers

  /** `KEYS`: the output spelling of each pitch class 0..11. */
  const Keys: seq<string> := ["C", "C#", "D", "Eb", "E", "F", "F#", "G", "G#", "A", "Bb", "B"]

  /** `CHORD_MAP`: the 17 accepted spellings and their pitch classes. */
  const ChordMap: map<string, int> := map[
    "C" := 0, "C#" := 1, "Db" := 1, "D" := 2, "D#" := 3, "Eb" := 3, "E" := 4, "F" := 5,
    "F#" := 6, "Gb" := 6, "G" := 7, "G#" := 8, "Ab" := 8, "A" := 9, "A#" := 10,
    "Bb" := 10, "B" := 11]

  /** `ENHARMONIC_MAP`, as the sequence `Object.entries` walks (insertion order). */
  const EnharmonicMap: seq<(string, string)> := [
    ("C#b", "C"), ("C##", "D"), ("Cbb", "Bb"),
    ("D#b", "D"), ("D##", "E"), ("Dbb", "C"),
    ("E#b", "E"), ("E##", "F#"), ("Ebb", "D"),
    ("F#b", "F"), ("F##", "G"), ("Fbb", "Eb"),
    ("G#b", "G"), ("G##", "A"), ("Gbb", "F"),
    ("A#b", "A"), ("A##", "B"), ("Abb", "G"),
    ("B#b", "B"), ("B##", "C#"), ("Bbb", "A")]

  predicate IsNoteLetter(c: char) {
    'A' <= c <= 'G'
  }

  predicate IsAccidental(c: char) {
    c == 'b' || c == '#'
  }

  /** A spelling of the shape `[A-G][b#]?`. */
  predicate IsNoteShape(s: string) {
    (|s| == 1 || |s| == 2) && IsNoteLetter(s[0]) && (|s| == 2 ==> IsAccidental(s[1]))
  }

  /** `KEYS[idx]` in JavaScript; an index outside 0..11 reads `undefined`,
      which string concatenation turns into the text "undefined". */
  function KeyAt(idx: int): (r: string)
    ensures 0 <= idx < 12 ==> r == Keys[idx] && IsNoteShape(r)
    ensures !(0 <= idx < 12) ==> r == "undefined"
  {
    if 0 <= idx < 12 then Keys[idx] else "undefined"
  }

  /** The ENHARMONIC_MAP loop: the simple form of the first entry whose complex
      form equals `root`, or `root` itself when there is none. */
  function Simplify(root: string): string {
    SimplifyFrom(root, 0)
  }

  function SimplifyFrom(root: string, i: nat): (r: string)
    requires i <= |EnharmonicMap|
    decreases |EnharmonicMap| - i
  {
    if i == |EnharmonicMap| then root
    else if EnharmonicMap[i].0 == root then EnharmonicMap[i].1
    else SimplifyFrom(root, i + 1)
  }

  // ----- an independent reading of note names -----

  /** Semitone value of a natural note letter. */
  function LetterValue(c: char): int
    requires IsNoteLetter(c)
  {
    match c
    case 'C' => 0 case 'D' => 2 case 'E' => 4 case 'F' => 5
    case 'G' => 7 case 'A' => 9 case 'B' => 11
  }

  /** Net accidental of a string of `#` and `b` signs: +1 per sharp, -1 per flat. */
  function AccidentalSum(s: string): int {
    if s == [] then 0
    else (if s[0] == '#' then 1 else if s[0] == 'b' then -1 else 0) + AccidentalSum(s[1..])
  }

  /** The pitch class a spelling names in music theory: letter value plus one
      per sharp minus one per flat, modulo 12. */
  function SpellingValue(s: string): int
    requires |s| >= 1 && IsNoteLetter(s[0])
  {
    (LetterValue(s[0]) + AccidentalSum(s[1..])) % 12
  }

  // ----- properties of the tables -----

  /** CHORD_MAP gives every accepted spelling its music-theory pitch class,
      in 0..11, and every accepted spelling has the shape `[A-G][b#]?`. */
  lemma ChordMapIsPitchClass(s: string)
    requires s in ChordMap
    ensures 0 <= ChordMap[s] < 12
    ensures IsNoteShape(s)
    ensures ChordMap[s] == SpellingValue(s)
  {
  }

  /** CHORD_MAP inverts KEYS: `CHORD_MAP[KEYS[i]] == i`. */
  lemma KeysRoundTrip(i: int)
    requires 0 <= i < 12
    ensures Keys[i] in ChordMap && ChordMap[Keys[i]] == i
    ensures SpellingValue(Keys[i]) == i
  {
  }

  /** Every pitch class of CHORD_MAP has its KEYS spelling as a CHORD_MAP key
      with the same value; "C" is the only spelling of pitch class 0. */
  lemma ChordMapZero(s: string)
    requires s in ChordMap
    ensures ChordMap[s] == 0 <==> s == "C"
    ensures Keys[ChordMap[s]] in ChordMap && ChordMap[Keys[ChordMap[s]]] == ChordMap[s]
  {
  }

  /** Every ENHARMONIC_MAP entry preserves the pitch class, maps a two-accidental
      spelling to one of at most one accidental, and has a complex form that is
      no KEYS entry. */
  lemma EnharmonicEntrySound(i: nat)
    requires i < |EnharmonicMap|
    ensures |EnharmonicMap[i].0| == 3 && IsNoteLetter(EnharmonicMap[i].0[0])
    ensures IsAccidental(EnharmonicMap[i].0[1]) && IsAccidental(EnharmonicMap[i].0[2])
    ensures IsNoteShape(EnharmonicMap[i].1)
    ensures SpellingValue(EnharmonicMap[i].0) == SpellingValue(EnharmonicMap[i].1)
    ensures EnharmonicMap[i].0 !in Keys
  {
    var e := EnharmonicMap[i];
    assert e == EnharmonicMap[i];
    if i < 7 {
      EnharmonicLow(i);
    } else if i < 14 {
      EnharmonicMid(i);
    } else {
      EnharmonicHigh(i);
    }
    forall k | 0 <= k < |Keys| ensures |Keys[k]| <= 2 { }
  }

  lemma EnharmonicLow(i: nat)
    requires i < 7
    ensures |EnharmonicMap[i].0| == 3 && IsNoteLetter(EnharmonicMap[i].0[0])
    ensures IsAccidental(EnharmonicMap[i].0[1]) && IsAccidental(EnharmonicMap[i].0[2])
    ensures IsNoteShape(EnharmonicMap[i].1)
    ensures SpellingValue(EnharmonicMap[i].0) == SpellingValue(EnharmonicMap[i].1)
  {
  }

  lemma EnharmonicMid(i: nat)
    requires 7 <= i < 14
    ensures |EnharmonicMap[i].0| == 3 && IsNoteLetter(EnharmonicMap[i].0[0])
    ensures IsAccidental(EnharmonicMap[i].0[1]) && IsAccidental(EnharmonicMap[i].0[2])
    ensures IsNoteShape(EnharmonicMap[i].1)
    ensures SpellingValue(EnharmonicMap[i].0) == SpellingValue(EnharmonicMap[i].1)
  {
  }

  lemma EnharmonicHigh(i: nat)
    requires 14 <= i < 21
    ensures |EnharmonicMap[i].0| == 3 && IsNoteLetter(EnharmonicMap[i].0[0])
    ensures IsAccidental(EnharmonicMap[i].0[1]) && IsAccidental(EnharmonicMap[i].0[2])
    ensures IsNoteShape(EnharmonicMap[i].1)
    ensures SpellingValue(EnharmonicMap[i].0) == SpellingValue(EnharmonicMap[i].1)
  {
  }

  /** The loop leaves every spelling alone that is no complex form. */
  lemma {:induction false} SimplifyFromAbsent(root: string, i: nat)
    requires i <= |EnharmonicMap|
    requires forall j :: i <= j < |EnharmonicMap| ==> EnharmonicMap[j].0 != root
    ensures SimplifyFrom(root, i) == root
    decreases |EnharmonicMap| - i
  {
    if i < |EnharmonicMap| {
      SimplifyFromAbsent(root, i + 1);
    }
  }

  /** The ENHARMONIC_MAP loop never changes a spelling that is not three characters
      long; in particular it never changes a KEYS entry or "undefined". */
  lemma SimplifyKeepsShortSpellings(root: string)
    requires |root| != 3
    ensures Simplify(root) == root
  {
    forall j | 0 <= j < |EnharmonicMap| ensures EnharmonicMap[j].0 != root {
      EnharmonicEntrySound(j);
    }
    SimplifyFromAbsent(root, 0);
  }

  lemma SimplifyKeyAt(idx: int)
    ensures Simplify(KeyAt(idx)) == KeyAt(idx)
  {
    SimplifyKeepsShortSpellings(KeyAt(idx));
  }

  /** What the loop does to a spelling it does change: the replacement names
      the same pitch class. */
  lemma {:induction false} SimplifyFromSound(root: string, i: nat)
    requires i <= |EnharmonicMap|
    requires SimplifyFrom(root, i) != root
    ensures |root| == 3 && IsNoteLetter(root[0])
    ensures IsNoteShape(SimplifyFrom(root, i))
    ensures SpellingValue(SimplifyFrom(root, i)) == SpellingValue(root)
    decreases |EnharmonicMap| - i
  {
    if EnharmonicMap[i].0 == root {
      EnharmonicEntrySound(i);
    } else {
      SimplifyFromSound(root, i + 1);
    }
  }
}
