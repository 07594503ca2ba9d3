/** The production transposer, assets/js/modules/transpose.js. */
module Transpose {
  import opened Wrappers
  import opened Js
  import opened PitchTable
  import opened ChordRegex

  /** `chord.match(/^([A-G][b#]?)(.*)$/)`: the root (its accidental taken when
      present) and the rest. The `.` refuses line terminators, so the match
      fails when one follows the note letter. */
  function ParseChord(chord: string): (r: Option<(string, string)>)
    ensures r.Some? ==> r.value.0 + r.value.1 == chord && IsNoteShape(r.value.0)
    ensures r.Some? ==> (|r.value.0| == 2 <==> |chord| >= 2 && IsAccidental(chord[1]))
    ensures r.None? <==> chord == [] || !IsNoteLetter(chord[0])
                         || exists k :: 1 <= k < |chord| && IsLineTerminator(chord[k])
  {
    if chord == [] || !IsNoteLetter(chord[0]) then None
    else
      var n := if |chord| >= 2 && IsAccidental(chord[1]) then 2 else 1;
      if forall k :: n <= k < |chord| ==> !IsLineTerminator(chord[k])
      then Some((chord[..n], chord[n..]))
      else None
  }

  /** `isValidChord`: the text parses and its root is a CHORD_MAP key. */
  predicate IsValidChord(chord: string) {
    chord != "" && ParseChord(chord).Some? && ParseChord(chord).value.0 in ChordMap
  }

  /** `isValidKey`: the key is a CHORD_MAP key. */
  predicate IsValidKey(key: string) {
    key != "" && key in ChordMap
  }

  /** `getKeyPosition`: `CHORD_MAP[key] || -1`, so "C" (pitch class 0, falsy)
      reads -1 like an unknown key. */
  function GetKeyPosition(key: string): (r: int)
    ensures r == -1 <==> key !in ChordMap || key == "C"
    ensures r != -1 ==> 1 <= r < 12 && r == ChordMap[key]
  {
    if key in ChordMap && ChordMap[key] != 0 then ChordMap[key] else -1
  }

  /** `calculateSemitonesDiff`: throws on an invalid key; otherwise the key
      distance minus the capo, plus 12, under JavaScript's truncating `% 12`. */
  function CalculateSemitonesDiff(fromKey: string, toKey: string, capoShift: int): (r: Result<int>)
    ensures r.Err? <==> !IsValidKey(fromKey) || !IsValidKey(toKey)
    ensures r.Ok? ==> -12 < r.value < 12
    ensures r.Ok? ==> (r.value - (ChordMap[toKey] - ChordMap[fromKey] - capoShift)) % 12 == 0
    ensures r.Ok? ==> var a := ChordMap[toKey] - ChordMap[fromKey] - capoShift + 12;
      (r.value < 0 <==> a < 0 && a % 12 != 0)
  {
    if !IsValidKey(fromKey) || !IsValidKey(toKey) then Err
    else Ok(Rem12(ChordMap[toKey] - ChordMap[fromKey] - capoShift + 12))
  }

  /** What `transposeChord(chord, diff)` returns or throws, for an integer diff. */
  function TransposedChord(chord: string, diff: int): Result<string> {
    if chord == "" then Err
    else match ParseChord(chord)
      case None => Err
      case Some((root, suffix)) =>
        if !IsValidChord(root) then Err
        else
          ValidNote(root);
          Ok(NewRoot(root, diff) + suffix)
  }

  /** The new root of `transposeChord`: `KEYS[idx]` (possibly `undefined`)
      after the ENHARMONIC_MAP loop. */
  function NewRoot(root: string, diff: int): string
    requires root in ChordMap
  {
    Simplify(KeyAt(RootIndex(root, diff)))
  }

  /** `idx`: `(CHORD_MAP[root] + diff + 12) % 12` under JavaScript's `%`. */
  function RootIndex(root: string, diff: int): int
    requires root in ChordMap
  {
    Rem12(ChordMap[root] + diff + 12)
  }

  /** `transposeChord`: the new root is `KEYS[idx]`, then the ENHARMONIC_MAP
      loop may replace it by the simple form of the first matching entry. */
  method TransposeChord(chord: string, diff: int) returns (r: Result<string>)
    ensures r == TransposedChord(chord, diff)
  {
    if chord == "" {
      return Err;
    }
    var m := ParseChord(chord);
    if m.None? {
      return Err;
    }
    var root, suffix := m.value.0, m.value.1;
    if !IsValidChord(root) {
      return Err;
    }
    ValidNote(root);
    var idx := RootIndex(root, diff);
    var newRoot := KeyAt(idx);
    ghost var before := newRoot;
    var i := 0;
    while i < |EnharmonicMap|
      invariant 0 <= i <= |EnharmonicMap|
      invariant newRoot == before
      invariant SimplifyFrom(before, i) == Simplify(before)
    {
      if newRoot == EnharmonicMap[i].0 {
        newRoot := EnharmonicMap[i].1;
        break;
      }
      i := i + 1;
    }
    r := Ok(newRoot + suffix);
  }

  /** `transposeChordSheet`: the callback given to `replace` for one match. A
      thrown error inside it is caught and leaves the match as it was. */
  function ReplaceChord(p: Piece, diff: int): string {
    match p
    case Plain(c) => [c]
    case Chord(root, suffix, bass) =>
      if !IsValidChord(root) then root + suffix
      else match TransposedChord(root, diff)
        case Err => root + suffix
        case Ok(transposedRoot) =>
          if bass.Some? && IsValidChord(bass.value) then
            match TransposedChord(bass.value, diff)
            case Err => root + suffix
            case Ok(transposedBass) =>
              transposedRoot + ReplaceFirst(suffix, "/" + bass.value, "/" + transposedBass)
          else transposedRoot + suffix
  }

  /** `transposeChordSheet(sheet, fromKey, toKey, capoShift)`. */
  function TransposeChordSheet(sheet: string, fromKey: string, toKey: string, capoShift: int): (r: string)
    ensures sheet == "" ==> r == ""
    ensures !IsValidKey(fromKey) || !IsValidKey(toKey) ==> r == sheet
    ensures fromKey == toKey && capoShift == 0 ==> r == sheet
  {
    if sheet == "" then ""
    else if !IsValidKey(fromKey) || !IsValidKey(toKey) then sheet
    else if fromKey == toKey && capoShift == 0 then sheet
    else match CalculateSemitonesDiff(fromKey, toKey, capoShift)
      case Err => sheet
      case Ok(diff) => Rewrite(Tokenize(sheet, 0, true), (p: Piece) => ReplaceChord(p, diff))
  }

  // ----- a reference reading of transposition -----

  /** The note `d` semitones above `note`, in KEYS spelling (Euclidean `%`). */
  function Shift(note: string, d: int): (r: string)
    requires note in ChordMap
    ensures r in ChordMap && ChordMap[r] == (ChordMap[note] + d) % 12
  {
    KeysRoundTrip((ChordMap[note] + d) % 12);
    Keys[(ChordMap[note] + d) % 12]
  }

  /** What a chord piece should become: an unknown root leaves it as it is;
      otherwise the root moves by `d`, and so does a known bass, with the text
      between the root and the `/` kept. */
  function ShiftedChord(p: Piece, d: int): string {
    if !ChordShaped(p, true) || p.root !in ChordMap then PieceText(p)
    else if p.bass.Some? && p.bass.value in ChordMap then
      var quality := p.suffix[..|p.suffix| - |p.bass.value| - 1];
      Shift(p.root, d) + quality + "/" + Shift(p.bass.value, d)
    else Shift(p.root, d) + p.suffix
  }

  /** The text a scan stands for once every chord in it is moved by `d`:
      plain characters are copied and each chord becomes its shifted text. */
  function ShiftPieces(ps: seq<Piece>, d: int): string {
    if ps == [] then [] else ShiftedChord(ps[0], d) + ShiftPieces(ps[1..], d)
  }

  // ----- lemmas -----

  /** On a note spelling, `isValidChord` is CHORD_MAP membership. */
  lemma ValidNote(note: string)
    requires IsNoteShape(note)
    ensures ParseChord(note) == Some((note, ""))
    ensures IsValidChord(note) <==> note in ChordMap
  {
    var n := if |note| >= 2 && IsAccidental(note[1]) then 2 else 1;
    assert note[..n] == note;
  }

  /** The valid keys are exactly the spellings `[A-G][b#]?` other than Cb, Fb,
      E# and B#. */
  lemma ValidKeys(key: string)
    ensures IsValidKey(key) <==> IsNoteShape(key) && key !in {"Cb", "Fb", "E#", "B#"}
  {
    if IsValidKey(key) {
      ChordMapIsPitchClass(key);
    }
    if IsNoteShape(key) && key !in {"Cb", "Fb", "E#", "B#"} {
      if |key| == 1 {
        assert key == [key[0]];
      } else {
        assert key == [key[0], key[1]];
      }
    }
  }

  /** `transposeChord` throws exactly for an empty chord, a chord the root pattern
      rejects, and a root outside CHORD_MAP (such as Cb, Fb, E# or B#, which the
      greedy `[b#]?` reads whole). */
  lemma TransposedChordErr(chord: string, diff: int)
    ensures TransposedChord(chord, diff).Err? <==>
      chord == "" || ParseChord(chord).None? || ParseChord(chord).value.0 !in ChordMap
  {
    if chord != "" && ParseChord(chord).Some? {
      ValidNote(ParseChord(chord).value.0);
    }
  }

  /** For a valid root and a diff of at least -12 the result is
      `KEYS[(CHORD_MAP[root] + diff + 12) % 12]` with the suffix unchanged: the
      ENHARMONIC_MAP loop never fires, and the new root is `diff` semitones
      above the old one. */
  lemma TransposedChordOk(chord: string, diff: int)
    requires ParseChord(chord).Some? && ParseChord(chord).value.0 in ChordMap
    requires diff >= -12
    ensures var (root, suffix) := ParseChord(chord).value;
      var newRoot := Keys[(ChordMap[root] + diff + 12) % 12];
      TransposedChord(chord, diff) == Ok(newRoot + suffix)
      && newRoot == Shift(root, diff)
      && ChordMap[newRoot] == (ChordMap[root] + diff) % 12
  {
    var (root, suffix) := ParseChord(chord).value;
    ChordMapIsPitchClass(root);
    var a := ChordMap[root] + diff;
    var idx := (a + 12) % 12;
    Rem12OfNonNegative(a + 12);
    TransposedChordAt(chord, diff, root, suffix, idx);
    KeysRoundTrip(idx);
    PlusTwelve(a);
  }

  /** `transposeChord` with the new root at a known index `idx` of KEYS. */
  lemma TransposedChordAt(chord: string, diff: int, root: string, suffix: string, idx: int)
    requires ParseChord(chord) == Some((root, suffix)) && root in ChordMap
    requires 0 <= idx < 12 && idx == RootIndex(root, diff)
    ensures TransposedChord(chord, diff) == Ok(Keys[idx] + suffix)
  {
    ValidNote(root);
    SimplifyKeyAt(idx);
  }

  lemma PlusTwelve(a: int)
    ensures (a + 12) % 12 == a % 12
  {
    var q := a / 12;
    assert a + 12 == 12 * (q + 1) + a % 12;
  }

  /** Further below, the index can go negative: `KEYS[idx]` is `undefined` and
      the result starts with the text "undefined" (a multiple of 12 gives -0,
      which still reads `KEYS[0]`). */
  lemma TransposedChordUndefined(chord: string, diff: int)
    requires ParseChord(chord).Some? && ParseChord(chord).value.0 in ChordMap
    requires var a := ChordMap[ParseChord(chord).value.0] + diff + 12; a < 0 && a % 12 != 0
    ensures TransposedChord(chord, diff) == Ok("undefined" + ParseChord(chord).value.1)
  {
    var (root, suffix) := ParseChord(chord).value;
    ValidNote(root);
    var idx := RootIndex(root, diff);
    assert idx < 0;
    SimplifyKeyAt(idx);
  }

  /** Transposing a bare note never produces two accidentals: the result is one
      of the KEYS spellings. */
  lemma TransposedNoteIsKey(note: string, diff: int)
    requires note in ChordMap && diff >= -12
    ensures TransposedChord(note, diff).Ok?
    ensures TransposedChord(note, diff).value in Keys
  {
    ChordMapIsPitchClass(note);
    ValidNote(note);
    TransposedChordOk(note, diff);
    var idx := (ChordMap[note] + diff + 12) % 12;
    assert TransposedChord(note, diff).value == Keys[idx] + "";
    assert Keys[idx] + "" == Keys[idx];
  }

  /** `suffix.replace('/' + bass, '/' + newBass)` hits the slash of the match:
      the quality text before it has no `/`. */
  lemma ReplaceBass(p: Piece, tb: string)
    requires ChordShaped(p, true) && p.bass.Some?
    ensures ReplaceFirst(p.suffix, "/" + p.bass.value, "/" + tb)
            == p.suffix[..|p.suffix| - |p.bass.value| - 1] + "/" + tb
  {
    var suffix, b := p.suffix, p.bass.value;
    var k := |suffix| - |b| - 1;
    var pat := "/" + b;
    var quality := suffix[..k];
    assert suffix == quality + pat by {
      assert suffix == suffix[..k + 1] + suffix[k + 1..];
    }
    assert OccursAt(suffix, pat, k) by {
      assert suffix[k..k + |pat|] == suffix[k..];
    }
    forall j | 0 <= j < k ensures !OccursAt(suffix, pat, j) {
      assert suffix[j] == quality[j];
    }
    IndexOfFirst(suffix, pat, 0, k);
    assert suffix[k + |pat|..] == [];
  }

  lemma {:induction false} IndexOfFirst(s: string, w: string, i: nat, k: nat)
    requires i <= k && OccursAt(s, w, k)
    requires forall j :: i <= j < k ==> !OccursAt(s, w, j)
    ensures IndexOf(s, w, i) == Some(k)
    decreases k - i
  {
    if i < k {
      IndexOfFirst(s, w, i + 1, k);
    }
  }

  lemma RootShift(root: string, diff: int)
    requires root in ChordMap && -12 < diff < 12
    ensures IsValidChord(root) && TransposedChord(root, diff) == Ok(Shift(root, diff))
  {
    ChordMapIsPitchClass(root);
    ValidNote(root);
    TransposedChordOk(root, diff);
    assert Shift(root, diff) + "" == Shift(root, diff);
  }

  /** The callback agrees with the reference reading for every diff the sheet
      rewriter can compute, so its catch clause is never reached. */
  lemma ReplaceChordIsShift(p: Piece, diff: int)
    requires ChordShaped(p, true) && -12 < diff < 12
    ensures ReplaceChord(p, diff) == ShiftedChord(p, diff)
  {
    ValidNote(p.root);
    if p.root in ChordMap {
      RootShift(p.root, diff);
      if p.bass.Some? {
        ValidNote(p.bass.value);
        if p.bass.value in ChordMap {
          RootShift(p.bass.value, diff);
          ReplaceBass(p, Shift(p.bass.value, diff));
        }
      }
    }
  }

  /** Rewriting with two callbacks that agree on every chord gives the same text. */
  lemma {:induction false} RewriteAgree(ps: seq<Piece>, f: Piece -> string, g: Piece -> string)
    requires forall k :: 0 <= k < |ps| && ps[k].Chord? ==> f(ps[k]) == g(ps[k])
    ensures Rewrite(ps, f) == Rewrite(ps, g)
  {
    if ps != [] {
      RewriteAgree(ps[1..], f, g);
    }
  }

  /** The offset the sheet rewriter applies, as a pitch-class distance in 0..11. */
  function Offset(fromKey: string, toKey: string, capoShift: int): (d: int)
    requires IsValidKey(fromKey) && IsValidKey(toKey)
    ensures 0 <= d < 12
  {
    (ChordMap[toKey] - ChordMap[fromKey] - capoShift) % 12
  }

  /** Moving by the truncated diff and by the Euclidean offset is the same move. */
  lemma ShiftByDiff(note: string, fromKey: string, toKey: string, capoShift: int)
    requires note in ChordMap && IsValidKey(fromKey) && IsValidKey(toKey)
    ensures CalculateSemitonesDiff(fromKey, toKey, capoShift).Ok?
    ensures Shift(note, CalculateSemitonesDiff(fromKey, toKey, capoShift).value)
            == Shift(note, Offset(fromKey, toKey, capoShift))
  {
    var diff := CalculateSemitonesDiff(fromKey, toKey, capoShift).value;
    var a := ChordMap[toKey] - ChordMap[fromKey] - capoShift;
    var d := Offset(fromKey, toKey, capoShift);
    CongruentToRemainder(diff, a);
    ShiftCongruent(note, diff, d);
  }

  lemma ShiftCongruent(note: string, x: int, y: int)
    requires note in ChordMap && (x - y) % 12 == 0
    ensures Shift(note, x) == Shift(note, y)
  {
    SameClass(ChordMap[note], x, y);
  }

  lemma CongruentToRemainder(x: int, a: int)
    requires (x - a) % 12 == 0
    ensures (x - a % 12) % 12 == 0
  {
    var q, p := (x - a) / 12, a / 12;
    assert x - a == 12 * q;
    assert a == 12 * p + a % 12;
    assert x - a % 12 == 12 * (q + p);
  }

  lemma SameClass(x: int, a: int, b: int)
    requires (a - b) % 12 == 0
    ensures (x + a) % 12 == (x + b) % 12
  {
    var q := (a - b) / 12;
    assert a == b + 12 * q;
    assert x + a == (x + b) + 12 * q;
  }

  lemma ShiftedChordByDiff(p: Piece, fromKey: string, toKey: string, capoShift: int)
    requires IsValidKey(fromKey) && IsValidKey(toKey)
    ensures CalculateSemitonesDiff(fromKey, toKey, capoShift).Ok?
    ensures ShiftedChord(p, CalculateSemitonesDiff(fromKey, toKey, capoShift).value)
            == ShiftedChord(p, Offset(fromKey, toKey, capoShift))
  {
    if ChordShaped(p, true) && p.root in ChordMap {
      ShiftByDiff(p.root, fromKey, toKey, capoShift);
      if p.bass.Some? && p.bass.value in ChordMap {
        ShiftByDiff(p.bass.value, fromKey, toKey, capoShift);
      }
    }
  }

  /** Unless a shortcut applies, the rewritten sheet is the sheet's pieces with
      every valid chord moved by the key distance minus the capo: roots and
      known basses by the same amount, suffixes and all other text unchanged. */
  lemma TransposeChordSheetShifts(sheet: string, fromKey: string, toKey: string, capoShift: int)
    requires sheet != "" && IsValidKey(fromKey) && IsValidKey(toKey)
    requires !(fromKey == toKey && capoShift == 0)
    ensures var ps := Tokenize(sheet, 0, true);
      Text(ps) == sheet
      && (forall k :: 0 <= k < |ps| && ps[k].Chord? ==> ChordShaped(ps[k], true))
      && TransposeChordSheet(sheet, fromKey, toKey, capoShift) == ShiftPieces(ps, Offset(fromKey, toKey, capoShift))
  {
    var ps := Tokenize(sheet, 0, true);
    TokenizeCovers(sheet, 0, true);
    var diff := CalculateSemitonesDiff(fromKey, toKey, capoShift).value;
    var d := Offset(fromKey, toKey, capoShift);
    var f := (p: Piece) => ReplaceChord(p, diff);
    var g := (p: Piece) => ShiftedChord(p, d);
    forall k | 0 <= k < |ps| && ps[k].Chord? ensures ChordShaped(ps[k], true) && f(ps[k]) == g(ps[k]) {
      TokenizeShaped(sheet, 0, true, k);
      ReplaceChordIsShift(ps[k], diff);
      ShiftedChordByDiff(ps[k], fromKey, toKey, capoShift);
    }
    RewriteAgree(ps, f, g);
    RewriteShift(ps, d);
  }

  /** Rewriting with the reference callback is the reference text. */
  lemma {:induction false} RewriteShift(ps: seq<Piece>, d: int)
    ensures Rewrite(ps, (p: Piece) => ShiftedChord(p, d)) == ShiftPieces(ps, d)
  {
    if ps != [] {
      RewriteShift(ps[1..], d);
    }
  }

  // ----- reading the reference text off a scan, one step at a time -----

  /** Where a match `c` starts, its shifted chord `p` comes first, then the
      shifted rest of the scan. */
  lemma ShiftScanChord(s: string, i: nat, slash: bool, c: Candidate, p: Piece, d: int, rest: string)
    requires i < c.rootEnd <= c.end <= |s| && MatchAt(s, i, slash) == Some(c)
    requires p == Chord(s[i..c.rootEnd], s[c.rootEnd..c.end],
                        if c.bassStart.Some? && c.bassStart.value <= c.end
                        then Some(s[c.bassStart.value..c.end]) else None)
    requires ShiftPieces(Tokenize(s, c.end, slash), d) == rest
    ensures ShiftPieces(Tokenize(s, i, slash), d) == ShiftedChord(p, d) + rest
  {
    TokenizeMatch(s, i, slash);
    ShiftPiecesCons(p, Tokenize(s, c.end, slash), d);
  }

  lemma ShiftPiecesCons(p: Piece, ps: seq<Piece>, d: int)
    ensures ShiftPieces([p] + ps, d) == ShiftedChord(p, d) + ShiftPieces(ps, d)
  {
    assert ([p] + ps)[1..] == ps;
  }

  /** A run of characters where no match starts is copied as it stands. */
  lemma ShiftScanPlain(s: string, i: nat, j: nat, slash: bool, d: int, rest: string)
    requires i <= j <= |s| && NoMatchFrom(s, i, j, slash)
    requires ShiftPieces(Tokenize(s, j, slash), d) == rest
    ensures ShiftPieces(Tokenize(s, i, slash), d) == s[i..j] + rest
  {
    var text := seq(|s| + 1, k requires 0 <= k <= |s| => ShiftPieces(Tokenize(s, k, slash), d));
    PlainSteps(s, i, j, slash, d);
    CopiedText(s, i, j, text);
  }

  lemma PlainSteps(s: string, i: nat, j: nat, slash: bool, d: int)
    requires i <= j <= |s| && NoMatchFrom(s, i, j, slash)
    ensures forall k :: i <= k < j ==>
      ShiftPieces(Tokenize(s, k, slash), d) == [s[k]] + ShiftPieces(Tokenize(s, k + 1, slash), d)
  {
    forall k | i <= k < j
      ensures ShiftPieces(Tokenize(s, k, slash), d) == [s[k]] + ShiftPieces(Tokenize(s, k + 1, slash), d)
    {
      NoMatchFromAt(s, i, j, k, slash);
      ShiftScanStep(s, k, slash, d);
    }
  }

  /** Texts that each add one character of `s` to the next run through
      `s[i..j]`. */
  lemma {:induction false} CopiedText(s: string, i: nat, j: nat, text: seq<string>)
    requires i <= j <= |s| && |text| == |s| + 1
    requires forall k :: i <= k < j ==> text[k] == [s[k]] + text[k + 1]
    ensures text[i] == s[i..j] + text[j]
    decreases j - i
  {
    if i < j {
      CopiedText(s, i + 1, j, text);
      assert s[i..j] == [s[i]] + s[i + 1..j];
    }
  }

  /** A position where no match starts contributes its own character. */
  lemma ShiftScanStep(s: string, i: nat, slash: bool, d: int)
    requires i < |s| && MatchAt(s, i, slash).None?
    ensures ShiftPieces(Tokenize(s, i, slash), d) == [s[i]] + ShiftPieces(Tokenize(s, i + 1, slash), d)
  {
    TokenizeNoMatch(s, i, slash);
    ShiftPiecesCons(Plain(s[i]), Tokenize(s, i + 1, slash), d);
  }
}
