/** The standalone transposer of test/validate_fix.mjs: the same tables and
    chord pattern as the production module, but `transposeChord` hands back
    its input instead of throwing, and `transposeChordSheet` has neither the
    empty-sheet nor the same-key shortcut. */
module ValidateFix {
  import opened Wrappers
  import opened Js
  import opened PitchTable
  import opened ChordRegex
  import Transpose

  /** What `transposeChord(chord, diff)` returns: the chord itself when the
      root pattern fails or the root is not a CHORD_MAP key, otherwise the new
      root (after the ENHARMONIC_MAP loop) and the suffix. */
  function TransposedChord(chord: string, diff: int): string {
    match Transpose.ParseChord(chord)
    case None => chord
    case Some((root, suffix)) =>
      if root !in ChordMap then chord else Transpose.NewRoot(root, diff) + suffix
  }

  /** `transposeChord`, with its loop over ENHARMONIC_MAP. */
  method TransposeChord(chord: string, diff: int) returns (r: string)
    ensures r == TransposedChord(chord, diff)
  {
    var m := Transpose.ParseChord(chord);
    if m.None? {
      return chord;
    }
    var root, suffix := m.value.0, m.value.1;
    if root !in ChordMap {
      return chord;
    }
    var idx := Transpose.RootIndex(root, diff);
    var newRoot := KeyAt(idx);
    ghost var before := newRoot;
    var i := 0;
    while i < |EnharmonicMap|
      invariant 0 <= i <= |EnharmonicMap|
      invariant newRoot == before
      invariant SimplifyFrom(before, i) == Simplify(before)
    {
      if newRoot == EnharmonicMap[i].0 {
        newRoot := EnharmonicMap[i].1;
        break;
      }
      i := i + 1;
    }
    r := newRoot + suffix;
  }

  /** The callback given to `replace`: a valid root is transposed, and so is a
      valid bass, by replacing the first `/bass` in the suffix; a match with an
      unknown root is left as it is. */
  function ReplaceChord(p: Piece, diff: int): string {
    match p
    case Plain(c) => [c]
    case Chord(root, suffix, bass) =>
      if root in ChordMap then
        var transposedRoot := TransposedChord(root, diff);
        if bass.Some? && bass.value in ChordMap then
          transposedRoot + ReplaceFirst(suffix, "/" + bass.value, "/" + TransposedChord(bass.value, diff))
        else transposedRoot + suffix
      else root + suffix
  }

  /** `transposeChordSheet(sheet, fromKey, toKey, capoShift)`: an empty or
      unknown key leaves the sheet as it is; otherwise every match of the chord
      pattern goes through the callback with the diff
      `(CHORD_MAP[toKey] - CHORD_MAP[fromKey] - capoShift + 12) % 12`. */
  function TransposeChordSheet(sheet: string, fromKey: string, toKey: string, capoShift: int): (r: string)
    ensures fromKey !in ChordMap || toKey !in ChordMap ==> r == sheet
  {
    if fromKey == "" || toKey == "" || fromKey !in ChordMap || toKey !in ChordMap then sheet
    else
      var diff := Rem12(ChordMap[toKey] - ChordMap[fromKey] - capoShift + 12);
      Rewrite(Tokenize(sheet, 0, true), (p: Piece) => ReplaceChord(p, diff))
  }

  // ----- lemmas -----

  /** `transposeChord` returns what the production one returns where that
      does not throw, and its own input exactly where that throws, apart from
      the empty chord, which both leave empty. */
  lemma AgreesWithProduction(chord: string, diff: int)
    ensures TransposedChord(chord, diff)
            == match Transpose.TransposedChord(chord, diff) case Ok(v) => v case Err => chord
    ensures TransposedChord(chord, diff) == chord
            <== Transpose.ParseChord(chord).None? || Transpose.ParseChord(chord).value.0 !in ChordMap
  {
    Transpose.TransposedChordErr(chord, diff);
    if Transpose.ParseChord(chord).Some? {
      Transpose.ValidNote(Transpose.ParseChord(chord).value.0);
    }
  }

  /** On every match of the pattern and every diff the sheet rewriter can
      compute, the callback is the production callback. */
  lemma ReplaceChordAgrees(p: Piece, diff: int)
    requires ChordShaped(p, true) && -12 < diff < 12
    ensures ReplaceChord(p, diff) == Transpose.ReplaceChord(p, diff)
  {
    Transpose.ValidNote(p.root);
    if p.root in ChordMap {
      AgreesWithProduction(p.root, diff);
      Transpose.RootShift(p.root, diff);
      if p.bass.Some? {
        Transpose.ValidNote(p.bass.value);
        if p.bass.value in ChordMap {
          AgreesWithProduction(p.bass.value, diff);
          Transpose.RootShift(p.bass.value, diff);
        }
      }
    }
  }

  /** With valid keys, the rewritten sheet is the reference text of its scan:
      every chord with a known root moves by the key distance minus the capo,
      its known bass with it, and all other text is copied. */
  lemma SheetShifts(sheet: string, fromKey: string, toKey: string, capoShift: int)
    requires Transpose.IsValidKey(fromKey) && Transpose.IsValidKey(toKey)
    ensures TransposeChordSheet(sheet, fromKey, toKey, capoShift)
            == Transpose.ShiftPieces(Tokenize(sheet, 0, true), Transpose.Offset(fromKey, toKey, capoShift))
  {
    var ps := Tokenize(sheet, 0, true);
    var diff := Rem12(ChordMap[toKey] - ChordMap[fromKey] - capoShift + 12);
    assert Transpose.CalculateSemitonesDiff(fromKey, toKey, capoShift) == Ok(diff);
    var d := Transpose.Offset(fromKey, toKey, capoShift);
    var f := (p: Piece) => ReplaceChord(p, diff);
    var g := (p: Piece) => Transpose.ShiftedChord(p, d);
    forall k | 0 <= k < |ps| && ps[k].Chord? ensures f(ps[k]) == g(ps[k]) {
      TokenizeShaped(sheet, 0, true, k);
      ReplaceChordAgrees(ps[k], diff);
      Transpose.ReplaceChordIsShift(ps[k], diff);
      Transpose.ShiftedChordByDiff(ps[k], fromKey, toKey, capoShift);
    }
    Transpose.RewriteAgree(ps, f, g);
    Transpose.RewriteShift(ps, d);
  }

  /** The two sheet rewriters differ only through the production shortcut for
      the same key without capo, which hands the sheet back untouched. */
  lemma SheetAgreesWithProduction(sheet: string, fromKey: string, toKey: string, capoShift: int)
    requires sheet == "" || !(fromKey == toKey && capoShift == 0)
    ensures TransposeChordSheet(sheet, fromKey, toKey, capoShift)
            == Transpose.TransposeChordSheet(sheet, fromKey, toKey, capoShift)
  {
    if Transpose.IsValidKey(fromKey) && Transpose.IsValidKey(toKey) {
      SheetShifts(sheet, fromKey, toKey, capoShift);
      if sheet != "" {
        Transpose.TransposeChordSheetShifts(sheet, fromKey, toKey, capoShift);
      }
    }
  }

  /** `SheetShifts` for a sheet whose reference text is known. */
  lemma SheetFromScan(sheet: string, fromKey: string, toKey: string, capoShift: int, d: int, out: string)
    requires Transpose.IsValidKey(fromKey) && Transpose.IsValidKey(toKey)
    requires d == Transpose.Offset(fromKey, toKey, capoShift)
    requires Transpose.ShiftPieces(Tokenize(sheet, 0, true), d) == out
    ensures TransposeChordSheet(sheet, fromKey, toKey, capoShift) == out
  {
    SheetShifts(sheet, fromKey, toKey, capoShift);
  }
}
