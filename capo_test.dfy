/** The capo test suite's own transposer and its header-aware sheet rewriter,
    test/capo_test.js: `transposeChord` without the enharmonic step,
    `transposeChordSheet` without the capo term and without slash chords, and
    `simulateCapoChange`, which rewrites the `Key: X (AG: Y)` and `Capo: n`
    fields and then transposes every line that is not a Key line. */
module CapoTest {
  import opened Wrappers
  import opened Js
  import opened PitchTable
  import opened ChordRegex
  import Transpose

  // ----- transposeChord -----

  /** `transposeChord(chord, semitones)`: throws when the root pattern fails or
      the root is not a CHORD_MAP key; otherwise
      `KEYS[(CHORD_MAP[root] + semitones + 12*10) % 12]` and the suffix. */
  function TransposedChord(chord: string, semitones: int): Result<string> {
    match Transpose.ParseChord(chord)
    case None => Err
    case Some((root, suffix)) =>
      if root !in ChordMap then Err
      else Ok(KeyAt(Rem12(ChordMap[root] + semitones + 120)) + suffix)
  }

  /** It throws on exactly the chords the production transposer throws on,
      whatever the semitone count. */
  lemma TransposedChordErr(chord: string, semitones: int)
    ensures TransposedChord(chord, semitones).Err? <==>
      Transpose.ParseChord(chord).None? || Transpose.ParseChord(chord).value.0 !in ChordMap
    ensures TransposedChord(chord, semitones).Err? <==> Transpose.TransposedChord(chord, semitones).Err?
  {
    Transpose.TransposedChordErr(chord, semitones);
  }

  /** For every semitones >= -120 the index is in range: the new root is the
      note `semitones` above the old one, in KEYS spelling, and the suffix is
      kept. */
  lemma TransposedChordShift(chord: string, semitones: int)
    requires Transpose.ParseChord(chord).Some? && Transpose.ParseChord(chord).value.0 in ChordMap
    requires semitones >= -120
    ensures var (root, suffix) := Transpose.ParseChord(chord).value;
      TransposedChord(chord, semitones) == Ok(Transpose.Shift(root, semitones) + suffix)
  {
    var (root, suffix) := Transpose.ParseChord(chord).value;
    ChordMapIsPitchClass(root);
    var a := ChordMap[root] + semitones + 120;
    Rem12OfNonNegative(a);
    Transpose.SameClass(ChordMap[root], semitones + 120, semitones);
  }

  /** Further below, a negative index that is not a multiple of 12 reads
      `KEYS[idx]` as undefined. */
  lemma TransposedChordUndefined(chord: string, semitones: int)
    requires Transpose.ParseChord(chord).Some? && Transpose.ParseChord(chord).value.0 in ChordMap
    requires var a := ChordMap[Transpose.ParseChord(chord).value.0] + semitones + 120; a < 0 && a % 12 != 0
    ensures TransposedChord(chord, semitones) == Ok("undefined" + Transpose.ParseChord(chord).value.1)
  {
    var root := Transpose.ParseChord(chord).value.0;
    assert Rem12(ChordMap[root] + semitones + 120) < 0;
  }

  /** Where both index formulas stay in range the suite's transposer and the
      production one give the same result: the production ENHARMONIC_MAP step
      never changes a KEYS spelling. */
  lemma AgreesWithProduction(chord: string, semitones: int)
    requires semitones >= -12
    ensures TransposedChord(chord, semitones) == Transpose.TransposedChord(chord, semitones)
  {
    TransposedChordErr(chord, semitones);
    if TransposedChord(chord, semitones).Ok? {
      TransposedChordShift(chord, semitones);
      Transpose.TransposedChordOk(chord, semitones);
    }
  }

  // ----- transposeChordSheet -----

  /** `(CHORD_MAP[toKey] - CHORD_MAP[fromKey] + 12) % 12`; `None` stands for
      the NaN it is when either key is not a CHORD_MAP key. */
  function SheetDiff(fromKey: string, toKey: string): (r: Option<int>)
    ensures r.Some? <==> fromKey in ChordMap && toKey in ChordMap
    ensures r.Some? ==> 0 <= r.value < 12 && r.value == (ChordMap[toKey] - ChordMap[fromKey]) % 12
  {
    if fromKey in ChordMap && toKey in ChordMap then
      ChordMapIsPitchClass(fromKey);
      ChordMapIsPitchClass(toKey);
      Rem12OfNonNegative(ChordMap[toKey] - ChordMap[fromKey] + 12);
      Some(Rem12(ChordMap[toKey] - ChordMap[fromKey] + 12))
    else None
  }

  /** The callback for one match: a root outside CHORD_MAP leaves the match as
      it is; otherwise `transposeChord(root, diff) + suffix`, where a NaN diff
      reads `KEYS[NaN]`, which is undefined. A thrown error is caught and
      leaves the match as it was. */
  function ReplaceChord(p: Piece, diff: Option<int>): string {
    match p
    case Plain(c) => [c]
    case Chord(root, suffix, _) =>
      if root !in ChordMap then root + suffix
      else match diff
        case None => "undefined" + suffix
        case Some(d) =>
          match TransposedChord(root, d)
          case Ok(transposedRoot) => transposedRoot + suffix
          case Err => root + suffix
  }

  /** `transposeChordSheet(sheet, fromKey, toKey)`: the slash-less pattern,
      replaced globally through the callback. */
  function TransposeChordSheet(sheet: string, fromKey: string, toKey: string): (r: string)
    ensures sheet == "" ==> r == ""
    ensures fromKey == toKey ==> r == sheet
  {
    if sheet == "" then ""
    else if fromKey == toKey then sheet
    else Rewrite(Tokenize(sheet, 0, false), (p: Piece) => ReplaceChord(p, SheetDiff(fromKey, toKey)))
  }

  /** With two different CHORD_MAP keys, every match of the slash-less pattern
      with a valid root moves by the key distance and keeps its suffix; every
      other character is copied. A bass after `/` is a match of its own. */
  lemma SheetShifts(sheet: string, fromKey: string, toKey: string)
    requires sheet != "" && fromKey != toKey && fromKey in ChordMap && toKey in ChordMap
    ensures var ps := Tokenize(sheet, 0, false);
      Text(ps) == sheet
      && (forall k :: 0 <= k < |ps| && ps[k].Chord? ==> ChordShaped(ps[k], false))
      && TransposeChordSheet(sheet, fromKey, toKey)
         == Rewrite(ps, (p: Piece) => Transpose.ShiftedChord(p, SheetDiff(fromKey, toKey).value))
  {
    var ps := Tokenize(sheet, 0, false);
    TokenizeCovers(sheet, 0, false);
    var diff := SheetDiff(fromKey, toKey);
    var f := (p: Piece) => ReplaceChord(p, diff);
    var g := (p: Piece) => Transpose.ShiftedChord(p, diff.value);
    forall k | 0 <= k < |ps| && ps[k].Chord? ensures ChordShaped(ps[k], false) && f(ps[k]) == g(ps[k]) {
      TokenizeShaped(sheet, 0, false, k);
      ChordShift(ps[k], diff.value);
    }
    Transpose.RewriteAgree(ps, f, g);
  }

  /** `SheetShifts` for a line whose reference text is known. */
  lemma SheetFromScan(sheet: string, fromKey: string, toKey: string, d: int, out: string)
    requires sheet != "" && fromKey != toKey && fromKey in ChordMap && toKey in ChordMap
    requires SheetDiff(fromKey, toKey) == Some(d)
    requires Transpose.ShiftPieces(Tokenize(sheet, 0, false), d) == out
    ensures TransposeChordSheet(sheet, fromKey, toKey) == out
  {
    SheetShifts(sheet, fromKey, toKey);
    Transpose.RewriteShift(Tokenize(sheet, 0, false), d);
  }

  lemma ChordShift(p: Piece, d: int)
    requires ChordShaped(p, false) && 0 <= d < 12
    ensures ReplaceChord(p, Some(d)) == Transpose.ShiftedChord(p, d)
  {
    if p.root in ChordMap {
      Transpose.ValidNote(p.root);
      TransposedChordShift(p.root, d);
      assert Transpose.Shift(p.root, d) + "" == Transpose.Shift(p.root, d);
    }
  }

  /** With two different keys one of which is not a CHORD_MAP key, the diff is
      NaN and every valid root becomes the text "undefined". */
  lemma SheetUnknownKey(sheet: string, fromKey: string, toKey: string)
    requires sheet != "" && fromKey != toKey && (fromKey !in ChordMap || toKey !in ChordMap)
    ensures TransposeChordSheet(sheet, fromKey, toKey)
         == Rewrite(Tokenize(sheet, 0, false),
                    (p: Piece) => if p.Chord? && p.root in ChordMap then "undefined" + p.suffix else PieceText(p))
  {
    var ps := Tokenize(sheet, 0, false);
    var f := (p: Piece) => ReplaceChord(p, SheetDiff(fromKey, toKey));
    var g := (p: Piece) => if p.Chord? && p.root in ChordMap then "undefined" + p.suffix else PieceText(p);
    forall k | 0 <= k < |ps| && ps[k].Chord? ensures f(ps[k]) == g(ps[k]) {
    }
    Transpose.RewriteAgree(ps, f, g);
  }

  /** The sheet rewriter never adds a line break, so it maps one line to one line. */
  lemma SheetKeepsLine(line: string, fromKey: string, toKey: string)
    requires NoNewline(line)
    ensures NoNewline(TransposeChordSheet(line, fromKey, toKey))
  {
    if line != "" && fromKey != toKey {
      var ps := Tokenize(line, 0, false);
      TokenizeCovers(line, 0, false);
      var diff := SheetDiff(fromKey, toKey);
      var f := (p: Piece) => ReplaceChord(p, diff);
      forall k | 0 <= k < |ps| && ps[k].Chord? ensures NoNewline(f(ps[k])) {
        PieceInText(ps, k);
        ChordKeepsLine(ps[k], diff);
      }
      RewriteNoNewline(ps, f);
    }
  }

  lemma ChordKeepsLine(p: Piece, diff: Option<int>)
    requires p.Chord? && NoNewline(PieceText(p))
    ensures NoNewline(ReplaceChord(p, diff))
  {
    NoNewlineAppend(p.root, p.suffix);
    if p.root in ChordMap {
      if diff.Some? {
        var r := KeyAt(Rem12(ChordMap[p.root] + diff.value + 120));
        Transpose.ValidNote(p.root);
        assert r + "" == r;
        NoNewlineAppend(r, p.suffix);
      } else {
        NoNewlineAppend("undefined", p.suffix);
      }
    }
  }

  // ----- the header patterns (flag `i`) -----

  /** Case-insensitive comparison with an upper-case ASCII letter, as the `i`
      flag does without `u`. */
  predicate SameLetter(c: char, upper: char) {
    c == upper || c as int == upper as int + 32
  }

  /** The upper-case word `w` occurs at `i`, in any case (from its `k`-th letter on). */
  predicate WordAtI(s: string, w: string, i: nat, k: nat := 0)
    decreases |w| - k
  {
    k >= |w| || (i + k < |s| && SameLetter(s[i + k], w[k]) && WordAtI(s, w, i, k + 1))
  }

  /** `[:：]`: an ASCII or a full-width colon. */
  predicate IsColon(c: char) {
    c == ':' || c == '\U{FF1A}'
  }

  /** `[A-G]` and `[b#]` under the `i` flag. */
  predicate IsNoteLetterI(c: char) {
    ('A' <= c <= 'G') || ('a' <= c <= 'g')
  }

  predicate IsAccidentalI(c: char) {
    c == 'b' || c == 'B' || c == '#'
  }

  /** `([A-G][b#]?)` at `i` under the `i` flag, where it ends. What follows it
      in both header groups (`\s*\(` or `\s*\)`) can never start with `b`, `B`
      or `#`, so taking the accidental when present is the only choice that
      can succeed. */
  function NoteEndI(s: string, i: nat): (r: Option<nat>)
    ensures r.Some? ==> i < r.value <= |s| && r.value <= i + 2
  {
    if i < |s| && IsNoteLetterI(s[i]) then
      Some(if i + 1 < |s| && IsAccidentalI(s[i + 1]) then i + 2 else i + 1)
    else None
  }

  /** `w\s*[:：]` at `i` (`w` in any case): the index just past the colon. No
      `\s` is a colon, so the greedy `\s*` never gives back a character. */
  function LabelColonEnd(s: string, w: string, i: nat): (r: Option<nat>)
    ensures r.Some? ==> i + |w| < r.value <= |s|
  {
    if WordAtI(s, w, i) then
      WordAtILength(s, w, i, 0);
      if i + |w| > |s| then None
      else
      var a := SpaceEnd(s, i + |w|);
      if a < |s| && IsColon(s[a]) then Some(a + 1) else None
    else None
  }

  lemma {:induction false} WordAtILength(s: string, w: string, i: nat, k: nat)
    requires WordAtI(s, w, i, k)
    ensures i + |w| <= |s| || k >= |w|
    ensures forall m :: k <= m < |w| ==> SameLetter(s[i + m], w[m])
    decreases |w| - k
  {
    if k < |w| {
      WordAtILength(s, w, i, k + 1);
    }
  }

  /** Where the groups of one header match end: `$1` is `s[i..keyStart]`, `$2`
      is `s[keyStart..keyEnd]`, `$3` is `s[keyEnd..agStart]`, `$4` is
      `s[agStart..agEnd]` and `$5` is `s[agEnd..end]`. */
  datatype Header = Header(keyStart: nat, keyEnd: nat, agStart: nat, agEnd: nat, end: nat)

  /** `(Key\s*[:：]\s*)([A-G][b#]?)(\s*\(\s*AG\s*[:：]\s*)([A-G][b#]?)(\s*\))`
      with the `i` flag, tried at `i`. Every `\s*` is followed by something
      that is not a space, so the pattern has at most one match from `i`. */
  function KeyHeaderAt(s: string, i: nat): (r: Option<Header>)
    ensures r.Some? ==> var h := r.value;
      i < h.keyStart < h.keyEnd <= h.agStart < h.agEnd < h.end <= |s|
  {
    var c1 := LabelColonEnd(s, "KEY", i);
    if c1.None? then None
    else
      var keyStart := SpaceEnd(s, c1.value);
      var keyEnd := NoteEndI(s, keyStart);
      if keyEnd.None? then None
      else
        var open := SpaceEnd(s, keyEnd.value);
        if !(open < |s| && s[open] == '(') then None
        else
          var c2 := LabelColonEnd(s, "AG", SpaceEnd(s, open + 1));
          if c2.None? then None
          else
            var agStart := SpaceEnd(s, c2.value);
            var agEnd := NoteEndI(s, agStart);
            if agEnd.None? then None
            else
              var close := SpaceEnd(s, agEnd.value);
              if close < |s| && s[close] == ')'
              then Some(Header(keyStart, keyEnd.value, agStart, agEnd.value, close + 1))
              else None
  }

  /** The header replacement text `$1${currentKey}$3${targetGuitarKey}$5`. */
  function NewHeader(s: string, i: nat, h: Header, key: string, ag: string): string
    requires i < h.keyStart < h.keyEnd <= h.agStart < h.agEnd < h.end <= |s|
  {
    s[i..h.keyStart] + key + s[h.keyEnd..h.agStart] + ag + s[h.agEnd..h.end]
  }

  /** `s.replace(keyPattern, ...)` with the `g` flag, from index `i`. */
  function ReplaceKeyHeaders(s: string, i: nat, key: string, ag: string): string
    decreases |s| - i
  {
    if i >= |s| then []
    else match KeyHeaderAt(s, i)
      case Some(h) => NewHeader(s, i, h, key, ag) + ReplaceKeyHeaders(s, h.end, key, ag)
      case None => [s[i]] + ReplaceKeyHeaders(s, i + 1, key, ag)
  }

  /** `(Capo\s*[:：]\s*)(\d+)` with the `i` flag, tried at `i`: where the digits
      start and end. */
  function CapoAt(s: string, i: nat): Option<(nat, nat)> {
    var c := LabelColonEnd(s, "CAPO", i);
    if c.None? then None
    else
      var start := SpaceEnd(s, c.value);
      var n := DigitRun(s, start);
      if n > 0 then Some((start, start + n)) else None
  }
  /** A capo match: the label, then a maximal non-empty run of digits. */
  lemma CapoAtShape(s: string, i: nat)
    ensures var r := CapoAt(s, i);
      r.Some? ==>
        i < r.value.0 < r.value.1 <= |s|
        && (forall k :: r.value.0 <= k < r.value.1 ==> IsDigit(s[k]))
        && (r.value.1 == |s| || !IsDigit(s[r.value.1]))
  {
  }


  /** `s.replace(capoPattern, `$1${newCapo}`)` with the `g` flag, from index `i`. */
  function ReplaceCapo(s: string, i: nat, newCapo: int): string
    decreases |s| - i
  {
    if i >= |s| then []
    else
      CapoAtShape(s, i);
      match CapoAt(s, i)
      case Some((start, end)) => s[i..start] + Decimal(newCapo) + ReplaceCapo(s, end, newCapo)
      case None => [s[i]] + ReplaceCapo(s, i + 1, newCapo)
  }

  /** `line.match(/Key\s*[:：]/i)` succeeds: the label occurs at or after `i`. */
  predicate HasKeyLabel(line: string, i: nat := 0)
    decreases |line| - i
  {
    i < |line| && (LabelColonEnd(line, "KEY", i).Some? || HasKeyLabel(line, i + 1))
  }

  // ----- simulateCapoChange -----

  /** The sheet after both field rewrites, before the lines are transposed. */
  function Processed(sheet: string, currentKey: string, target: string, newCapo: int): string {
    ReplaceCapo(ReplaceKeyHeaders(sheet, 0, currentKey, target), 0, newCapo)
  }

  /** `lines.map(...)`: Key lines are kept as they stand, every other line is
      transposed from the original key to the guitar key. */
  function TransposeLines(lines: seq<string>, originalKey: string, target: string): (r: seq<string>)
    ensures |r| == |lines|
    ensures forall k :: 0 <= k < |lines| ==>
      r[k] == if HasKeyLabel(lines[k]) then lines[k] else TransposeChordSheet(lines[k], originalKey, target)
  {
    if lines == [] then []
    else
      [if HasKeyLabel(lines[0]) then lines[0] else TransposeChordSheet(lines[0], originalKey, target)]
      + TransposeLines(lines[1..], originalKey, target)
  }

  /** `simulateCapoChange(originalSheet, currentKey, originalKey, newCapo)`:
      the guitar key is `transposeChord(currentKey, -newCapo)`; an error there
      is rethrown. */
  function SimulateCapoChange(originalSheet: string, currentKey: string, originalKey: string, newCapo: int)
    : (r: Result<string>)
    ensures r.Err? <==> TransposedChord(currentKey, -newCapo).Err?
  {
    match TransposedChord(currentKey, -newCapo)
    case Err => Err
    case Ok(target) =>
      var processed := Processed(originalSheet, currentKey, target, newCapo);
      Ok(Join(TransposeLines(Split(processed), originalKey, target)))
  }

  // ----- a sheet whose fields are all on its first line -----

  /** No letter `x` followed by a letter `y` (either in any case) starts at
      `k`: neither a `Key` nor a `Capo` label can start there. */
  predicate NoPairAt(s: string, k: nat, x: char, y: char) {
    !(k + 1 < |s| && SameLetter(s[k], x) && SameLetter(s[k + 1], y))
  }

  /** No such pair starts in `s[i..j]`. */
  predicate NoPairIn(s: string, i: nat, j: nat, x: char, y: char)
    decreases j - i
  {
    i >= j || (NoPairAt(s, i, x, y) && NoPairIn(s, i + 1, j, x, y))
  }

  /** No such pair starts anywhere in `s`. */
  predicate PairFree(s: string, x: char, y: char) {
    forall k :: 0 <= k < |s| ==> NoPairAt(s, k, x, y)
  }

  /** No `Key` label, hence no header, starts where no `Ke` pair does. */
  lemma NoHeaderAt(s: string, i: nat)
    requires NoPairAt(s, i, 'K', 'E')
    ensures LabelColonEnd(s, "KEY", i).None? && KeyHeaderAt(s, i).None?
  {
    assert !WordAtI(s, "KEY", i, 1) || !SameLetter(s[i], 'K');
  }

  /** No `Capo` label, hence no capo field, starts where no `Ca` pair does. */
  lemma NoCapoAt(s: string, i: nat)
    requires NoPairAt(s, i, 'C', 'A')
    ensures CapoAt(s, i).None?
  {
    assert !WordAtI(s, "CAPO", i, 1) || !SameLetter(s[i], 'C');
  }

  /** A position where no `Key` label starts contributes its own character. */
  lemma HeaderStep(s: string, i: nat, key: string, ag: string)
    requires i < |s| && NoPairAt(s, i, 'K', 'E')
    ensures ReplaceKeyHeaders(s, i, key, ag) == [s[i]] + ReplaceKeyHeaders(s, i + 1, key, ag)
  {
    NoHeaderAt(s, i);
  }

  /** A position where no capo field starts contributes its own character. */
  lemma CapoStep(s: string, i: nat, newCapo: int)
    requires i < |s| && CapoAt(s, i).None?
    ensures ReplaceCapo(s, i, newCapo) == [s[i]] + ReplaceCapo(s, i + 1, newCapo)
  {
  }

  /** The character at `i`, followed by `s[i + 1..j]` and then `r`. */
  lemma PrependSlice(s: string, i: nat, j: nat, m: string, r: string)
    requires i < j <= |s| && m == s[i + 1..j] + r
    ensures [s[i]] + m == s[i..j] + r
  {
    assert s[i..j] == [s[i]] + s[i + 1..j];
  }

  /** Where no `Key` label starts, the header rewrite copies the text. */
  lemma {:induction false} HeadersCopied(s: string, i: nat, j: nat, key: string, ag: string)
    requires i <= j <= |s| && NoPairIn(s, i, j, 'K', 'E')
    ensures ReplaceKeyHeaders(s, i, key, ag) == s[i..j] + ReplaceKeyHeaders(s, j, key, ag)
    decreases j - i
  {
    if i < j {
      HeaderStep(s, i, key, ag);
      HeadersCopied(s, i + 1, j, key, ag);
      PrependSlice(s, i, j, ReplaceKeyHeaders(s, i + 1, key, ag), ReplaceKeyHeaders(s, j, key, ag));
    }
  }

  /** Where no `Capo` label starts, the capo rewrite copies the text. */
  lemma {:induction false} CapoCopied(s: string, i: nat, j: nat, newCapo: int)
    requires i <= j <= |s| && NoPairIn(s, i, j, 'C', 'A')
    ensures ReplaceCapo(s, i, newCapo) == s[i..j] + ReplaceCapo(s, j, newCapo)
    decreases j - i
  {
    if i < j {
      NoCapoAt(s, i);
      CapoStep(s, i, newCapo);
      CapoCopied(s, i + 1, j, newCapo);
      PrependSlice(s, i, j, ReplaceCapo(s, i + 1, newCapo), ReplaceCapo(s, j, newCapo));
    }
  }

  lemma {:induction false} NoPairInAll(s: string, i: nat, j: nat, x: char, y: char)
    requires forall k :: i <= k < j ==> NoPairAt(s, k, x, y)
    ensures NoPairIn(s, i, j, x, y)
    decreases j - i
  {
    if i < j {
      NoPairInAll(s, i + 1, j, x, y);
    }
  }

  /** A pair-free text after `t` has no pair starting in it. */
  lemma PairFreeAfter(t: string, rest: string, x: char, y: char)
    requires PairFree(rest, x, y)
    ensures NoPairIn(t + rest, |t|, |t + rest|, x, y)
  {
    var s := t + rest;
    forall k | |t| <= k < |s| ensures NoPairAt(s, k, x, y) {
      assert NoPairAt(rest, k - |t|, x, y);
      if k + 1 < |s| {
        assert s[k] == rest[k - |t|] && s[k + 1] == rest[k + 1 - |t|];
      }
    }
    NoPairInAll(s, |t|, |s|, x, y);
  }

  /** A header found at `i` is replaced, and the rewrite goes on after it. */
  lemma HeaderFound(s: string, i: nat, h: Header, key: string, ag: string)
    requires i < |s| && KeyHeaderAt(s, i) == Some(h)
    ensures ReplaceKeyHeaders(s, i, key, ag) == NewHeader(s, i, h, key, ag) + ReplaceKeyHeaders(s, h.end, key, ag)
  {
  }

  /** A capo field found at `i` gets the new number, and the rewrite goes on
      after its digits. */
  lemma CapoFound(s: string, i: nat, start: nat, end: nat, newCapo: int)
    requires i < |s| && CapoAt(s, i) == Some((start, end))
    ensures i <= start <= end <= |s|
    ensures ReplaceCapo(s, i, newCapo) == s[i..start] + Decimal(newCapo) + ReplaceCapo(s, end, newCapo)
  {
    CapoAtShape(s, i);
  }

  /** After a line, a pair-free rest of the sheet is copied by the header
      rewrite. */
  lemma HeadersAfter(t: string, rest: string, key: string, ag: string)
    requires PairFree(rest, 'K', 'E')
    ensures ReplaceKeyHeaders(t + rest, |t|, key, ag) == rest
  {
    var s := t + rest;
    PairFreeAfter(t, rest, 'K', 'E');
    HeadersCopied(s, |t|, |s|, key, ag);
    assert s[|t|..|s|] == rest;
  }

  /** After a line, a pair-free rest of the sheet is copied by the capo
      rewrite. */
  lemma CapoAfter(t: string, rest: string, newCapo: int)
    requires PairFree(rest, 'C', 'A')
    ensures ReplaceCapo(t + rest, |t|, newCapo) == rest
  {
    var s := t + rest;
    PairFreeAfter(t, rest, 'C', 'A');
    CapoCopied(s, |t|, |s|, newCapo);
    assert s[|t|..|s|] == rest;
  }

  /** Two pair-free texts joined by a line break are pair-free, for letters
      `x` and `y`. */
  lemma PairFreeLines(a: string, b: string, x: char, y: char)
    requires 'A' <= x <= 'Z' && 'A' <= y <= 'Z'
    requires PairFree(a, x, y) && PairFree(b, x, y)
    ensures PairFree(a + "\n" + b, x, y)
  {
    var s := a + "\n" + b;
    forall k | 0 <= k < |s| ensures NoPairAt(s, k, x, y) {
      if k + 1 < |a| {
        assert NoPairAt(a, k, x, y);
        assert s[k] == a[k] && s[k + 1] == a[k + 1];
      } else if k + 1 == |a| || k == |a| {
        assert s[|a|] == '\n';
      } else if k + 1 < |s| {
        assert NoPairAt(b, k - |a| - 1, x, y);
        assert s[k] == b[k - |a| - 1] && s[k + 1] == b[k - |a|];
      }
    }
  }

  lemma {:induction false} PairFreeJoin(lines: seq<string>, x: char, y: char)
    requires |lines| >= 1 && 'A' <= x <= 'Z' && 'A' <= y <= 'Z'
    requires forall k :: 0 <= k < |lines| ==> PairFree(lines[k], x, y)
    ensures PairFree(Join(lines), x, y)
  {
    if |lines| > 1 {
      PairFreeJoin(lines[1..], x, y);
      PairFreeLines(lines[0], Join(lines[1..]), x, y);
    }
  }

  /** Everything after the first line: its line break and the other lines. */
  function RestOfSheet(lines: seq<string>): (r: string)
    requires |lines| >= 1
    ensures Join(lines) == lines[0] + r
  {
    if |lines| == 1 then "" else "\n" + Join(lines[1..])
  }

  /** What follows the first line starts with a line break and holds no label
      pair when no other line does. */
  lemma RestPairFree(lines: seq<string>, x: char, y: char)
    requires |lines| >= 1 && 'A' <= x <= 'Z' && 'A' <= y <= 'Z'
    requires forall k :: 1 <= k < |lines| ==> PairFree(lines[k], x, y)
    ensures PairFree(RestOfSheet(lines), x, y)
    ensures RestOfSheet(lines) == [] || RestOfSheet(lines)[0] == '\n'
  {
    if |lines| > 1 {
      PairFreeJoin(lines[1..], x, y);
      PairFreeLines("", Join(lines[1..]), x, y);
      assert "" + "\n" + Join(lines[1..]) == RestOfSheet(lines);
    }
  }

  /** A line without a `Key` label pair is not a Key line. */
  lemma {:induction false} NoKeyLabel(line: string, i: nat)
    requires PairFree(line, 'K', 'E')
    ensures !HasKeyLabel(line, i)
    decreases |line| - i
  {
    if i < |line| {
      assert NoPairAt(line, i, 'K', 'E');
      NoHeaderAt(line, i);
      NoKeyLabel(line, i + 1);
    }
  }

  /** A line starting with `Key` (in any case) and a colon is a Key line. */
  lemma KeyLabelFirst(line: string)
    requires |line| >= 4 && SameLetter(line[0], 'K') && SameLetter(line[1], 'E') && SameLetter(line[2], 'Y')
    requires IsColon(line[3])
    ensures HasKeyLabel(line)
  {
    assert WordAtI(line, "KEY", 0, 3);
    assert WordAtI(line, "KEY", 0, 2);
    assert WordAtI(line, "KEY", 0, 1);
    assert LabelColonEnd(line, "KEY", 0) == Some(4);
  }

  /** Lines without a line break and without a `Ke` or `Ca` pair: no field
      can start on any of them. */
  predicate PlainLines(lines: seq<string>) {
    forall k :: 0 <= k < |lines| ==>
      NoNewline(lines[k]) && PairFree(lines[k], 'K', 'E') && PairFree(lines[k], 'C', 'A')
  }

  /** The first line `l0`, followed by `rest`, has its Key header rewritten
      into `keyed` and then its capo into `first`, a single Key line, for the
      guitar key `target`. */
  predicate FirstLineRewritten(l0: string, rest: string, currentKey: string, newCapo: int, target: string,
                               keyed: string, first: string) {
    && TransposedChord(currentKey, -newCapo) == Ok(target)
    && ReplaceKeyHeaders(l0 + rest, 0, currentKey, target) == keyed + rest
    && ReplaceCapo(keyed + rest, 0, newCapo) == first + rest
    && NoNewline(first) && HasKeyLabel(first)
  }

  /** Each of `lines` transposed on its own is the matching entry of `outs`. */
  predicate LinesTransposed(lines: seq<string>, originalKey: string, target: string, outs: seq<string>) {
    |outs| == |lines| && forall k :: 0 <= k < |lines| ==> TransposeChordSheet(lines[k], originalKey, target) == outs[k]
  }

  /** After a first line, plain lines hold no label pair, and start with a
      line break when there are any. */
  lemma RestIsPlain(l0: string, others: seq<string>)
    requires PlainLines(others)
    ensures PairFree(RestOfSheet([l0] + others), 'K', 'E') && PairFree(RestOfSheet([l0] + others), 'C', 'A')
    ensures RestOfSheet([l0] + others) == [] || RestOfSheet([l0] + others)[0] == '\n'
  {
    var lines := [l0] + others;
    assert lines[1..] == others;
    RestPairFree(lines, 'K', 'E');
    RestPairFree(lines, 'C', 'A');
  }

  /** A sheet whose Key and Capo fields are all on its first line: the result
      is that line with both fields rewritten, followed by every other line
      transposed on its own. */
  lemma SheetOfLines(l0: string, others: seq<string>, currentKey: string, originalKey: string, newCapo: int,
                     target: string, keyed: string, first: string, outs: seq<string>)
    requires PlainLines(others)
    requires FirstLineRewritten(l0, RestOfSheet([l0] + others), currentKey, newCapo, target, keyed, first)
    requires LinesTransposed(others, originalKey, target, outs)
    ensures SimulateCapoChange(Join([l0] + others), currentKey, originalKey, newCapo) == Ok(Join([first] + outs))
  {
    var lines := [l0] + others;
    assert lines[0] == l0 && lines[1..] == others;
    forall k | 1 <= k < |lines| ensures !HasKeyLabel(lines[k]) {
      NoKeyLabel(lines[k], 0);
    }
    ProcessedOfLines(lines, currentKey, newCapo, target, keyed, first);
    TransposedLines([first] + others, originalKey, target, [first] + outs);
  }

  lemma ProcessedOfLines(lines: seq<string>, currentKey: string, newCapo: int, target: string, keyed: string, first: string)
    requires |lines| >= 1
    requires ReplaceKeyHeaders(lines[0] + RestOfSheet(lines), 0, currentKey, target) == keyed + RestOfSheet(lines)
    requires ReplaceCapo(keyed + RestOfSheet(lines), 0, newCapo) == first + RestOfSheet(lines)
    requires NoNewline(first) && forall k :: 1 <= k < |lines| ==> NoNewline(lines[k])
    ensures Split(Processed(Join(lines), currentKey, target, newCapo)) == [first] + lines[1..]
  {
    var processed := [first] + lines[1..];
    assert processed[1..] == lines[1..];
    assert Join(processed) == first + RestOfSheet(lines);
    SplitJoin(processed);
  }

  lemma TransposedLines(lines: seq<string>, originalKey: string, target: string, outs: seq<string>)
    requires |lines| >= 1 && |outs| == |lines|
    requires lines[0] == outs[0] && HasKeyLabel(outs[0])
    requires forall k :: 1 <= k < |lines| ==>
      !HasKeyLabel(lines[k]) && TransposeChordSheet(lines[k], originalKey, target) == outs[k]
    ensures TransposeLines(lines, originalKey, target) == outs
  {
  }

  // ----- properties of the header rewrite -----

  /** The guitar key is the current key lowered by the capo: for a valid
      current key and a capo of at most 120 it is `newCapo` semitones below,
      in KEYS spelling. */
  lemma GuitarKey(currentKey: string, newCapo: int)
    requires currentKey in ChordMap && newCapo <= 120
    ensures SimulateCapoChange("", currentKey, "", newCapo).Ok?
    ensures TransposedChord(currentKey, -newCapo) == Ok(Transpose.Shift(currentKey, -newCapo))
  {
    Transpose.ValidNote(currentKey);
    TransposedChordShift(currentKey, -newCapo);
    assert Transpose.Shift(currentKey, -newCapo) + "" == Transpose.Shift(currentKey, -newCapo);
  }

  /** `GuitarKey` for a guitar key worked out beforehand. */
  lemma GuitarKeyIs(currentKey: string, newCapo: int, target: string)
    requires currentKey in ChordMap && newCapo <= 120 && Transpose.Shift(currentKey, -newCapo) == target
    ensures TransposedChord(currentKey, -newCapo) == Ok(target)
  {
    GuitarKey(currentKey, newCapo);
  }

  /** The result has exactly the lines of the processed sheet, each Key line
      kept and each other line transposed. */
  lemma SimulatedLines(originalSheet: string, currentKey: string, originalKey: string, newCapo: int)
    requires TransposedChord(currentKey, -newCapo).Ok?
    ensures var target := TransposedChord(currentKey, -newCapo).value;
      var lines := Split(Processed(originalSheet, currentKey, target, newCapo));
      var r := SimulateCapoChange(originalSheet, currentKey, originalKey, newCapo);
      r.Ok? && Split(r.value) == TransposeLines(lines, originalKey, target)
      && |Split(r.value)| == NewlineCount(Processed(originalSheet, currentKey, target, newCapo)) + 1
  {
    var target := TransposedChord(currentKey, -newCapo).value;
    var processed := Processed(originalSheet, currentKey, target, newCapo);
    var lines := Split(processed);
    JoinSplit(processed);
    var out := TransposeLines(lines, originalKey, target);
    forall k | 0 <= k < |out| ensures NoNewline(out[k]) {
      SheetKeepsLine(lines[k], originalKey, target);
    }
    SplitJoin(out);
  }

  /** A greedy `\s*` from `j` stops at `m` when `s[j..m]` is all spaces and
      `s[m]` is not one. */
  lemma {:induction false} SpaceEndAt(s: string, j: nat, m: nat)
    requires j <= m <= |s|
    requires forall k :: j <= k < m ==> IsSpace(s[k])
    requires m == |s| || !IsSpace(s[m])
    ensures SpaceEnd(s, j) == m
    decreases m - j
  {
    if j < m {
      SpaceEndAt(s, j + 1, m);
    }
  }

  /** Within a window that `t[b..b + n]` copies from `s[a..a + n]`, a greedy
      `\s*` from `x` stops at the corresponding place, provided the stop in `s`
      lies inside the window or the character after the copy in `t` is not a
      space either. Positions in `t` are the primed ones. */
  lemma SpaceCopy(s: string, a: nat, t: string, b: nat, n: nat, x: nat, m: nat, x': nat, m': nat)
    requires a + n <= |s| && b + n <= |t| && s[a..a + n] == t[b..b + n]
    requires a <= x <= a + n && SpaceEnd(s, x) == m && m <= a + n
    requires x' + a == x + b && m' + a == m + b
    requires m < a + n || m' == |t| || !IsSpace(t[m'])
    ensures SpaceEnd(t, x') == m'
  {
    SpaceEndShape(s, x);
    forall k | a <= k < a + n ensures s[k] == t[k - a + b] {
      assert s[a..a + n][k - a] == t[b..b + n][k - a];
    }
    forall k | x' <= k < m' ensures IsSpace(t[k]) {
      assert t[k] == s[k + a - b];
    }
    if m < a + n {
      assert t[m'] == s[m];
    }
    SpaceEndAt(t, x', m');
  }

  /** The same for `w\s*[:：]`, which always ends inside the window. */
  lemma LabelCopy(s: string, a: nat, t: string, b: nat, n: nat, w: string, x: nat, c: nat, x': nat, c': nat)
    requires a + n <= |s| && b + n <= |t| && s[a..a + n] == t[b..b + n]
    requires a <= x && LabelColonEnd(s, w, x) == Some(c) && c <= a + n
    requires x' + a == x + b && c' + a == c + b
    ensures LabelColonEnd(t, w, x') == Some(c')
  {
    forall k | a <= k < a + n ensures s[k] == t[k - a + b] {
      assert s[a..a + n][k - a] == t[b..b + n][k - a];
    }
    WordAtILength(s, w, x, 0);
    forall m | 0 <= m < |w| ensures x' + m < |t| && SameLetter(t[x' + m], w[m]) {
      assert s[x + m] == t[(x + m) - a + b];
    }
    WordAtIFrom(t, w, x', 0);
    SpaceCopy(s, a, t, b, n, x + |w|, c - 1, x' + |w|, c' - 1);
    assert s[c - 1] == t[c' - 1];
  }

  lemma {:induction false} WordAtIFrom(s: string, w: string, i: nat, k: nat)
    requires k <= |w|
    requires forall m :: k <= m < |w| ==> i + m < |s| && SameLetter(s[i + m], w[m])
    ensures WordAtI(s, w, i, k)
    decreases |w| - k
  {
    if k < |w| {
      WordAtIFrom(s, w, i, k + 1);
    }
  }

  /** A note spelling followed by a character that is not an accidental is
      read whole by `([A-G][b#]?)`. */
  lemma NoteCopy(t: string, x: nat, key: string, y: nat)
    requires IsNoteShape(key) && y == x + |key| && y < |t| && t[x..y] == key
    requires !IsAccidentalI(t[y])
    ensures NoteEndI(t, x) == Some(y)
  {
    assert t[x] == key[0];
    if |key| == 2 {
      assert t[x + 1] == key[1];
    }
  }

  /** Groups `$1` and `$2` of a header copied to the start of `t`: the label
      and spacing read the same, and the new key is read whole. */
  lemma KeyGroupCopy(s: string, i: nat, c1: nat, ks: nat, t: string, key: string, c1': nat, ks': nat, ke': nat)
    requires LabelColonEnd(s, "KEY", i) == Some(c1) && SpaceEnd(s, c1) == ks
    requires c1' + i == c1 && ks' + i == ks && ke' == ks' + |key| && ke' < |t|
    requires t[0..ks'] == s[i..ks] && IsNoteShape(key) && t[ks'..ke'] == key && !IsAccidentalI(t[ke'])
    ensures LabelColonEnd(t, "KEY", 0) == Some(c1') && SpaceEnd(t, c1') == ks' && NoteEndI(t, ks') == Some(ke')
  {
    LabelCopy(s, i, t, 0, ks', "KEY", i, c1, 0, c1');
    assert t[ks'] == key[0];
    SpaceCopy(s, i, t, 0, ks', c1, ks, c1', ks');
    NoteCopy(t, ks', key, ke');
  }

  /** The `\s*\(` at the head of group `$3`, copied to `t` at `ke'`. */
  lemma OpenCopy(s: string, ke: nat, open: nat, gs: nat, t: string, ke': nat, open': nat, gs': nat)
    requires ke <= |s| && SpaceEnd(s, ke) == open && open < gs <= |s| && s[open] == '('
    requires open' + ke == open + ke' && gs' + ke == gs + ke' && gs' <= |t| && t[ke'..gs'] == s[ke..gs]
    ensures SpaceEnd(t, ke') == open' && t[open'] == '('
  {
    SpaceCopy(s, ke, t, ke', gs - ke, ke, open, ke', open');
    assert s[ke..gs][open - ke] == t[ke'..gs'][open - ke];
  }

  /** The rest of group `$3` and group `$4`, copied to `t`. */
  lemma AgGroupCopy(s: string, ke: nat, open: nat, agLabel: nat, c2: nat, gs: nat,
                    t: string, ag: string, ke': nat, open': nat, agLabel': nat, c2': nat, gs': nat, ae': nat)
    requires ke <= open < |s| && SpaceEnd(s, open + 1) == agLabel && LabelColonEnd(s, "AG", agLabel) == Some(c2)
    requires SpaceEnd(s, c2) == gs
    requires open' + ke == open + ke' && agLabel' + ke == agLabel + ke' && c2' + ke == c2 + ke'
    requires gs' + ke == gs + ke' && ae' == gs' + |ag| && ae' < |t|
    requires t[ke'..gs'] == s[ke..gs] && IsNoteShape(ag) && t[gs'..ae'] == ag && !IsAccidentalI(t[ae'])
    ensures SpaceEnd(t, open' + 1) == agLabel' && LabelColonEnd(t, "AG", agLabel') == Some(c2')
    ensures SpaceEnd(t, c2') == gs' && NoteEndI(t, gs') == Some(ae')
  {
    var n := gs - ke;
    SpaceCopy(s, ke, t, ke', n, open + 1, agLabel, open' + 1, agLabel');
    LabelCopy(s, ke, t, ke', n, "AG", agLabel, c2, agLabel', c2');
    assert t[gs'] == ag[0];
    SpaceCopy(s, ke, t, ke', n, c2, gs, c2', gs');
    NoteCopy(t, gs', ag, ae');
  }

  /** Group `$5` copied to `t` at `ae'`. */
  lemma CloseGroupCopy(s: string, ae: nat, close: nat, t: string, ae': nat, close': nat)
    requires ae <= |s| && SpaceEnd(s, ae) == close && close < |s| && s[close] == ')'
    requires close' + ae == close + ae' && close' < |t| && t[ae'..close' + 1] == s[ae..close + 1]
    ensures SpaceEnd(t, ae') == close' && t[close'] == ')'
  {
    SpaceCopy(s, ae, t, ae', close + 1 - ae, ae, close, ae', close');
    assert s[ae..close + 1][close - ae] == t[ae'..close' + 1][close - ae];
  }

  /** The five pieces of a rewritten header, at the given offsets. */
  lemma HeaderPieces(g1: string, key: string, g3: string, ag: string, g5: string, rest: string, t: string,
                     ks: nat, ke: nat, gs: nat, ae: nat, e: nat)
    requires t == g1 + key + g3 + ag + g5 + rest
    requires ks == |g1| && ke == ks + |key| && gs == ke + |g3| && ae == gs + |ag| && e == ae + |g5|
    ensures t[0..ks] == g1 && t[ks..ke] == key && t[ke..gs] == g3 && t[gs..ae] == ag && t[ae..e] == g5
  {
    Concat3(g1, key, g3 + ag + g5 + rest);
    Concat3(g1 + key + g3, ag, g5 + rest);
    assert t[ke..gs] == (g3 + ag + g5 + rest)[..|g3|];
    assert t[ae..e] == (g5 + rest)[..|g5|];
  }

  /** The characters after a note group: `\s*\(` or `\s*\)` starts there, so it
      is a space or the bracket, never an accidental. */
  lemma AfterNote(s: string, x: nat, bracket: char)
    requires x <= |s| && SpaceEnd(s, x) < |s| && s[SpaceEnd(s, x)] == bracket && !IsAccidentalI(bracket)
    ensures x < |s| && !IsAccidentalI(s[x])
  {
    SpaceEndShape(s, x);
  }

  /** A header match at `i` in `s`, group by group. */
  predicate HeaderGroups(s: string, i: nat, c1: nat, ks: nat, ke: nat, open: nat, agLabel: nat,
                         c2: nat, gs: nat, ae: nat, close: nat)
  {
    LabelColonEnd(s, "KEY", i) == Some(c1) && c1 <= |s| && SpaceEnd(s, c1) == ks
    && NoteEndI(s, ks) == Some(ke) && ke <= |s| && SpaceEnd(s, ke) == open && open < |s| && s[open] == '('
    && SpaceEnd(s, open + 1) == agLabel && LabelColonEnd(s, "AG", agLabel) == Some(c2)
    && c2 <= |s| && SpaceEnd(s, c2) == gs && NoteEndI(s, gs) == Some(ae) && ae <= |s|
    && SpaceEnd(s, ae) == close && close < |s| && s[close] == ')'
  }

  lemma HeaderGroupsOf(s: string, i: nat, h: Header) returns (c1: nat, open: nat, agLabel: nat, c2: nat, close: nat)
    requires KeyHeaderAt(s, i) == Some(h)
    ensures HeaderGroups(s, i, c1, h.keyStart, h.keyEnd, open, agLabel, c2, h.agStart, h.agEnd, close)
    ensures close + 1 == h.end
  {
    c1 := LabelColonEnd(s, "KEY", i).value;
    open := SpaceEnd(s, h.keyEnd);
    agLabel := SpaceEnd(s, open + 1);
    c2 := LabelColonEnd(s, "AG", agLabel).value;
    close := h.end - 1;
  }

  lemma HeaderFromGroups(t: string, c1: nat, ks: nat, ke: nat, open: nat, agLabel: nat,
                         c2: nat, gs: nat, ae: nat, close: nat, end: nat)
    requires HeaderGroups(t, 0, c1, ks, ke, open, agLabel, c2, gs, ae, close) && end == close + 1
    ensures KeyHeaderAt(t, 0) == Some(Header(ks, ke, gs, ae, end))
  {
  }

  /** Rewriting the two note groups of a header keeps every other group; in
      `t` they sit at the primed positions. */
  lemma HeaderGroupsCopy(s: string, i: nat, c1: nat, ks: nat, ke: nat, open: nat, agLabel: nat,
                         c2: nat, gs: nat, ae: nat, close: nat, key: string, ag: string, rest: string,
                         t: string, c1': nat, ks': nat, ke': nat, open': nat, agLabel': nat,
                         c2': nat, gs': nat, ae': nat, close': nat)
    requires HeaderGroups(s, i, c1, ks, ke, open, agLabel, c2, gs, ae, close)
    requires IsNoteShape(key) && IsNoteShape(ag)
    requires i < ks < ke <= gs < ae <= close
    requires t == NewHeader(s, i, Header(ks, ke, gs, ae, close + 1), key, ag) + rest
    requires c1' + i == c1 && ks' + i == ks && ke' == ks' + |key|
    requires open' + ke == open + ke' && agLabel' + ke == agLabel + ke' && c2' + ke == c2 + ke'
    requires gs' + ke == gs + ke' && ae' == gs' + |ag| && close' + ae == close + ae'
    ensures HeaderGroups(t, 0, c1', ks', ke', open', agLabel', c2', gs', ae', close')
  {
    var g1, g3, g5 := s[i..ks], s[ke..gs], s[ae..close + 1];
    HeaderPieces(g1, key, g3, ag, g5, rest, t, ks', ke', gs', ae', close' + 1);
    AfterNote(s, ke, '(');
    assert t[ke'] == g3[0] == s[ke];
    KeyGroupCopy(s, i, c1, ks, t, key, c1', ks', ke');
    AfterNote(s, ae, ')');
    assert t[ae'] == g5[0] == s[ae];
    OpenCopy(s, ke, open, gs, t, ke', open', gs');
    AgGroupCopy(s, ke, open, agLabel, c2, gs, t, ag, ke', open', agLabel', c2', gs', ae');
    CloseGroupCopy(s, ae, close, t, ae', close');
  }

  /** The rewritten header is again a header: matched at its start it reads
      back the new Key and AG fields at the shifted boundaries `ks'`..`end'`,
      with the label and spacing groups `$1`, `$3` and `$5` exactly as they
      were. */
  lemma HeaderRematch(s: string, i: nat, h: Header, key: string, ag: string, rest: string, t: string,
                        ks': int, ke': int, gs': int, ae': int, end': int)
    requires KeyHeaderAt(s, i) == Some(h) && IsNoteShape(key) && IsNoteShape(ag)
    requires t == NewHeader(s, i, h, key, ag) + rest
    requires ks' + i == h.keyStart && ke' == ks' + |key| && gs' + h.keyEnd == ke' + h.agStart
    requires ae' == gs' + |ag| && end' + h.agEnd == ae' + h.end
    ensures KeyHeaderAt(t, 0) == Some(Header(ks', ke', gs', ae', end'))
  {
    var c1, open, agLabel, c2, close := HeaderGroupsOf(s, i, h);
    var c1', open', agLabel', c2' := c1 - i, open - h.keyEnd + ke', agLabel - h.keyEnd + ke', c2 - h.keyEnd + ke';
    var close' := end' - 1;
    HeaderGroupsCopy(s, i, c1, h.keyStart, h.keyEnd, open, agLabel, c2, h.agStart, h.agEnd, close,
                     key, ag, rest, t, c1', ks', ke', open', agLabel', c2', gs', ae', close');
    HeaderFromGroups(t, c1', ks', ke', open', agLabel', c2', gs', ae', close', end');
  }

  /** `\d+` from `a` takes exactly the digits up to the first non-digit. */
  lemma {:induction false} DigitRunAt(s: string, a: nat, n: nat)
    requires a + n <= |s|
    requires forall k :: a <= k < a + n ==> IsDigit(s[k])
    requires a + n == |s| || !IsDigit(s[a + n])
    ensures DigitRun(s, a) == n
    decreases n
  {
    if n > 0 {
      DigitRunAt(s, a + 1, n - 1);
    }
  }

  /** The rewritten capo field is again a capo field: matched at its start it
      reads back `newCapo`, with the label group `$1` as it was, provided the
      text after it does not continue the number. */
  lemma CapoRematch(s: string, i: nat, start: nat, end: nat, newCapo: nat, rest: string, t: string)
    requires CapoAt(s, i) == Some((start, end))
    requires rest == [] || !IsDigit(rest[0])
    requires t == s[i..start] + Decimal(newCapo) + rest
    ensures CapoAt(t, 0) == Some((start - i, start - i + |Natural(newCapo)|))
    ensures DigitsValue(Natural(newCapo)) == newCapo
  {
    var digits := Natural(newCapo);
    assert Decimal(newCapo) == digits;
    CapoDigitsRematch(s, i, start, end, digits, rest, t);
    NaturalRoundTrip(newCapo);
  }

  /** `CapoRematch` for any non-empty run of digits in place of the number. */
  lemma CapoDigitsRematch(s: string, i: nat, start: nat, end: nat, digits: string, rest: string, t: string)
    requires CapoAt(s, i) == Some((start, end))
    requires |digits| > 0 && forall k :: 0 <= k < |digits| ==> IsDigit(digits[k])
    requires rest == [] || !IsDigit(rest[0])
    requires t == s[i..start] + digits + rest
    ensures CapoAt(t, 0) == Some((start - i, start - i + |digits|))
  {
    CapoAtShape(s, i);
    var g1 := s[i..start];
    DigitsPlaced(g1, digits, rest, t);
    var c := LabelColonEnd(s, "CAPO", i).value;
    CapoCopy(s, i, c, start, t, c - i, start - i, |digits|);
  }

  lemma DigitsPlaced(g1: string, digits: string, rest: string, t: string)
    requires t == g1 + digits + rest
    requires forall k :: 0 <= k < |digits| ==> IsDigit(digits[k])
    requires rest == [] || !IsDigit(rest[0])
    ensures t[0..|g1|] == g1
    ensures forall k :: |g1| <= k < |g1| + |digits| ==> IsDigit(t[k])
    ensures |g1| + |digits| == |t| || !IsDigit(t[|g1| + |digits|])
  {
    Concat3(g1, digits, rest);
    if rest != [] {
      assert t[|g1| + |digits|] == rest[0];
    }
  }

  /** The label group `$1` of a capo field copied to the start of `t`,
      followed there by a maximal run of `n` digits. */
  lemma CapoCopy(s: string, i: nat, c: nat, start: nat, t: string, c': nat, ds: nat, n: nat)
    requires LabelColonEnd(s, "CAPO", i) == Some(c) && SpaceEnd(s, c) == start
    requires c' + i == c && ds + i == start
    requires ds + n <= |t| && t[0..ds] == s[i..start]
    requires n > 0 && forall k :: ds <= k < ds + n ==> IsDigit(t[k])
    requires ds + n == |t| || !IsDigit(t[ds + n])
    ensures CapoAt(t, 0) == Some((ds, ds + n))
  {
    LabelCopy(s, i, t, 0, ds, "CAPO", i, c, 0, c');
    SpaceCopy(s, i, t, 0, ds, c, start, c', ds);
    DigitRunAt(t, ds, n);
    CapoFromParts(t, c', ds, n);
  }

  lemma CapoFromParts(t: string, c: nat, ds: nat, n: nat)
    requires LabelColonEnd(t, "CAPO", 0) == Some(c) && SpaceEnd(t, c) == ds && DigitRun(t, ds) == n && n > 0
    ensures CapoAt(t, 0) == Some((ds, ds + n))
  {
  }
}
