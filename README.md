# Chord transposer: a verified model

This project models the chord-sheet transposition engine of the GuitarTab
viewer in Dafny. The engine exists in three copies.

- **The production module**, `assets/js/modules/transpose.js`, holds three
  pitch tables:
  - `KEYS`: the twelve output spellings.
  - `CHORD_MAP`: the seventeen accepted spellings and their pitch classes.
  - `ENHARMONIC_MAP`: twenty-one artifact spellings and their simple forms.

  `transposeChord` moves one chord by a number of semitones.
  `transposeChordSheet` rewrites every chord in a text by a global
  `String.prototype.replace` driven by a chord regular expression. The module
  also has the small helpers `isValidChord`, `isValidKey`, `getKeyPosition`
  and `calculateSemitonesDiff`.
- **The capo test suite**, `test/capo_test.js`, has its own copies of
  `transposeChord` and `transposeChordSheet`. Its `transposeChord` adds 120
  rather than 12 before the remainder, and its `transposeChordSheet` has no
  capo term and no slash group. It also has `simulateCapoChange`, which:
  - rewrites every `Key: X (AG: Y)` header and every `Capo: n` field of a
    sheet;
  - splits the sheet into lines;
  - leaves every line that carries a `Key:` label alone;
  - transposes every other line from the original key to the guitar key.

  The suite's seven test scenarios are proved as lemmas.
- **The validation script**, `test/validate_fix.mjs`, has a non-throwing
  `transposeChord` and a `transposeChordSheet` without the empty-sheet and
  same-key shortcuts. It also has four test vectors, proved as lemmas.

## Modules

- `Wrappers` holds `Option` and `Result`, the error path of every operation
  that throws or can fail.
- `Js` holds the JavaScript primitives the engine depends on:
  - the truncating `%`;
  - the regular-expression classes `\w`, `\d` and `\s`;
  - `split('\n')` and `join('\n')`;
  - `indexOf`, and `replace` with a string pattern (first occurrence only);
  - the conversion of an integer to its decimal text.
- `PitchTable` holds the three tables and their pitch-class facts.
- `ChordRegex` is an explicit scanner for the chord pattern. It follows
  JavaScript's backtracking order for one match attempt. It then tokenizes a
  text into copied characters and chord matches, as the global `replace`
  walks it.
- `Transpose` models the production module. `ValidateFix` and `CapoTest`
  model the two test-file variants. `CapoTestCases` and `ValidateFixCases`
  hold the test vectors.

## Method

Each rewriter is defined on the token sequence that `ChordRegex.Tokenize`
produces. `Transpose.ShiftedChord` is a reference reading of what a chord
match should become: root and bass moved by the same pitch-class distance in
`KEYS` spelling, and the quality text kept. Each rewriter is proved equal to
that reading wherever its keys are valid.

The `for...of` loop over `ENHARMONIC_MAP` is modelled as a `while` loop in
`Transpose.TransposeChord` and `ValidateFix.TransposeChord` and proved
against `PitchTable.Simplify`. The loop can never change a root, because no
`KEYS` entry and no `"undefined"` is a complex form of the map.

One consequence of the pattern's closing `\b` is proved, both on general
input and on a concrete text. A `#` that is followed by a non-word character
or by the end of the text is never part of a match. The `#` of `F#` is then
copied through after the moved `F`. `"F#"` moved from C to F therefore reads
`"Bb#"` in both rewriters. That text holds the `b#` pair which the first
validation vector checks its naturals against. The third vector, `D/F#` to
`A/C#`, comes out right only because the moved `F` is `C`.

The tests check their output with `includes` and with a search for the
header line. Each test lemma states the whole output exactly, which implies
those checks. The `shouldNotContain` check of the first validation vector is
stated as `Js.IndexOf` finding nothing.

## Model

| member | source | states |
|---|---|---|
| PitchTable.KeyAt | assets/js/modules/transpose.js:44 | `KEYS[idx]` is the table entry, of the shape `[A-G][b#]?`, for an index in 0..11, and the text "undefined" for any other index |
| PitchTable.KeysRoundTrip | assets/js/modules/transpose.js:2-7 | for every i in 0..11, `KEYS[i]` is a CHORD_MAP key with `CHORD_MAP[KEYS[i]] == i`, and its music-theory value is i |
| PitchTable.ChordMapIsPitchClass | assets/js/modules/transpose.js:5-7 | every CHORD_MAP spelling has the shape `[A-G][b#]?`, maps into 0..11, and maps to its letter value plus one per sharp minus one per flat, mod 12 |
| PitchTable.ChordMapZero | assets/js/modules/transpose.js:5-7 | "C" is the only spelling of pitch class 0; every pitch class has its KEYS spelling among the CHORD_MAP keys |
| PitchTable.EnharmonicEntrySound | assets/js/modules/transpose.js:10-18 | every ENHARMONIC_MAP entry maps a letter with two accidentals to a spelling of the same pitch class with at most one accidental, and no complex form is a KEYS entry |
| PitchTable.SimplifyFromAbsent | assets/js/modules/transpose.js:50-55 | the loop leaves a root unchanged when no remaining entry has it as its complex form |
| PitchTable.SimplifyKeepsShortSpellings | assets/js/modules/transpose.js:50-55 | the loop never changes a root that is not three characters long |
| PitchTable.SimplifyKeyAt | assets/js/modules/transpose.js:44-55 | the loop never changes `KEYS[idx]`, for any idx, including the `undefined` read |
| PitchTable.SimplifyFromSound | assets/js/modules/transpose.js:50-55 | when the loop does change a root, the root is three characters long and the replacement has the shape `[A-G][b#]?` and names the same pitch class |
| Js.Rem12 | assets/js/modules/transpose.js:133 | JavaScript's `% 12`: the result lies in (-12, 12), has the sign of the dividend, and is congruent to it mod 12 |
| Js.Rem12OfNonNegative | assets/js/modules/transpose.js:43 | for a non-negative dividend the truncating remainder is the Euclidean one |
| Js.JoinSplit | test/capo_test.js:73 | `split('\n')` then `join('\n')` gives the text back; there is one more line than newlines, and no line holds a newline |
| Js.SplitJoin | test/capo_test.js:83 | joining newline-free lines and splitting the result gives the same lines |
| Js.SplitNoNewline | test/capo_test.js:73 | a text without a newline splits into itself alone |
| Js.SplitPrefix | test/capo_test.js:73 | a newline-free first line followed by a newline is the first element of the split |
| Js.IndexOf | assets/js/modules/transpose.js:93 | `indexOf` returns the first index at or after the start where the word occurs (no earlier one does), or nothing only when it occurs nowhere |
| Js.IndexOfPairFree | test/validate_fix.mjs:77 | a text with no character `a` directly followed by `b` does not include the pair `ab` |
| Js.Natural | test/capo_test.js:70 | the decimal text of a natural number is non-empty and made of digits only |
| Js.NaturalRoundTrip | test/capo_test.js:70 | reading the decimal text of `n` back as digits gives `n` |
| Js.DigitRun | test/capo_test.js:69 | the greedy `\d+` run from an index: all digits, and stopped at a non-digit or at the end |
| Js.SpaceEndShape | test/capo_test.js:65 | the greedy `\s*` consumes only spaces and stops at a non-space or at the end |
| ChordRegex.Close | assets/js/modules/transpose.js:81 | the closing `\b` accepts a candidate exactly when its end is a word boundary, and then leaves it unchanged |
| ChordRegex.MatchAtFound | assets/js/modules/transpose.js:81 | every match starts at a word boundary with a note letter, has a root `[A-G][b#]?` and a suffix of word characters and `#` only, has its bass (slash pattern only) after a `/` and running to the end, and ends at a word boundary |
| ChordRegex.OrElseFound | assets/js/modules/transpose.js:81 | trying one alternative and then another keeps the well-formedness of both |
| ChordRegex.TryQualityFound | assets/js/modules/transpose.js:81 | every match found by the quality alternation, in its order, is well formed |
| ChordRegex.TryDigitsFound | assets/js/modules/transpose.js:81 | every match found by trying the digit runs longest first is well formed |
| ChordRegex.TryAlterationDigitsFound | assets/js/modules/transpose.js:81 | every match found with a `[b#]\d+` alteration is well formed |
| ChordRegex.TrySlashFound | assets/js/modules/transpose.js:81 | every match found by the slash group (with an accidental, without, then none) is well formed |
| ChordRegex.MatchGreedy | assets/js/modules/transpose.js:81 | when the greedy choice of every group closes at a word boundary, it is the match |
| ChordRegex.QualityEndFirst | assets/js/modules/transpose.js:81 | the greedy quality is the first alternative, in the order maj, min, m, dim, aug, sus, add, dom, alt, that occurs at the index |
| ChordRegex.TryQualityNoWord | assets/js/modules/transpose.js:81 | when no quality word occurs, the alternation goes straight to the digit runs |
| ChordRegex.NoMatchInWord | assets/js/modules/transpose.js:81 | a note letter followed by a word character that can start no suffix (not a digit, accidental, m, d, a or s) starts no match |
| ChordRegex.SharpLeftBehind | assets/js/modules/transpose.js:81 | a note letter followed by `#` and then by the end of the text or a non-word character other than `#` and `/` matches as the letter alone: the `#` is left out |
| ChordRegex.SharpRootFails | assets/js/modules/transpose.js:81 | after a root with `#` at the end of a word, no choice of the rest of the pattern reaches a word boundary |
| ChordRegex.BareRootMatches | assets/js/modules/transpose.js:81 | on backtracking to the root without its `#`, the whole pattern matches with an empty suffix |
| ChordRegex.TokenizeMatch | assets/js/modules/transpose.js:83 | where a match starts, the global replace takes the whole match as one chord piece and resumes at its end |
| ChordRegex.TokenizeNoMatch | assets/js/modules/transpose.js:83 | where no match starts, the character is copied and the scan resumes at the next index |
| ChordRegex.TokenizeCovers | assets/js/modules/transpose.js:83 | the pieces of the scan, read back, are exactly the scanned text, with nothing lost and in order |
| ChordRegex.TokenizeShaped | assets/js/modules/transpose.js:83 | every chord piece of the scan has a root `[A-G][b#]?`; a bass, when present, is a note after the last `/` at the end of the suffix, and the quality before it holds no `/` |
| ChordRegex.RewriteText | assets/js/modules/transpose.js:83 | a callback that hands every chord match back unchanged leaves the text unchanged |
| ChordRegex.RewriteAppend | assets/js/modules/transpose.js:83 | the rewrite of two piece sequences placed together is the two rewrites placed together |
| ChordRegex.RewriteNoNewline | assets/js/modules/transpose.js:83 | a rewrite of newline-free text whose callback adds no newline gives newline-free text |
| Transpose.ParseChord | assets/js/modules/transpose.js:31 | `^([A-G][b#]?)(.*)$`: on success the root and the rest give the chord back, and the root takes the accidental exactly when one follows the letter; it fails exactly when the chord is empty, does not start with a note letter, or holds a line terminator after the letter |
| Transpose.ValidNote | assets/js/modules/transpose.js:112-116 | a note of the shape `[A-G][b#]?` parses as itself with an empty rest, and `isValidChord` holds exactly when it is a CHORD_MAP key |
| Transpose.ValidKeys | assets/js/modules/transpose.js:119-121 | `isValidKey` holds exactly for the spellings `[A-G][b#]?` other than Cb, Fb, E# and B# |
| Transpose.GetKeyPosition | assets/js/modules/transpose.js:124-126 | the result is -1 exactly for an unknown key and for "C" (pitch class 0 is falsy); otherwise it is the CHORD_MAP value, in 1..11 |
| Transpose.CalculateSemitonesDiff | assets/js/modules/transpose.js:129-134 | an error exactly when a key is invalid; otherwise a value in (-12, 12), congruent to the key distance minus the capo mod 12, and negative exactly when distance minus capo plus 12 is negative and not a multiple of 12 |
| Transpose.TransposeChord | assets/js/modules/transpose.js:20-58 | the method, with its ENHARMONIC_MAP loop, returns what `transposeChord` returns or throws for an integer diff |
| Transpose.TransposedChordErr | assets/js/modules/transpose.js:22-41 | `transposeChord` throws exactly when the chord is empty, fails the root pattern, or has a root (such as Cb, Fb, E#, B#) that is not a CHORD_MAP key |
| Transpose.TransposedChordOk | assets/js/modules/transpose.js:43-57 | for a valid root and diff >= -12 the result is `KEYS[(CHORD_MAP[root] + diff + 12) % 12]` followed by the unchanged suffix, and the new pitch class is the old one plus diff mod 12 |
| Transpose.TransposedChordUndefined | assets/js/modules/transpose.js:43-44 | when `CHORD_MAP[root] + diff + 12` is negative and not a multiple of 12, the new root is the text "undefined" |
| Transpose.TransposedNoteIsKey | assets/js/modules/transpose.js:44-55 | for a CHORD_MAP note and diff >= -12 the result is a KEYS entry: the ENHARMONIC_MAP loop never fires |
| Transpose.TransposeChordSheet | assets/js/modules/transpose.js:62-75 | an empty sheet gives ""; an invalid key, or the same key with no capo, gives the sheet unchanged |
| Transpose.TransposeChordSheetShifts | assets/js/modules/transpose.js:77-104 | with valid keys and either different keys or a capo, the sheet's pieces read back to the sheet, every piece is a well-formed chord match, and the result is every match moved by the key distance minus the capo (mod 12) with every other character copied; the catch branches are never taken |
| Transpose.ReplaceChordIsShift | assets/js/modules/transpose.js:85-103 | for a match and a diff in (-12, 12): a root outside CHORD_MAP keeps the match; otherwise root and valid bass move by the same distance and the quality text before `/` is kept; an invalid bass is copied with the suffix |
| Transpose.ReplaceBass | assets/js/modules/transpose.js:93 | replacing the first `/bass` in the suffix changes exactly the bass at its end and keeps the quality text before it |
| Transpose.Shift | assets/js/modules/transpose.js:43-44 | the moved note is a CHORD_MAP key whose pitch class is the old one plus d, mod 12 |
| Transpose.ShiftByDiff | assets/js/modules/transpose.js:129-134 | moving a note by the truncated diff of `calculateSemitonesDiff` lands on the same note as moving it by the Euclidean offset |
| Transpose.ShiftCongruent | assets/js/modules/transpose.js:43 | two diffs that are congruent mod 12 move a note to the same spelling |
| Transpose.RootShift | assets/js/modules/transpose.js:87 | for a CHORD_MAP root and a diff in (-12, 12), `transposeChord` succeeds with the moved note |
| Transpose.Offset | assets/js/modules/transpose.js:133 | the Euclidean offset between two valid keys with a capo lies in 0..11 |
| Transpose.RewriteShift | assets/js/modules/transpose.js:83-104 | rewriting the pieces with the reference reading is the concatenation of each piece moved by d |
| Transpose.ShiftScanChord | assets/js/modules/transpose.js:83-104 | a match at i contributes its moved text, and the scan continues at the match end |
| Transpose.ShiftScanPlain | assets/js/modules/transpose.js:83-104 | a stretch in which no match starts is copied verbatim |
| ValidateFix.TransposeChord | test/validate_fix.mjs:22-41 | the method, with its ENHARMONIC_MAP loop, returns what the non-throwing `transposeChord` returns |
| ValidateFix.AgreesWithProduction | test/validate_fix.mjs:22-41 | the non-throwing transposer returns the production result where that succeeds, and its input unchanged where the root pattern fails or the root is not a CHORD_MAP key |
| ValidateFix.TransposeChordSheet | test/validate_fix.mjs:44 | either key outside CHORD_MAP gives the sheet unchanged |
| ValidateFix.ReplaceChordAgrees | test/validate_fix.mjs:51-66 | for every chord match and diff in (-12, 12) the callback agrees with the production callback |
| ValidateFix.SheetShifts | test/validate_fix.mjs:43-67 | with valid keys the result is every match moved by the key distance minus the capo, with every other character copied; this holds for equal keys with capo 0 too, since there is no same-key shortcut |
| ValidateFix.SheetAgreesWithProduction | test/validate_fix.mjs:43-67 | on every sheet except a non-empty one with the same key and no capo, the script's rewriter and the production one give the same text |
| CapoTest.TransposedChordErr | test/capo_test.js:20-24 | the suite's `transposeChord` throws exactly when the root pattern fails or the root is not a CHORD_MAP key, and exactly when the production one does |
| CapoTest.TransposedChordShift | test/capo_test.js:27-28 | for a valid root and semitones >= -120 the index is in range, and the result is the root moved by `semitones`, followed by the unchanged suffix |
| CapoTest.TransposedChordUndefined | test/capo_test.js:27-28 | below that bound, the new root is the text "undefined" |
| CapoTest.AgreesWithProduction | test/capo_test.js:13-29 | for semitones >= -12 the suite's transposer agrees with the production one, errors included |
| CapoTest.SheetDiff | test/capo_test.js:41 | the diff exists exactly when both keys are CHORD_MAP keys, and it is the key distance mod 12, in 0..11 |
| CapoTest.TransposeChordSheet | test/capo_test.js:38-39 | an empty sheet gives ""; the same key gives the sheet unchanged |
| CapoTest.SheetShifts | test/capo_test.js:41-53 | with two different CHORD_MAP keys, every match of the slash-less pattern moves its root by the key distance and keeps its suffix, every other character is copied, and a bass after `/` is a match of its own |
| CapoTest.SheetUnknownKey | test/capo_test.js:41-47 | with different keys and one of them unknown, the diff is NaN and every valid root becomes "undefined" |
| CapoTest.SheetKeepsLine | test/capo_test.js:32-54 | the sheet rewriter never adds a line break |
| CapoTest.KeyHeaderAt | test/capo_test.js:65 | a header match has its key group, its AG group and its closing parenthesis in that order within the text |
| CapoTest.CapoAtShape | test/capo_test.js:69 | a capo match is the label followed by a maximal non-empty run of digits |
| CapoTest.HeaderFound | test/capo_test.js:65-66 | at a header match, the label texts and spacing are kept, the key becomes `currentKey`, the AG becomes the guitar key, and the scan resumes after the match |
| CapoTest.CapoFound | test/capo_test.js:69-70 | at a capo match, the label text is kept, the digits become the decimal text of `newCapo`, and the scan resumes after the digits |
| CapoTest.HeadersCopied | test/capo_test.js:66 | a stretch where no `Key` label can start is copied verbatim by the header rewrite |
| CapoTest.CapoCopied | test/capo_test.js:70 | a stretch where no `Capo` label can start is copied verbatim by the capo rewrite |
| CapoTest.HeaderRematch | test/capo_test.js:65-66 | a rewritten header still matches the header pattern, with the new key and AG in its groups |
| CapoTest.CapoRematch | test/capo_test.js:69-70 | a rewritten capo field still matches the capo pattern, and its digits read back as `newCapo` |
| CapoTest.TransposeLines | test/capo_test.js:74-81 | the line count is kept; a line with a `Key:` label is kept as it is and every other line is transposed from the original key to the guitar key |
| CapoTest.SimulateCapoChange | test/capo_test.js:57-87 | an error exactly when the guitar key `transposeChord(currentKey, -newCapo)` throws |
| CapoTest.SimulatedLines | test/capo_test.js:57-87 | when the guitar key exists, the result's lines are the processed sheet's lines, with Key lines kept and the other lines transposed, and there is one more of them than the processed sheet has newlines |
| CapoTest.GuitarKey | test/capo_test.js:62 | for a CHORD_MAP key and a capo up to 120, the guitar key exists and is the key moved down by the capo |
| CapoTest.ProcessedOfLines | test/capo_test.js:59-73 | when only the first line holds fields, the processed sheet splits into the rewritten first line and the other lines unchanged |
| CapoTest.SheetOfLines | test/capo_test.js:57-87 | for a sheet whose fields are all on its first line, the result is the rewritten first line joined with the other lines, each transposed |
| CapoTestCases.LowerCase | test/capo_test.js:122-152 | capo 3 to 0: the header reads `Key: Bb (AG:Bb)   Capo: 0`, the chords G and D of the Pre line become Bb and F, and `G          Em` becomes `Bb          Gm`, with the spacing kept |
| CapoTestCases.RaiseCase | test/capo_test.js:155-175 | capo 0 to 3 on a Bb sheet: the header reads `Key: Bb (AG:G)   Capo: 3` and the chords move down to G |
| CapoTestCases.NewKeyCase | test/capo_test.js:178-192 | key C with capo 3: the header reads `Key: C (AG:A)   Capo: 3` |
| CapoTestCases.Capo5Case | test/capo_test.js:195-215 | key D with capo 5: the header reads `Key: D (AG:A)   Capo: 5` and the chords written in A stay |
| CapoTestCases.NoCapoCase | test/capo_test.js:218-231 | key G with capo 0: the header reads `Key: G (AG:G)   Capo: 0` |
| CapoTestCases.ChorusCase | test/capo_test.js:234-252 | `Gmaj7  Asus4    C` and `Em7    Bm       A` move from G to C with their qualities, and the header reads `Key: C (AG:C)   Capo: 0` |
| CapoTestCases.GuitarKeyCase | test/capo_test.js:255-271 | Bb moved down by no capo is Bb, so taking the capo off `Key: Bb (AG:G)   Capo: 3` gives `Key: Bb (AG:Bb)   Capo: 0`: the AG field follows the guitar key |
| ValidateFixCases.NaturalsCase | test/validate_fix.mjs:71-78 | `C D E F G A B` from C to Db gives `C# Eb F F# G# Bb C`, which holds neither `#b` nor `b#` |
| ValidateFixCases.SeventhsCase | test/validate_fix.mjs:79-86 | `Bm7 Cmaj7 Dsus4 Em7` from C to D gives `C#m7 Dmaj7 Esus4 F#m7` |
| ValidateFixCases.SlashesCase | test/validate_fix.mjs:87-94 | `C/E Am/C D/F#` from C to G gives `G/B Em/G A/C#` |
| ValidateFixCases.DiatonicCase | test/validate_fix.mjs:95-102 | `Cmaj7 Dm7 Em7 Fmaj7 G7 Am7 Bm7b5` from C to G gives `Gmaj7 Am7 Bm7 Cmaj7 D7 Em7 F#m7b5` |
| ValidateFixCases.RespelledCase | test/validate_fix.mjs:43-53 | with the same key and no capo, the script respells `Db` as `C#`, while the production rewriter returns `Db` unchanged |
| ValidateFixCases.SharpLeftBehindCase | test/validate_fix.mjs:49 | `F#` from C to F gives `Bb#` in both rewriters, and `b#` occurs in it |

## Left out

- Dynamic typing: non-string chords, sheets and keys, non-number or NaN
  diffs, non-integer capos, and prototype names such as `toString` that
  satisfy `in`. Texts are strings, and diffs and capos are integers.
  - An empty chord, which is falsy, is modelled as an error.
  - An unknown key in `test/capo_test.js`, which makes the diff NaN, is
    modelled by `CapoTest.SheetDiff` returning `None`.
- Lone UTF-16 surrogates. A JavaScript string is a sequence of UTF-16 code
  units, while a Dafny `string` is a sequence of Unicode scalar values. For
  the patterns here the two agree, because `\w` and `\b` are ASCII-only and
  `.` and `\s` exclude only BMP characters. A text holding a lone surrogate
  cannot be written in the model at all.
- The text of thrown errors and of `console.warn`/`console.error` messages.
  A throw is the `Err` of a `Result`. The re-throw with a new message in
  `simulateCapoChange` is the same `Err`.
- `$` patterns in replacement strings.
  - The header and capo replacements are modelled directly as the captured
    label text plus the new key or the decimal digits.
  - `Js.ReplaceFirst` takes its replacement as literal text. The replacement
    is always `/` followed by a note, so it never holds a `$`.
- A general regular-expression engine. Only the four patterns of the core are
  modelled, each by its own scanner.
- The application code (`assets/js/app.js`) and the PDF export
  (`assets/js/modules/pdf.js`): user interface and I/O.
- The test harness: `CapoTestSuite`'s counters and `runTest`/`runAllTests`
  logging, the module and window export glue, and in
  `test/validate_fix.mjs` the logging loop and the unused `fs` and `path`
  imports. The test inputs and expectations are kept as lemmas.
- Transpose.TransposeChordSheet: on the non-shortcut path it states no
  contract of its own. That path is stated by
  `Transpose.TransposeChordSheetShifts` for valid keys, which is the only
  case that reaches it.
- `simulateCapoChange` is proved on concrete sheets only when a sheet's
  `Key` and `Capo` fields all sit on its first line, as in every scenario of
  the suite. The general definition covers every sheet.
