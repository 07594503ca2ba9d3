/** The sheets that test/validate_fix.mjs feeds to its `transposeChordSheet`,
    each rewritten exactly. Every sheet is read off position by position:
    `<N>Match<p>` finds the match that starts at `p`, `<N>Chord<p>` gives the
    text its chord is moved to, and `<N>From<i>` the reference text of the
    scan from `i` on, for any string with the sheet's characters. */
module ValidateFixCases {
  import opened Wrappers
  import opened Js
  import opened ChordRegex
  import Transpose
  import ValidateFix

  // ----- the seven naturals from C to Db -----

  /** The chord `C` at 0: the root, after a word boundary. */
  lemma NaturalsGreedy0Root(s: string)
    requires |s| == 13
    requires s[0] == 'C' && s[1] == ' '
    ensures Boundary(s, 0) && RootEnd(s, 0) == 1
  {
  }

  /** The chord `C` at 0: the quality word. */
  lemma NaturalsGreedy0Quality(s: string)
    requires |s| == 13
    requires s[0] == 'C' && s[1] == ' '
    ensures QualityEnd(s, 1, Qualities) == 1
  {
    QualityEndFirst(s, 1);
  }

  /** The chord `C` at 0: the digits and the alteration. */
  lemma NaturalsGreedy0Digits(s: string)
    requires |s| == 13
    requires s[0] == 'C' && s[1] == ' '
    ensures DigitRun(s, 1) == 0 && AlterationEnd(s, 1) == 1
  {
  }

  /** The chord `C` at 0: the slash group and the closing boundary. */
  lemma NaturalsGreedy0Slash(s: string)
    requires |s| == 13
    requires s[0] == 'C' && s[1] == ' '
    ensures TrySlash(s, 1, 1, true) == Some(Candidate(1, 1, None))
  {
  }

  /** The chord `C` at 0: the whole match. */
  lemma NaturalsMatch0(s: string)
    requires |s| == 13
    requires s[0] == 'C' && s[1] == ' '
    ensures MatchAt(s, 0, true) == Some(Candidate(1, 1, None))
  {
    NaturalsGreedy0Root(s);
    NaturalsGreedy0Quality(s);
    NaturalsGreedy0Digits(s);
    NaturalsGreedy0Slash(s);
    MatchGreedy(s, 0, true, 1, 1, 1, 1, Candidate(1, 1, None));
  }

  /** The chord `C` at 0: moved by the reference reading. */
  lemma NaturalsChord0(s: string)
    requires |s| == 13
    requires s[0] == 'C'
    ensures Transpose.ShiftedChord(Chord(s[0..1], s[1..1], None), 1) == "C#"
  {
    assert s[0..1] == "C" && s[1..1] == "";
  }

  /** The plain text from position 1. */
  lemma NaturalsText1(s: string)
    requires |s| == 13
    requires s[1] == ' '
    ensures s[1..2] == " "
  {
  }

  /** The chord `D` at 2: the root, after a word boundary. */
  lemma NaturalsGreedy2Root(s: string)
    requires |s| == 13
    requires s[1] == ' ' && s[2] == 'D' && s[3] == ' '
    ensures Boundary(s, 2) && RootEnd(s, 2) == 3
  {
  }

  /** The chord `D` at 2: the quality word. */
  lemma NaturalsGreedy2Quality(s: string)
    requires |s| == 13
    requires s[1] == ' ' && s[2] == 'D' && s[3] == ' '
    ensures QualityEnd(s, 3, Qualities) == 3
  {
    QualityEndFirst(s, 3);
  }

  /** The chord `D` at 2: the digits and the alteration. */
  lemma NaturalsGreedy2Digits(s: string)
    requires |s| == 13
    requires s[1] == ' ' && s[2] == 'D' && s[3] == ' '
    ensures DigitRun(s, 3) == 0 && AlterationEnd(s, 3) == 3
  {
  }

  /** The chord `D` at 2: the slash group and the closing boundary. */
  lemma NaturalsGreedy2Slash(s: string)
    requires |s| == 13
    requires s[1] == ' ' && s[2] == 'D' && s[3] == ' '
    ensures TrySlash(s, 3, 3, true) == Some(Candidate(3, 3, None))
  {
  }

  /** The chord `D` at 2: the whole match. */
  lemma NaturalsMatch2(s: string)
    requires |s| == 13
    requires s[1] == ' ' && s[2] == 'D' && s[3] == ' '
    ensures MatchAt(s, 2, true) == Some(Candidate(3, 3, None))
  {
    NaturalsGreedy2Root(s);
    NaturalsGreedy2Quality(s);
    NaturalsGreedy2Digits(s);
    NaturalsGreedy2Slash(s);
    MatchGreedy(s, 2, true, 3, 3, 3, 3, Candidate(3, 3, None));
  }

  /** The chord `D` at 2: moved by the reference reading. */
  lemma NaturalsChord2(s: string)
    requires |s| == 13
    requires s[2] == 'D'
    ensures Transpose.ShiftedChord(Chord(s[2..3], s[3..3], None), 1) == "Eb"
  {
    assert s[2..3] == "D" && s[3..3] == "";
  }

  /** The plain text from position 3. */
  lemma NaturalsText3(s: string)
    requires |s| == 13
    requires s[3] == ' '
    ensures s[3..4] == " "
  {
  }

  /** The chord `E` at 4: the root, after a word boundary. */
  lemma NaturalsGreedy4Root(s: string)
    requires |s| == 13
    requires s[3] == ' ' && s[4] == 'E' && s[5] == ' '
    ensures Boundary(s, 4) && RootEnd(s, 4) == 5
  {
  }

  /** The chord `E` at 4: the quality word. */
  lemma NaturalsGreedy4Quality(s: string)
    requires |s| == 13
    requires s[3] == ' ' && s[4] == 'E' && s[5] == ' '
    ensures QualityEnd(s, 5, Qualities) == 5
  {
    QualityEndFirst(s, 5);
  }

  /** The chord `E` at 4: the digits and the alteration. */
  lemma NaturalsGreedy4Digits(s: string)
    requires |s| == 13
    requires s[3] == ' ' && s[4] == 'E' && s[5] == ' '
    ensures DigitRun(s, 5) == 0 && AlterationEnd(s, 5) == 5
  {
  }

  /** The chord `E` at 4: the slash group and the closing boundary. */
  lemma NaturalsGreedy4Slash(s: string)
    requires |s| == 13
    requires s[3] == ' ' && s[4] == 'E' && s[5] == ' '
    ensures TrySlash(s, 5, 5, true) == Some(Candidate(5, 5, None))
  {
  }

  /** The chord `E` at 4: the whole match. */
  lemma NaturalsMatch4(s: string)
    requires |s| == 13
    requires s[3] == ' ' && s[4] == 'E' && s[5] == ' '
    ensures MatchAt(s, 4, true) == Some(Candidate(5, 5, None))
  {
    NaturalsGreedy4Root(s);
    NaturalsGreedy4Quality(s);
    NaturalsGreedy4Digits(s);
    NaturalsGreedy4Slash(s);
    MatchGreedy(s, 4, true, 5, 5, 5, 5, Candidate(5, 5, None));
  }

  /** The chord `E` at 4: moved by the reference reading. */
  lemma NaturalsChord4(s: string)
    requires |s| == 13
    requires s[4] == 'E'
    ensures Transpose.ShiftedChord(Chord(s[4..5], s[5..5], None), 1) == "F"
  {
    assert s[4..5] == "E" && s[5..5] == "";
  }

  /** The plain text from position 5. */
  lemma NaturalsText5(s: string)
    requires |s| == 13
    requires s[5] == ' '
    ensures s[5..6] == " "
  {
  }

  /** The chord `F` at 6: the root, after a word boundary. */
  lemma NaturalsGreedy6Root(s: string)
    requires |s| == 13
    requires s[5] == ' ' && s[6] == 'F' && s[7] == ' '
    ensures Boundary(s, 6) && RootEnd(s, 6) == 7
  {
  }

  /** The chord `F` at 6: the quality word. */
  lemma NaturalsGreedy6Quality(s: string)
    requires |s| == 13
    requires s[5] == ' ' && s[6] == 'F' && s[7] == ' '
    ensures QualityEnd(s, 7, Qualities) == 7
  {
    QualityEndFirst(s, 7);
  }

  /** The chord `F` at 6: the digits and the alteration. */
  lemma NaturalsGreedy6Digits(s: string)
    requires |s| == 13
    requires s[5] == ' ' && s[6] == 'F' && s[7] == ' '
    ensures DigitRun(s, 7) == 0 && AlterationEnd(s, 7) == 7
  {
  }

  /** The chord `F` at 6: the slash group and the closing boundary. */
  lemma NaturalsGreedy6Slash(s: string)
    requires |s| == 13
    requires s[5] == ' ' && s[6] == 'F' && s[7] == ' '
    ensures TrySlash(s, 7, 7, true) == Some(Candidate(7, 7, None))
  {
  }

  /** The chord `F` at 6: the whole match. */
  lemma NaturalsMatch6(s: string)
    requires |s| == 13
    requires s[5] == ' ' && s[6] == 'F' && s[7] == ' '
    ensures MatchAt(s, 6, true) == Some(Candidate(7, 7, None))
  {
    NaturalsGreedy6Root(s);
    NaturalsGreedy6Quality(s);
    NaturalsGreedy6Digits(s);
    NaturalsGreedy6Slash(s);
    MatchGreedy(s, 6, true, 7, 7, 7, 7, Candidate(7, 7, None));
  }

  /** The chord `F` at 6: moved by the reference reading. */
  lemma NaturalsChord6(s: string)
    requires |s| == 13
    requires s[6] == 'F'
    ensures Transpose.ShiftedChord(Chord(s[6..7], s[7..7], None), 1) == "F#"
  {
    assert s[6..7] == "F" && s[7..7] == "";
  }

  /** The plain text from position 7. */
  lemma NaturalsText7(s: string)
    requires |s| == 13
    requires s[7] == ' '
    ensures s[7..8] == " "
  {
  }

  /** The chord `G` at 8: the root, after a word boundary. */
  lemma NaturalsGreedy8Root(s: string)
    requires |s| == 13
    requires s[7] == ' ' && s[8] == 'G' && s[9] == ' '
    ensures Boundary(s, 8) && RootEnd(s, 8) == 9
  {
  }

  /** The chord `G` at 8: the quality word. */
  lemma NaturalsGreedy8Quality(s: string)
    requires |s| == 13
    requires s[7] == ' ' && s[8] == 'G' && s[9] == ' '
    ensures QualityEnd(s, 9, Qualities) == 9
  {
    QualityEndFirst(s, 9);
  }

  /** The chord `G` at 8: the digits and the alteration. */
  lemma NaturalsGreedy8Digits(s: string)
    requires |s| == 13
    requires s[7] == ' ' && s[8] == 'G' && s[9] == ' '
    ensures DigitRun(s, 9) == 0 && AlterationEnd(s, 9) == 9
  {
  }

  /** The chord `G` at 8: the slash group and the closing boundary. */
  lemma NaturalsGreedy8Slash(s: string)
    requires |s| == 13
    requires s[7] == ' ' && s[8] == 'G' && s[9] == ' '
    ensures TrySlash(s, 9, 9, true) == Some(Candidate(9, 9, None))
  {
  }

  /** The chord `G` at 8: the whole match. */
  lemma NaturalsMatch8(s: string)
    requires |s| == 13
    requires s[7] == ' ' && s[8] == 'G' && s[9] == ' '
    ensures MatchAt(s, 8, true) == Some(Candidate(9, 9, None))
  {
    NaturalsGreedy8Root(s);
    NaturalsGreedy8Quality(s);
    NaturalsGreedy8Digits(s);
    NaturalsGreedy8Slash(s);
    MatchGreedy(s, 8, true, 9, 9, 9, 9, Candidate(9, 9, None));
  }

  /** The chord `G` at 8: moved by the reference reading. */
  lemma NaturalsChord8(s: string)
    requires |s| == 13
    requires s[8] == 'G'
    ensures Transpose.ShiftedChord(Chord(s[8..9], s[9..9], None), 1) == "G#"
  {
    assert s[8..9] == "G" && s[9..9] == "";
  }

  /** The plain text from position 9. */
  lemma NaturalsText9(s: string)
    requires |s| == 13
    requires s[9] == ' '
    ensures s[9..10] == " "
  {
  }

  /** The chord `A` at 10: the root, after a word boundary. */
  lemma NaturalsGreedy10Root(s: string)
    requires |s| == 13
    requires s[9] == ' ' && s[10] == 'A' && s[11] == ' '
    ensures Boundary(s, 10) && RootEnd(s, 10) == 11
  {
  }

  /** The chord `A` at 10: the quality word. */
  lemma NaturalsGreedy10Quality(s: string)
    requires |s| == 13
    requires s[9] == ' ' && s[10] == 'A' && s[11] == ' '
    ensures QualityEnd(s, 11, Qualities) == 11
  {
    QualityEndFirst(s, 11);
  }

  /** The chord `A` at 10: the digits and the alteration. */
  lemma NaturalsGreedy10Digits(s: string)
    requires |s| == 13
    requires s[9] == ' ' && s[10] == 'A' && s[11] == ' '
    ensures DigitRun(s, 11) == 0 && AlterationEnd(s, 11) == 11
  {
  }

  /** The chord `A` at 10: the slash group and the closing boundary. */
  lemma NaturalsGreedy10Slash(s: string)
    requires |s| == 13
    requires s[9] == ' ' && s[10] == 'A' && s[11] == ' '
    ensures TrySlash(s, 11, 11, true) == Some(Candidate(11, 11, None))
  {
  }

  /** The chord `A` at 10: the whole match. */
  lemma NaturalsMatch10(s: string)
    requires |s| == 13
    requires s[9] == ' ' && s[10] == 'A' && s[11] == ' '
    ensures MatchAt(s, 10, true) == Some(Candidate(11, 11, None))
  {
    NaturalsGreedy10Root(s);
    NaturalsGreedy10Quality(s);
    NaturalsGreedy10Digits(s);
    NaturalsGreedy10Slash(s);
    MatchGreedy(s, 10, true, 11, 11, 11, 11, Candidate(11, 11, None));
  }

  /** The chord `A` at 10: moved by the reference reading. */
  lemma NaturalsChord10(s: string)
    requires |s| == 13
    requires s[10] == 'A'
    ensures Transpose.ShiftedChord(Chord(s[10..11], s[11..11], None), 1) == "Bb"
  {
    assert s[10..11] == "A" && s[11..11] == "";
  }

  /** The plain text from position 11. */
  lemma NaturalsText11(s: string)
    requires |s| == 13
    requires s[11] == ' '
    ensures s[11..12] == " "
  {
  }

  /** The chord `B` at 12: the root, after a word boundary. */
  lemma NaturalsGreedy12Root(s: string)
    requires |s| == 13
    requires s[11] == ' ' && s[12] == 'B'
    ensures Boundary(s, 12) && RootEnd(s, 12) == 13
  {
  }

  /** The chord `B` at 12: the quality word. */
  lemma NaturalsGreedy12Quality(s: string)
    requires |s| == 13
    requires s[11] == ' ' && s[12] == 'B'
    ensures QualityEnd(s, 13, Qualities) == 13
  {
    QualityEndFirst(s, 13);
  }

  /** The chord `B` at 12: the digits and the alteration. */
  lemma NaturalsGreedy12Digits(s: string)
    requires |s| == 13
    requires s[11] == ' ' && s[12] == 'B'
    ensures DigitRun(s, 13) == 0 && AlterationEnd(s, 13) == 13
  {
  }

  /** The chord `B` at 12: the slash group and the closing boundary. */
  lemma NaturalsGreedy12Slash(s: string)
    requires |s| == 13
    requires s[11] == ' ' && s[12] == 'B'
    ensures TrySlash(s, 13, 13, true) == Some(Candidate(13, 13, None))
  {
  }

  /** The chord `B` at 12: the whole match. */
  lemma NaturalsMatch12(s: string)
    requires |s| == 13
    requires s[11] == ' ' && s[12] == 'B'
    ensures MatchAt(s, 12, true) == Some(Candidate(13, 13, None))
  {
    NaturalsGreedy12Root(s);
    NaturalsGreedy12Quality(s);
    NaturalsGreedy12Digits(s);
    NaturalsGreedy12Slash(s);
    MatchGreedy(s, 12, true, 13, 13, 13, 13, Candidate(13, 13, None));
  }

  /** The chord `B` at 12: moved by the reference reading. */
  lemma NaturalsChord12(s: string)
    requires |s| == 13
    requires s[12] == 'B'
    ensures Transpose.ShiftedChord(Chord(s[12..13], s[13..13], None), 1) == "C"
  {
    assert s[12..13] == "B" && s[13..13] == "";
  }

  /** The scan from position 0 to the end. */
  lemma NaturalsFrom0(s: string)
    requires |s| == 13
    requires s[0] == 'C' && s[1] == ' ' && s[2] == 'D' && s[3] == ' ' && s[4] == 'E' && s[5] == ' ' && s[6] == 'F' && s[7] == ' '
    requires s[8] == 'G' && s[9] == ' ' && s[10] == 'A' && s[11] == ' ' && s[12] == 'B'
    ensures Transpose.ShiftPieces(Tokenize(s, 0, true), 1) == "C#" + (" " + ("Eb" + (" " + ("F" + (" " + ("F#" + (" " + ("G#" + (" " + ("Bb" + (" " + "C")))))))))))
  {
    NaturalsMatch0(s);
    Transpose.ShiftScanChord(s, 0, true, Candidate(1, 1, None), Chord(s[0..1], s[1..1], None), 1, Transpose.ShiftPieces(Tokenize(s, 1, true), 1));
    NaturalsChord0(s);
    NaturalsFrom1(s);
  }

  /** The scan from position 1 to the end. */
  lemma NaturalsFrom1(s: string)
    requires |s| == 13
    requires s[0] == 'C' && s[1] == ' ' && s[2] == 'D' && s[3] == ' ' && s[4] == 'E' && s[5] == ' ' && s[6] == 'F' && s[7] == ' '
    requires s[8] == 'G' && s[9] == ' ' && s[10] == 'A' && s[11] == ' ' && s[12] == 'B'
    ensures Transpose.ShiftPieces(Tokenize(s, 1, true), 1) == " " + ("Eb" + (" " + ("F" + (" " + ("F#" + (" " + ("G#" + (" " + ("Bb" + (" " + "C"))))))))))
  {
    assert NoMatchFrom(s, 1, 2, true);
    Transpose.ShiftScanPlain(s, 1, 2, true, 1, Transpose.ShiftPieces(Tokenize(s, 2, true), 1));
    NaturalsText1(s);
    NaturalsFrom2(s);
  }

  /** The scan from position 2 to the end. */
  lemma NaturalsFrom2(s: string)
    requires |s| == 13
    requires s[1] == ' ' && s[2] == 'D' && s[3] == ' ' && s[4] == 'E' && s[5] == ' ' && s[6] == 'F' && s[7] == ' ' && s[8] == 'G'
    requires s[9] == ' ' && s[10] == 'A' && s[11] == ' ' && s[12] == 'B'
    ensures Transpose.ShiftPieces(Tokenize(s, 2, true), 1) == "Eb" + (" " + ("F" + (" " + ("F#" + (" " + ("G#" + (" " + ("Bb" + (" " + "C")))))))))
  {
    NaturalsMatch2(s);
    Transpose.ShiftScanChord(s, 2, true, Candidate(3, 3, None), Chord(s[2..3], s[3..3], None), 1, Transpose.ShiftPieces(Tokenize(s, 3, true), 1));
    NaturalsChord2(s);
    NaturalsFrom3(s);
  }

  /** The scan from position 3 to the end. */
  lemma NaturalsFrom3(s: string)
    requires |s| == 13
    requires s[2] == 'D' && s[3] == ' ' && s[4] == 'E' && s[5] == ' ' && s[6] == 'F' && s[7] == ' ' && s[8] == 'G' && s[9] == ' '
    requires s[10] == 'A' && s[11] == ' ' && s[12] == 'B'
    ensures Transpose.ShiftPieces(Tokenize(s, 3, true), 1) == " " + ("F" + (" " + ("F#" + (" " + ("G#" + (" " + ("Bb" + (" " + "C"))))))))
  {
    assert NoMatchFrom(s, 3, 4, true);
    Transpose.ShiftScanPlain(s, 3, 4, true, 1, Transpose.ShiftPieces(Tokenize(s, 4, true), 1));
    NaturalsText3(s);
    NaturalsFrom4(s);
  }

  /** The scan from position 4 to the end. */
  lemma NaturalsFrom4(s: string)
    requires |s| == 13
    requires s[3] == ' ' && s[4] == 'E' && s[5] == ' ' && s[6] == 'F' && s[7] == ' ' && s[8] == 'G' && s[9] == ' ' && s[10] == 'A'
    requires s[11] == ' ' && s[12] == 'B'
    ensures Transpose.ShiftPieces(Tokenize(s, 4, true), 1) == "F" + (" " + ("F#" + (" " + ("G#" + (" " + ("Bb" + (" " + "C")))))))
  {
    NaturalsMatch4(s);
    Transpose.ShiftScanChord(s, 4, true, Candidate(5, 5, None), Chord(s[4..5], s[5..5], None), 1, Transpose.ShiftPieces(Tokenize(s, 5, true), 1));
    NaturalsChord4(s);
    NaturalsFrom5(s);
  }

  /** The scan from position 5 to the end. */
  lemma NaturalsFrom5(s: string)
    requires |s| == 13
    requires s[4] == 'E' && s[5] == ' ' && s[6] == 'F' && s[7] == ' ' && s[8] == 'G' && s[9] == ' ' && s[10] == 'A' && s[11] == ' '
    requires s[12] == 'B'
    ensures Transpose.ShiftPieces(Tokenize(s, 5, true), 1) == " " + ("F#" + (" " + ("G#" + (" " + ("Bb" + (" " + "C"))))))
  {
    assert NoMatchFrom(s, 5, 6, true);
    Transpose.ShiftScanPlain(s, 5, 6, true, 1, Transpose.ShiftPieces(Tokenize(s, 6, true), 1));
    NaturalsText5(s);
    NaturalsFrom6(s);
  }

  /** The scan from position 6 to the end. */
  lemma NaturalsFrom6(s: string)
    requires |s| == 13
    requires s[5] == ' ' && s[6] == 'F' && s[7] == ' ' && s[8] == 'G' && s[9] == ' ' && s[10] == 'A' && s[11] == ' ' && s[12] == 'B'
    ensures Transpose.ShiftPieces(Tokenize(s, 6, true), 1) == "F#" + (" " + ("G#" + (" " + ("Bb" + (" " + "C")))))
  {
    NaturalsMatch6(s);
    Transpose.ShiftScanChord(s, 6, true, Candidate(7, 7, None), Chord(s[6..7], s[7..7], None), 1, Transpose.ShiftPieces(Tokenize(s, 7, true), 1));
    NaturalsChord6(s);
    NaturalsFrom7(s);
  }

  /** The scan from position 7 to the end. */
  lemma NaturalsFrom7(s: string)
    requires |s| == 13
    requires s[6] == 'F' && s[7] == ' ' && s[8] == 'G' && s[9] == ' ' && s[10] == 'A' && s[11] == ' ' && s[12] == 'B'
    ensures Transpose.ShiftPieces(Tokenize(s, 7, true), 1) == " " + ("G#" + (" " + ("Bb" + (" " + "C"))))
  {
    assert NoMatchFrom(s, 7, 8, true);
    Transpose.ShiftScanPlain(s, 7, 8, true, 1, Transpose.ShiftPieces(Tokenize(s, 8, true), 1));
    NaturalsText7(s);
    NaturalsFrom8(s);
  }

  /** The scan from position 8 to the end. */
  lemma NaturalsFrom8(s: string)
    requires |s| == 13
    requires s[7] == ' ' && s[8] == 'G' && s[9] == ' ' && s[10] == 'A' && s[11] == ' ' && s[12] == 'B'
    ensures Transpose.ShiftPieces(Tokenize(s, 8, true), 1) == "G#" + (" " + ("Bb" + (" " + "C")))
  {
    NaturalsMatch8(s);
    Transpose.ShiftScanChord(s, 8, true, Candidate(9, 9, None), Chord(s[8..9], s[9..9], None), 1, Transpose.ShiftPieces(Tokenize(s, 9, true), 1));
    NaturalsChord8(s);
    NaturalsFrom9(s);
  }

  /** The scan from position 9 to the end. */
  lemma NaturalsFrom9(s: string)
    requires |s| == 13
    requires s[8] == 'G' && s[9] == ' ' && s[10] == 'A' && s[11] == ' ' && s[12] == 'B'
    ensures Transpose.ShiftPieces(Tokenize(s, 9, true), 1) == " " + ("Bb" + (" " + "C"))
  {
    assert NoMatchFrom(s, 9, 10, true);
    Transpose.ShiftScanPlain(s, 9, 10, true, 1, Transpose.ShiftPieces(Tokenize(s, 10, true), 1));
    NaturalsText9(s);
    NaturalsFrom10(s);
  }

  /** The scan from position 10 to the end. */
  lemma NaturalsFrom10(s: string)
    requires |s| == 13
    requires s[9] == ' ' && s[10] == 'A' && s[11] == ' ' && s[12] == 'B'
    ensures Transpose.ShiftPieces(Tokenize(s, 10, true), 1) == "Bb" + (" " + "C")
  {
    NaturalsMatch10(s);
    Transpose.ShiftScanChord(s, 10, true, Candidate(11, 11, None), Chord(s[10..11], s[11..11], None), 1, Transpose.ShiftPieces(Tokenize(s, 11, true), 1));
    NaturalsChord10(s);
    NaturalsFrom11(s);
  }

  /** The scan from position 11 to the end. */
  lemma NaturalsFrom11(s: string)
    requires |s| == 13
    requires s[10] == 'A' && s[11] == ' ' && s[12] == 'B'
    ensures Transpose.ShiftPieces(Tokenize(s, 11, true), 1) == " " + "C"
  {
    assert NoMatchFrom(s, 11, 12, true);
    Transpose.ShiftScanPlain(s, 11, 12, true, 1, Transpose.ShiftPieces(Tokenize(s, 12, true), 1));
    NaturalsText11(s);
    NaturalsFrom12(s);
  }

  /** The scan from position 12 to the end. */
  lemma NaturalsFrom12(s: string)
    requires |s| == 13
    requires s[11] == ' ' && s[12] == 'B'
    ensures Transpose.ShiftPieces(Tokenize(s, 12, true), 1) == "C"
  {
    NaturalsMatch12(s);
    Transpose.ShiftScanChord(s, 12, true, Candidate(13, 13, None), Chord(s[12..13], s[13..13], None), 1, Transpose.ShiftPieces(Tokenize(s, 13, true), 1));
    NaturalsChord12(s);
    assert Tokenize(s, 13, true) == [];
  }

  /** Both keys are valid, and the offset between them. */
  lemma NaturalsKeys()
    ensures Transpose.IsValidKey("C") && Transpose.IsValidKey("Db") && Transpose.Offset("C", "Db", 0) == 1
  {
  }

  // ----- the Bm7 case from C to D -----

  /** The chord `Bm7` at 0: the root, after a word boundary. */
  lemma SeventhsGreedy0Root(s: string)
    requires |s| == 19
    requires s[0] == 'B' && s[1] == 'm' && s[2] == '7' && s[3] == ' '
    ensures Boundary(s, 0) && RootEnd(s, 0) == 1
  {
  }

  /** The chord `Bm7` at 0: the quality word. */
  lemma SeventhsGreedy0Quality(s: string)
    requires |s| == 19
    requires s[0] == 'B' && s[1] == 'm' && s[2] == '7' && s[3] == ' '
    ensures QualityEnd(s, 1, Qualities) == 2
  {
    QualityEndFirst(s, 1);
  }

  /** The chord `Bm7` at 0: the digits and the alteration. */
  lemma SeventhsGreedy0Digits(s: string)
    requires |s| == 19
    requires s[0] == 'B' && s[1] == 'm' && s[2] == '7' && s[3] == ' '
    ensures DigitRun(s, 2) == 1 && AlterationEnd(s, 3) == 3
  {
  }

  /** The chord `Bm7` at 0: the slash group and the closing boundary. */
  lemma SeventhsGreedy0Slash(s: string)
    requires |s| == 19
    requires s[0] == 'B' && s[1] == 'm' && s[2] == '7' && s[3] == ' '
    ensures TrySlash(s, 1, 3, true) == Some(Candidate(1, 3, None))
  {
  }

  /** The chord `Bm7` at 0: the whole match. */
  lemma SeventhsMatch0(s: string)
    requires |s| == 19
    requires s[0] == 'B' && s[1] == 'm' && s[2] == '7' && s[3] == ' '
    ensures MatchAt(s, 0, true) == Some(Candidate(1, 3, None))
  {
    SeventhsGreedy0Root(s);
    SeventhsGreedy0Quality(s);
    SeventhsGreedy0Digits(s);
    SeventhsGreedy0Slash(s);
    MatchGreedy(s, 0, true, 1, 2, 3, 3, Candidate(1, 3, None));
  }

  /** The chord `Bm7` at 0: moved by the reference reading. */
  lemma SeventhsChord0(s: string)
    requires |s| == 19
    requires s[0] == 'B' && s[1] == 'm' && s[2] == '7'
    ensures Transpose.ShiftedChord(Chord(s[0..1], s[1..3], None), 2) == "C#m7"
  {
    assert s[0..1] == "B" && s[1..3] == "m7";
  }

  /** The plain text from position 3. */
  lemma SeventhsText3(s: string)
    requires |s| == 19
    requires s[3] == ' '
    ensures s[3..4] == " "
  {
  }

  /** The chord `Cmaj7` at 4: the root, after a word boundary. */
  lemma SeventhsGreedy4Root(s: string)
    requires |s| == 19
    requires s[3] == ' ' && s[4] == 'C' && s[5] == 'm' && s[6] == 'a' && s[7] == 'j' && s[8] == '7' && s[9] == ' '
    ensures Boundary(s, 4) && RootEnd(s, 4) == 5
  {
  }

  /** The chord `Cmaj7` at 4: the quality word. */
  lemma SeventhsGreedy4Quality(s: string)
    requires |s| == 19
    requires s[3] == ' ' && s[4] == 'C' && s[5] == 'm' && s[6] == 'a' && s[7] == 'j' && s[8] == '7' && s[9] == ' '
    ensures QualityEnd(s, 5, Qualities) == 8
  {
    QualityEndFirst(s, 5);
  }

  /** The chord `Cmaj7` at 4: the digits and the alteration. */
  lemma SeventhsGreedy4Digits(s: string)
    requires |s| == 19
    requires s[3] == ' ' && s[4] == 'C' && s[5] == 'm' && s[6] == 'a' && s[7] == 'j' && s[8] == '7' && s[9] == ' '
    ensures DigitRun(s, 8) == 1 && AlterationEnd(s, 9) == 9
  {
  }

  /** The chord `Cmaj7` at 4: the slash group and the closing boundary. */
  lemma SeventhsGreedy4Slash(s: string)
    requires |s| == 19
    requires s[3] == ' ' && s[4] == 'C' && s[5] == 'm' && s[6] == 'a' && s[7] == 'j' && s[8] == '7' && s[9] == ' '
    ensures TrySlash(s, 5, 9, true) == Some(Candidate(5, 9, None))
  {
  }

  /** The chord `Cmaj7` at 4: the whole match. */
  lemma SeventhsMatch4(s: string)
    requires |s| == 19
    requires s[3] == ' ' && s[4] == 'C' && s[5] == 'm' && s[6] == 'a' && s[7] == 'j' && s[8] == '7' && s[9] == ' '
    ensures MatchAt(s, 4, true) == Some(Candidate(5, 9, None))
  {
    SeventhsGreedy4Root(s);
    SeventhsGreedy4Quality(s);
    SeventhsGreedy4Digits(s);
    SeventhsGreedy4Slash(s);
    MatchGreedy(s, 4, true, 5, 8, 9, 9, Candidate(5, 9, None));
  }

  /** The chord `Cmaj7` at 4: moved by the reference reading. */
  lemma SeventhsChord4(s: string)
    requires |s| == 19
    requires s[4] == 'C' && s[5] == 'm' && s[6] == 'a' && s[7] == 'j' && s[8] == '7'
    ensures Transpose.ShiftedChord(Chord(s[4..5], s[5..9], None), 2) == "Dmaj7"
  {
    assert s[4..5] == "C" && s[5..9] == "maj7";
  }

  /** The plain text from position 9. */
  lemma SeventhsText9(s: string)
    requires |s| == 19
    requires s[9] == ' '
    ensures s[9..10] == " "
  {
  }

  /** The chord `Dsus4` at 10: the root, after a word boundary. */
  lemma SeventhsGreedy10Root(s: string)
    requires |s| == 19
    requires s[9] == ' ' && s[10] == 'D' && s[11] == 's' && s[12] == 'u' && s[13] == 's' && s[14] == '4' && s[15] == ' '
    ensures Boundary(s, 10) && RootEnd(s, 10) == 11
  {
  }

  /** The chord `Dsus4` at 10: the quality word. */
  lemma SeventhsGreedy10Quality(s: string)
    requires |s| == 19
    requires s[9] == ' ' && s[10] == 'D' && s[11] == 's' && s[12] == 'u' && s[13] == 's' && s[14] == '4' && s[15] == ' '
    ensures QualityEnd(s, 11, Qualities) == 14
  {
    QualityEndFirst(s, 11);
  }

  /** The chord `Dsus4` at 10: the digits and the alteration. */
  lemma SeventhsGreedy10Digits(s: string)
    requires |s| == 19
    requires s[9] == ' ' && s[10] == 'D' && s[11] == 's' && s[12] == 'u' && s[13] == 's' && s[14] == '4' && s[15] == ' '
    ensures DigitRun(s, 14) == 1 && AlterationEnd(s, 15) == 15
  {
  }

  /** The chord `Dsus4` at 10: the slash group and the closing boundary. */
  lemma SeventhsGreedy10Slash(s: string)
    requires |s| == 19
    requires s[9] == ' ' && s[10] == 'D' && s[11] == 's' && s[12] == 'u' && s[13] == 's' && s[14] == '4' && s[15] == ' '
    ensures TrySlash(s, 11, 15, true) == Some(Candidate(11, 15, None))
  {
  }

  /** The chord `Dsus4` at 10: the whole match. */
  lemma SeventhsMatch10(s: string)
    requires |s| == 19
    requires s[9] == ' ' && s[10] == 'D' && s[11] == 's' && s[12] == 'u' && s[13] == 's' && s[14] == '4' && s[15] == ' '
    ensures MatchAt(s, 10, true) == Some(Candidate(11, 15, None))
  {
    SeventhsGreedy10Root(s);
    SeventhsGreedy10Quality(s);
    SeventhsGreedy10Digits(s);
    SeventhsGreedy10Slash(s);
    MatchGreedy(s, 10, true, 11, 14, 15, 15, Candidate(11, 15, None));
  }

  /** The chord `Dsus4` at 10: moved by the reference reading. */
  lemma SeventhsChord10(s: string)
    requires |s| == 19
    requires s[10] == 'D' && s[11] == 's' && s[12] == 'u' && s[13] == 's' && s[14] == '4'
    ensures Transpose.ShiftedChord(Chord(s[10..11], s[11..15], None), 2) == "Esus4"
  {
    assert s[10..11] == "D" && s[11..15] == "sus4";
  }

  /** The plain text from position 15. */
  lemma SeventhsText15(s: string)
    requires |s| == 19
    requires s[15] == ' '
    ensures s[15..16] == " "
  {
  }

  /** The chord `Em7` at 16: the root, after a word boundary. */
  lemma SeventhsGreedy16Root(s: string)
    requires |s| == 19
    requires s[15] == ' ' && s[16] == 'E' && s[17] == 'm' && s[18] == '7'
    ensures Boundary(s, 16) && RootEnd(s, 16) == 17
  {
  }

  /** The chord `Em7` at 16: the quality word. */
  lemma SeventhsGreedy16Quality(s: string)
    requires |s| == 19
    requires s[15] == ' ' && s[16] == 'E' && s[17] == 'm' && s[18] == '7'
    ensures QualityEnd(s, 17, Qualities) == 18
  {
    QualityEndFirst(s, 17);
  }

  /** The chord `Em7` at 16: the digits and the alteration. */
  lemma SeventhsGreedy16Digits(s: string)
    requires |s| == 19
    requires s[15] == ' ' && s[16] == 'E' && s[17] == 'm' && s[18] == '7'
    ensures DigitRun(s, 18) == 1 && AlterationEnd(s, 19) == 19
  {
  }

  /** The chord `Em7` at 16: the slash group and the closing boundary. */
  lemma SeventhsGreedy16Slash(s: string)
    requires |s| == 19
    requires s[15] == ' ' && s[16] == 'E' && s[17] == 'm' && s[18] == '7'
    ensures TrySlash(s, 17, 19, true) == Some(Candidate(17, 19, None))
  {
  }

  /** The chord `Em7` at 16: the whole match. */
  lemma SeventhsMatch16(s: string)
    requires |s| == 19
    requires s[15] == ' ' && s[16] == 'E' && s[17] == 'm' && s[18] == '7'
    ensures MatchAt(s, 16, true) == Some(Candidate(17, 19, None))
  {
    SeventhsGreedy16Root(s);
    SeventhsGreedy16Quality(s);
    SeventhsGreedy16Digits(s);
    SeventhsGreedy16Slash(s);
    MatchGreedy(s, 16, true, 17, 18, 19, 19, Candidate(17, 19, None));
  }

  /** The chord `Em7` at 16: moved by the reference reading. */
  lemma SeventhsChord16(s: string)
    requires |s| == 19
    requires s[16] == 'E' && s[17] == 'm' && s[18] == '7'
    ensures Transpose.ShiftedChord(Chord(s[16..17], s[17..19], None), 2) == "F#m7"
  {
    assert s[16..17] == "E" && s[17..19] == "m7";
  }

  /** The scan from position 0 to the end. */
  lemma SeventhsFrom0(s: string)
    requires |s| == 19
    requires s[0] == 'B' && s[1] == 'm' && s[2] == '7' && s[3] == ' ' && s[4] == 'C' && s[5] == 'm' && s[6] == 'a' && s[7] == 'j'
    requires s[8] == '7' && s[9] == ' ' && s[10] == 'D' && s[11] == 's' && s[12] == 'u' && s[13] == 's' && s[14] == '4' && s[15] == ' '
    requires s[16] == 'E' && s[17] == 'm' && s[18] == '7'
    ensures Transpose.ShiftPieces(Tokenize(s, 0, true), 2) == "C#m7" + (" " + ("Dmaj7" + (" " + ("Esus4" + (" " + "F#m7")))))
  {
    SeventhsMatch0(s);
    Transpose.ShiftScanChord(s, 0, true, Candidate(1, 3, None), Chord(s[0..1], s[1..3], None), 2, Transpose.ShiftPieces(Tokenize(s, 3, true), 2));
    SeventhsChord0(s);
    SeventhsFrom3(s);
  }

  /** The scan from position 3 to the end. */
  lemma SeventhsFrom3(s: string)
    requires |s| == 19
    requires s[2] == '7' && s[3] == ' ' && s[4] == 'C' && s[5] == 'm' && s[6] == 'a' && s[7] == 'j' && s[8] == '7' && s[9] == ' '
    requires s[10] == 'D' && s[11] == 's' && s[12] == 'u' && s[13] == 's' && s[14] == '4' && s[15] == ' ' && s[16] == 'E' && s[17] == 'm'
    requires s[18] == '7'
    ensures Transpose.ShiftPieces(Tokenize(s, 3, true), 2) == " " + ("Dmaj7" + (" " + ("Esus4" + (" " + "F#m7"))))
  {
    assert NoMatchFrom(s, 3, 4, true);
    Transpose.ShiftScanPlain(s, 3, 4, true, 2, Transpose.ShiftPieces(Tokenize(s, 4, true), 2));
    SeventhsText3(s);
    SeventhsFrom4(s);
  }

  /** The scan from position 4 to the end. */
  lemma SeventhsFrom4(s: string)
    requires |s| == 19
    requires s[3] == ' ' && s[4] == 'C' && s[5] == 'm' && s[6] == 'a' && s[7] == 'j' && s[8] == '7' && s[9] == ' ' && s[10] == 'D'
    requires s[11] == 's' && s[12] == 'u' && s[13] == 's' && s[14] == '4' && s[15] == ' ' && s[16] == 'E' && s[17] == 'm' && s[18] == '7'
    ensures Transpose.ShiftPieces(Tokenize(s, 4, true), 2) == "Dmaj7" + (" " + ("Esus4" + (" " + "F#m7")))
  {
    SeventhsMatch4(s);
    Transpose.ShiftScanChord(s, 4, true, Candidate(5, 9, None), Chord(s[4..5], s[5..9], None), 2, Transpose.ShiftPieces(Tokenize(s, 9, true), 2));
    SeventhsChord4(s);
    SeventhsFrom9(s);
  }

  /** The scan from position 9 to the end. */
  lemma SeventhsFrom9(s: string)
    requires |s| == 19
    requires s[8] == '7' && s[9] == ' ' && s[10] == 'D' && s[11] == 's' && s[12] == 'u' && s[13] == 's' && s[14] == '4' && s[15] == ' '
    requires s[16] == 'E' && s[17] == 'm' && s[18] == '7'
    ensures Transpose.ShiftPieces(Tokenize(s, 9, true), 2) == " " + ("Esus4" + (" " + "F#m7"))
  {
    assert NoMatchFrom(s, 9, 10, true);
    Transpose.ShiftScanPlain(s, 9, 10, true, 2, Transpose.ShiftPieces(Tokenize(s, 10, true), 2));
    SeventhsText9(s);
    SeventhsFrom10(s);
  }

  /** The scan from position 10 to the end. */
  lemma SeventhsFrom10(s: string)
    requires |s| == 19
    requires s[9] == ' ' && s[10] == 'D' && s[11] == 's' && s[12] == 'u' && s[13] == 's' && s[14] == '4' && s[15] == ' ' && s[16] == 'E'
    requires s[17] == 'm' && s[18] == '7'
    ensures Transpose.ShiftPieces(Tokenize(s, 10, true), 2) == "Esus4" + (" " + "F#m7")
  {
    SeventhsMatch10(s);
    Transpose.ShiftScanChord(s, 10, true, Candidate(11, 15, None), Chord(s[10..11], s[11..15], None), 2, Transpose.ShiftPieces(Tokenize(s, 15, true), 2));
    SeventhsChord10(s);
    SeventhsFrom15(s);
  }

  /** The scan from position 15 to the end. */
  lemma SeventhsFrom15(s: string)
    requires |s| == 19
    requires s[14] == '4' && s[15] == ' ' && s[16] == 'E' && s[17] == 'm' && s[18] == '7'
    ensures Transpose.ShiftPieces(Tokenize(s, 15, true), 2) == " " + "F#m7"
  {
    assert NoMatchFrom(s, 15, 16, true);
    Transpose.ShiftScanPlain(s, 15, 16, true, 2, Transpose.ShiftPieces(Tokenize(s, 16, true), 2));
    SeventhsText15(s);
    SeventhsFrom16(s);
  }

  /** The scan from position 16 to the end. */
  lemma SeventhsFrom16(s: string)
    requires |s| == 19
    requires s[15] == ' ' && s[16] == 'E' && s[17] == 'm' && s[18] == '7'
    ensures Transpose.ShiftPieces(Tokenize(s, 16, true), 2) == "F#m7"
  {
    SeventhsMatch16(s);
    Transpose.ShiftScanChord(s, 16, true, Candidate(17, 19, None), Chord(s[16..17], s[17..19], None), 2, Transpose.ShiftPieces(Tokenize(s, 19, true), 2));
    SeventhsChord16(s);
    assert Tokenize(s, 19, true) == [];
  }

  /** Both keys are valid, and the offset between them. */
  lemma SeventhsKeys()
    ensures Transpose.IsValidKey("C") && Transpose.IsValidKey("D") && Transpose.Offset("C", "D", 0) == 2
  {
  }

  // ----- the slash chords from C to G -----

  /** The chord `C/E` at 0: the root, after a word boundary. */
  lemma SlashesGreedy0Root(s: string)
    requires |s| == 13
    requires s[0] == 'C' && s[1] == '/' && s[2] == 'E' && s[3] == ' '
    ensures Boundary(s, 0) && RootEnd(s, 0) == 1
  {
  }

  /** The chord `C/E` at 0: the quality word. */
  lemma SlashesGreedy0Quality(s: string)
    requires |s| == 13
    requires s[0] == 'C' && s[1] == '/' && s[2] == 'E' && s[3] == ' '
    ensures QualityEnd(s, 1, Qualities) == 1
  {
    QualityEndFirst(s, 1);
  }

  /** The chord `C/E` at 0: the digits and the alteration. */
  lemma SlashesGreedy0Digits(s: string)
    requires |s| == 13
    requires s[0] == 'C' && s[1] == '/' && s[2] == 'E' && s[3] == ' '
    ensures DigitRun(s, 1) == 0 && AlterationEnd(s, 1) == 1
  {
  }

  /** The chord `C/E` at 0: the slash group and the closing boundary. */
  lemma SlashesGreedy0Slash(s: string)
    requires |s| == 13
    requires s[0] == 'C' && s[1] == '/' && s[2] == 'E' && s[3] == ' '
    ensures TrySlash(s, 1, 1, true) == Some(Candidate(1, 3, Some(2)))
  {
  }

  /** The chord `C/E` at 0: the whole match. */
  lemma SlashesMatch0(s: string)
    requires |s| == 13
    requires s[0] == 'C' && s[1] == '/' && s[2] == 'E' && s[3] == ' '
    ensures MatchAt(s, 0, true) == Some(Candidate(1, 3, Some(2)))
  {
    SlashesGreedy0Root(s);
    SlashesGreedy0Quality(s);
    SlashesGreedy0Digits(s);
    SlashesGreedy0Slash(s);
    MatchGreedy(s, 0, true, 1, 1, 1, 1, Candidate(1, 3, Some(2)));
  }

  /** The chord `C/E` at 0: moved by the reference reading. */
  lemma SlashesChord0(s: string)
    requires |s| == 13
    requires s[0] == 'C' && s[1] == '/' && s[2] == 'E'
    ensures Transpose.ShiftedChord(Chord(s[0..1], s[1..3], Some(s[2..3])), 7) == "G/B"
  {
    assert s[0..1] == "C" && s[1..3] == "/E" && s[2..3] == "E";
  }

  /** The plain text from position 3. */
  lemma SlashesText3(s: string)
    requires |s| == 13
    requires s[3] == ' '
    ensures s[3..4] == " "
  {
  }

  /** The chord `Am/C` at 4: the root, after a word boundary. */
  lemma SlashesGreedy4Root(s: string)
    requires |s| == 13
    requires s[3] == ' ' && s[4] == 'A' && s[5] == 'm' && s[6] == '/' && s[7] == 'C' && s[8] == ' '
    ensures Boundary(s, 4) && RootEnd(s, 4) == 5
  {
  }

  /** The chord `Am/C` at 4: the quality word. */
  lemma SlashesGreedy4Quality(s: string)
    requires |s| == 13
    requires s[3] == ' ' && s[4] == 'A' && s[5] == 'm' && s[6] == '/' && s[7] == 'C' && s[8] == ' '
    ensures QualityEnd(s, 5, Qualities) == 6
  {
    QualityEndFirst(s, 5);
  }

  /** The chord `Am/C` at 4: the digits and the alteration. */
  lemma SlashesGreedy4Digits(s: string)
    requires |s| == 13
    requires s[3] == ' ' && s[4] == 'A' && s[5] == 'm' && s[6] == '/' && s[7] == 'C' && s[8] == ' '
    ensures DigitRun(s, 6) == 0 && AlterationEnd(s, 6) == 6
  {
  }

  /** The chord `Am/C` at 4: the slash group and the closing boundary. */
  lemma SlashesGreedy4Slash(s: string)
    requires |s| == 13
    requires s[3] == ' ' && s[4] == 'A' && s[5] == 'm' && s[6] == '/' && s[7] == 'C' && s[8] == ' '
    ensures TrySlash(s, 5, 6, true) == Some(Candidate(5, 8, Some(7)))
  {
  }

  /** The chord `Am/C` at 4: the whole match. */
  lemma SlashesMatch4(s: string)
    requires |s| == 13
    requires s[3] == ' ' && s[4] == 'A' && s[5] == 'm' && s[6] == '/' && s[7] == 'C' && s[8] == ' '
    ensures MatchAt(s, 4, true) == Some(Candidate(5, 8, Some(7)))
  {
    SlashesGreedy4Root(s);
    SlashesGreedy4Quality(s);
    SlashesGreedy4Digits(s);
    SlashesGreedy4Slash(s);
    MatchGreedy(s, 4, true, 5, 6, 6, 6, Candidate(5, 8, Some(7)));
  }

  /** The chord `Am/C` at 4: moved by the reference reading. */
  lemma SlashesChord4(s: string)
    requires |s| == 13
    requires s[4] == 'A' && s[5] == 'm' && s[6] == '/' && s[7] == 'C'
    ensures Transpose.ShiftedChord(Chord(s[4..5], s[5..8], Some(s[7..8])), 7) == "Em/G"
  {
    assert s[4..5] == "A" && s[5..8] == "m/C" && s[7..8] == "C";
  }

  /** The plain text from position 8. */
  lemma SlashesText8(s: string)
    requires |s| == 13
    requires s[8] == ' '
    ensures s[8..9] == " "
  {
  }

  /** The chord `D/F` at 9: the root, after a word boundary. */
  lemma SlashesGreedy9Root(s: string)
    requires |s| == 13
    requires s[8] == ' ' && s[9] == 'D' && s[10] == '/' && s[11] == 'F' && s[12] == '#'
    ensures Boundary(s, 9) && RootEnd(s, 9) == 10
  {
  }

  /** The chord `D/F` at 9: the quality word. */
  lemma SlashesGreedy9Quality(s: string)
    requires |s| == 13
    requires s[8] == ' ' && s[9] == 'D' && s[10] == '/' && s[11] == 'F' && s[12] == '#'
    ensures QualityEnd(s, 10, Qualities) == 10
  {
    QualityEndFirst(s, 10);
  }

  /** The chord `D/F` at 9: the digits and the alteration. */
  lemma SlashesGreedy9Digits(s: string)
    requires |s| == 13
    requires s[8] == ' ' && s[9] == 'D' && s[10] == '/' && s[11] == 'F' && s[12] == '#'
    ensures DigitRun(s, 10) == 0 && AlterationEnd(s, 10) == 10
  {
  }

  /** The chord `D/F` at 9: the slash group and the closing boundary. */
  lemma SlashesGreedy9Slash(s: string)
    requires |s| == 13
    requires s[8] == ' ' && s[9] == 'D' && s[10] == '/' && s[11] == 'F' && s[12] == '#'
    ensures TrySlash(s, 10, 10, true) == Some(Candidate(10, 12, Some(11)))
  {
  }

  /** The chord `D/F` at 9: the whole match. */
  lemma SlashesMatch9(s: string)
    requires |s| == 13
    requires s[8] == ' ' && s[9] == 'D' && s[10] == '/' && s[11] == 'F' && s[12] == '#'
    ensures MatchAt(s, 9, true) == Some(Candidate(10, 12, Some(11)))
  {
    SlashesGreedy9Root(s);
    SlashesGreedy9Quality(s);
    SlashesGreedy9Digits(s);
    SlashesGreedy9Slash(s);
    MatchGreedy(s, 9, true, 10, 10, 10, 10, Candidate(10, 12, Some(11)));
  }

  /** The chord `D/F` at 9: moved by the reference reading. */
  lemma SlashesChord9(s: string)
    requires |s| == 13
    requires s[9] == 'D' && s[10] == '/' && s[11] == 'F'
    ensures Transpose.ShiftedChord(Chord(s[9..10], s[10..12], Some(s[11..12])), 7) == "A/C"
  {
    assert s[9..10] == "D" && s[10..12] == "/F" && s[11..12] == "F";
  }

  /** The plain text from position 12. */
  lemma SlashesText12(s: string)
    requires |s| == 13
    requires s[12] == '#'
    ensures s[12..13] == "#"
  {
  }

  /** The scan from position 0 to the end. */
  lemma SlashesFrom0(s: string)
    requires |s| == 13
    requires s[0] == 'C' && s[1] == '/' && s[2] == 'E' && s[3] == ' ' && s[4] == 'A' && s[5] == 'm' && s[6] == '/' && s[7] == 'C'
    requires s[8] == ' ' && s[9] == 'D' && s[10] == '/' && s[11] == 'F' && s[12] == '#'
    ensures Transpose.ShiftPieces(Tokenize(s, 0, true), 7) == "G/B" + (" " + ("Em/G" + (" " + ("A/C" + "#"))))
  {
    SlashesMatch0(s);
    Transpose.ShiftScanChord(s, 0, true, Candidate(1, 3, Some(2)), Chord(s[0..1], s[1..3], Some(s[2..3])), 7, Transpose.ShiftPieces(Tokenize(s, 3, true), 7));
    SlashesChord0(s);
    SlashesFrom3(s);
  }

  /** The scan from position 3 to the end. */
  lemma SlashesFrom3(s: string)
    requires |s| == 13
    requires s[2] == 'E' && s[3] == ' ' && s[4] == 'A' && s[5] == 'm' && s[6] == '/' && s[7] == 'C' && s[8] == ' ' && s[9] == 'D'
    requires s[10] == '/' && s[11] == 'F' && s[12] == '#'
    ensures Transpose.ShiftPieces(Tokenize(s, 3, true), 7) == " " + ("Em/G" + (" " + ("A/C" + "#")))
  {
    assert NoMatchFrom(s, 3, 4, true);
    Transpose.ShiftScanPlain(s, 3, 4, true, 7, Transpose.ShiftPieces(Tokenize(s, 4, true), 7));
    SlashesText3(s);
    SlashesFrom4(s);
  }

  /** The scan from position 4 to the end. */
  lemma SlashesFrom4(s: string)
    requires |s| == 13
    requires s[3] == ' ' && s[4] == 'A' && s[5] == 'm' && s[6] == '/' && s[7] == 'C' && s[8] == ' ' && s[9] == 'D' && s[10] == '/'
    requires s[11] == 'F' && s[12] == '#'
    ensures Transpose.ShiftPieces(Tokenize(s, 4, true), 7) == "Em/G" + (" " + ("A/C" + "#"))
  {
    SlashesMatch4(s);
    Transpose.ShiftScanChord(s, 4, true, Candidate(5, 8, Some(7)), Chord(s[4..5], s[5..8], Some(s[7..8])), 7, Transpose.ShiftPieces(Tokenize(s, 8, true), 7));
    SlashesChord4(s);
    SlashesFrom8(s);
  }

  /** The scan from position 8 to the end. */
  lemma SlashesFrom8(s: string)
    requires |s| == 13
    requires s[7] == 'C' && s[8] == ' ' && s[9] == 'D' && s[10] == '/' && s[11] == 'F' && s[12] == '#'
    ensures Transpose.ShiftPieces(Tokenize(s, 8, true), 7) == " " + ("A/C" + "#")
  {
    assert NoMatchFrom(s, 8, 9, true);
    Transpose.ShiftScanPlain(s, 8, 9, true, 7, Transpose.ShiftPieces(Tokenize(s, 9, true), 7));
    SlashesText8(s);
    SlashesFrom9(s);
  }

  /** The scan from position 9 to the end. */
  lemma SlashesFrom9(s: string)
    requires |s| == 13
    requires s[8] == ' ' && s[9] == 'D' && s[10] == '/' && s[11] == 'F' && s[12] == '#'
    ensures Transpose.ShiftPieces(Tokenize(s, 9, true), 7) == "A/C" + "#"
  {
    SlashesMatch9(s);
    Transpose.ShiftScanChord(s, 9, true, Candidate(10, 12, Some(11)), Chord(s[9..10], s[10..12], Some(s[11..12])), 7, Transpose.ShiftPieces(Tokenize(s, 12, true), 7));
    SlashesChord9(s);
    SlashesFrom12(s);
  }

  /** The scan from position 12 to the end. */
  lemma SlashesFrom12(s: string)
    requires |s| == 13
    requires s[11] == 'F' && s[12] == '#'
    ensures Transpose.ShiftPieces(Tokenize(s, 12, true), 7) == "#"
  {
    assert NoMatchFrom(s, 12, 13, true);
    Transpose.ShiftScanPlain(s, 12, 13, true, 7, Transpose.ShiftPieces(Tokenize(s, 13, true), 7));
    SlashesText12(s);
    assert Tokenize(s, 13, true) == [];
  }

  /** Both keys are valid, and the offset between them. */
  lemma SlashesKeys()
    ensures Transpose.IsValidKey("C") && Transpose.IsValidKey("G") && Transpose.Offset("C", "G", 0) == 7
  {
  }

  // ----- the diatonic sevenths from C to G -----

  /** The chord `Cmaj7` at 0: the root, after a word boundary. */
  lemma DiatonicGreedy0Root(s: string)
    requires |s| == 32
    requires s[0] == 'C' && s[1] == 'm' && s[2] == 'a' && s[3] == 'j' && s[4] == '7' && s[5] == ' '
    ensures Boundary(s, 0) && RootEnd(s, 0) == 1
  {
  }

  /** The chord `Cmaj7` at 0: the quality word. */
  lemma DiatonicGreedy0Quality(s: string)
    requires |s| == 32
    requires s[0] == 'C' && s[1] == 'm' && s[2] == 'a' && s[3] == 'j' && s[4] == '7' && s[5] == ' '
    ensures QualityEnd(s, 1, Qualities) == 4
  {
    QualityEndFirst(s, 1);
  }

  /** The chord `Cmaj7` at 0: the digits and the alteration. */
  lemma DiatonicGreedy0Digits(s: string)
    requires |s| == 32
    requires s[0] == 'C' && s[1] == 'm' && s[2] == 'a' && s[3] == 'j' && s[4] == '7' && s[5] == ' '
    ensures DigitRun(s, 4) == 1 && AlterationEnd(s, 5) == 5
  {
  }

  /** The chord `Cmaj7` at 0: the slash group and the closing boundary. */
  lemma DiatonicGreedy0Slash(s: string)
    requires |s| == 32
    requires s[0] == 'C' && s[1] == 'm' && s[2] == 'a' && s[3] == 'j' && s[4] == '7' && s[5] == ' '
    ensures TrySlash(s, 1, 5, true) == Some(Candidate(1, 5, None))
  {
  }

  /** The chord `Cmaj7` at 0: the whole match. */
  lemma DiatonicMatch0(s: string)
    requires |s| == 32
    requires s[0] == 'C' && s[1] == 'm' && s[2] == 'a' && s[3] == 'j' && s[4] == '7' && s[5] == ' '
    ensures MatchAt(s, 0, true) == Some(Candidate(1, 5, None))
  {
    DiatonicGreedy0Root(s);
    DiatonicGreedy0Quality(s);
    DiatonicGreedy0Digits(s);
    DiatonicGreedy0Slash(s);
    MatchGreedy(s, 0, true, 1, 4, 5, 5, Candidate(1, 5, None));
  }

  /** The chord `Cmaj7` at 0: moved by the reference reading. */
  lemma DiatonicChord0(s: string)
    requires |s| == 32
    requires s[0] == 'C' && s[1] == 'm' && s[2] == 'a' && s[3] == 'j' && s[4] == '7'
    ensures Transpose.ShiftedChord(Chord(s[0..1], s[1..5], None), 7) == "Gmaj7"
  {
    assert s[0..1] == "C" && s[1..5] == "maj7";
  }

  /** The plain text from position 5. */
  lemma DiatonicText5(s: string)
    requires |s| == 32
    requires s[5] == ' '
    ensures s[5..6] == " "
  {
  }

  /** The chord `Dm7` at 6: the root, after a word boundary. */
  lemma DiatonicGreedy6Root(s: string)
    requires |s| == 32
    requires s[5] == ' ' && s[6] == 'D' && s[7] == 'm' && s[8] == '7' && s[9] == ' '
    ensures Boundary(s, 6) && RootEnd(s, 6) == 7
  {
  }

  /** The chord `Dm7` at 6: the quality word. */
  lemma DiatonicGreedy6Quality(s: string)
    requires |s| == 32
    requires s[5] == ' ' && s[6] == 'D' && s[7] == 'm' && s[8] == '7' && s[9] == ' '
    ensures QualityEnd(s, 7, Qualities) == 8
  {
    QualityEndFirst(s, 7);
  }

  /** The chord `Dm7` at 6: the digits and the alteration. */
  lemma DiatonicGreedy6Digits(s: string)
    requires |s| == 32
    requires s[5] == ' ' && s[6] == 'D' && s[7] == 'm' && s[8] == '7' && s[9] == ' '
    ensures DigitRun(s, 8) == 1 && AlterationEnd(s, 9) == 9
  {
  }

  /** The chord `Dm7` at 6: the slash group and the closing boundary. */
  lemma DiatonicGreedy6Slash(s: string)
    requires |s| == 32
    requires s[5] == ' ' && s[6] == 'D' && s[7] == 'm' && s[8] == '7' && s[9] == ' '
    ensures TrySlash(s, 7, 9, true) == Some(Candidate(7, 9, None))
  {
  }

  /** The chord `Dm7` at 6: the whole match. */
  lemma DiatonicMatch6(s: string)
    requires |s| == 32
    requires s[5] == ' ' && s[6] == 'D' && s[7] == 'm' && s[8] == '7' && s[9] == ' '
    ensures MatchAt(s, 6, true) == Some(Candidate(7, 9, None))
  {
    DiatonicGreedy6Root(s);
    DiatonicGreedy6Quality(s);
    DiatonicGreedy6Digits(s);
    DiatonicGreedy6Slash(s);
    MatchGreedy(s, 6, true, 7, 8, 9, 9, Candidate(7, 9, None));
  }

  /** The chord `Dm7` at 6: moved by the reference reading. */
  lemma DiatonicChord6(s: string)
    requires |s| == 32
    requires s[6] == 'D' && s[7] == 'm' && s[8] == '7'
    ensures Transpose.ShiftedChord(Chord(s[6..7], s[7..9], None), 7) == "Am7"
  {
    assert s[6..7] == "D" && s[7..9] == "m7";
  }

  /** The plain text from position 9. */
  lemma DiatonicText9(s: string)
    requires |s| == 32
    requires s[9] == ' '
    ensures s[9..10] == " "
  {
  }

  /** The chord `Em7` at 10: the root, after a word boundary. */
  lemma DiatonicGreedy10Root(s: string)
    requires |s| == 32
    requires s[9] == ' ' && s[10] == 'E' && s[11] == 'm' && s[12] == '7' && s[13] == ' '
    ensures Boundary(s, 10) && RootEnd(s, 10) == 11
  {
  }

  /** The chord `Em7` at 10: the quality word. */
  lemma DiatonicGreedy10Quality(s: string)
    requires |s| == 32
    requires s[9] == ' ' && s[10] == 'E' && s[11] == 'm' && s[12] == '7' && s[13] == ' '
    ensures QualityEnd(s, 11, Qualities) == 12
  {
    QualityEndFirst(s, 11);
  }

  /** The chord `Em7` at 10: the digits and the alteration. */
  lemma DiatonicGreedy10Digits(s: string)
    requires |s| == 32
    requires s[9] == ' ' && s[10] == 'E' && s[11] == 'm' && s[12] == '7' && s[13] == ' '
    ensures DigitRun(s, 12) == 1 && AlterationEnd(s, 13) == 13
  {
  }

  /** The chord `Em7` at 10: the slash group and the closing boundary. */
  lemma DiatonicGreedy10Slash(s: string)
    requires |s| == 32
    requires s[9] == ' ' && s[10] == 'E' && s[11] == 'm' && s[12] == '7' && s[13] == ' '
    ensures TrySlash(s, 11, 13, true) == Some(Candidate(11, 13, None))
  {
  }

  /** The chord `Em7` at 10: the whole match. */
  lemma DiatonicMatch10(s: string)
    requires |s| == 32
    requires s[9] == ' ' && s[10] == 'E' && s[11] == 'm' && s[12] == '7' && s[13] == ' '
    ensures MatchAt(s, 10, true) == Some(Candidate(11, 13, None))
  {
    DiatonicGreedy10Root(s);
    DiatonicGreedy10Quality(s);
    DiatonicGreedy10Digits(s);
    DiatonicGreedy10Slash(s);
    MatchGreedy(s, 10, true, 11, 12, 13, 13, Candidate(11, 13, None));
  }

  /** The chord `Em7` at 10: moved by the reference reading. */
  lemma DiatonicChord10(s: string)
    requires |s| == 32
    requires s[10] == 'E' && s[11] == 'm' && s[12] == '7'
    ensures Transpose.ShiftedChord(Chord(s[10..11], s[11..13], None), 7) == "Bm7"
  {
    assert s[10..11] == "E" && s[11..13] == "m7";
  }

  /** The plain text from position 13. */
  lemma DiatonicText13(s: string)
    requires |s| == 32
    requires s[13] == ' '
    ensures s[13..14] == " "
  {
  }

  /** The chord `Fmaj7` at 14: the root, after a word boundary. */
  lemma DiatonicGreedy14Root(s: string)
    requires |s| == 32
    requires s[13] == ' ' && s[14] == 'F' && s[15] == 'm' && s[16] == 'a' && s[17] == 'j' && s[18] == '7' && s[19] == ' '
    ensures Boundary(s, 14) && RootEnd(s, 14) == 15
  {
  }

  /** The chord `Fmaj7` at 14: the quality word. */
  lemma DiatonicGreedy14Quality(s: string)
    requires |s| == 32
    requires s[13] == ' ' && s[14] == 'F' && s[15] == 'm' && s[16] == 'a' && s[17] == 'j' && s[18] == '7' && s[19] == ' '
    ensures QualityEnd(s, 15, Qualities) == 18
  {
    QualityEndFirst(s, 15);
  }

  /** The chord `Fmaj7` at 14: the digits and the alteration. */
  lemma DiatonicGreedy14Digits(s: string)
    requires |s| == 32
    requires s[13] == ' ' && s[14] == 'F' && s[15] == 'm' && s[16] == 'a' && s[17] == 'j' && s[18] == '7' && s[19] == ' '
    ensures DigitRun(s, 18) == 1 && AlterationEnd(s, 19) == 19
  {
  }

  /** The chord `Fmaj7` at 14: the slash group and the closing boundary. */
  lemma DiatonicGreedy14Slash(s: string)
    requires |s| == 32
    requires s[13] == ' ' && s[14] == 'F' && s[15] == 'm' && s[16] == 'a' && s[17] == 'j' && s[18] == '7' && s[19] == ' '
    ensures TrySlash(s, 15, 19, true) == Some(Candidate(15, 19, None))
  {
  }

  /** The chord `Fmaj7` at 14: the whole match. */
  lemma DiatonicMatch14(s: string)
    requires |s| == 32
    requires s[13] == ' ' && s[14] == 'F' && s[15] == 'm' && s[16] == 'a' && s[17] == 'j' && s[18] == '7' && s[19] == ' '
    ensures MatchAt(s, 14, true) == Some(Candidate(15, 19, None))
  {
    DiatonicGreedy14Root(s);
    DiatonicGreedy14Quality(s);
    DiatonicGreedy14Digits(s);
    DiatonicGreedy14Slash(s);
    MatchGreedy(s, 14, true, 15, 18, 19, 19, Candidate(15, 19, None));
  }

  /** The chord `Fmaj7` at 14: moved by the reference reading. */
  lemma DiatonicChord14(s: string)
    requires |s| == 32
    requires s[14] == 'F' && s[15] == 'm' && s[16] == 'a' && s[17] == 'j' && s[18] == '7'
    ensures Transpose.ShiftedChord(Chord(s[14..15], s[15..19], None), 7) == "Cmaj7"
  {
    assert s[14..15] == "F" && s[15..19] == "maj7";
  }

  /** The plain text from position 19. */
  lemma DiatonicText19(s: string)
    requires |s| == 32
    requires s[19] == ' '
    ensures s[19..20] == " "
  {
  }

  /** The chord `G7` at 20: the root, after a word boundary. */
  lemma DiatonicGreedy20Root(s: string)
    requires |s| == 32
    requires s[19] == ' ' && s[20] == 'G' && s[21] == '7' && s[22] == ' '
    ensures Boundary(s, 20) && RootEnd(s, 20) == 21
  {
  }

  /** The chord `G7` at 20: the quality word. */
  lemma DiatonicGreedy20Quality(s: string)
    requires |s| == 32
    requires s[19] == ' ' && s[20] == 'G' && s[21] == '7' && s[22] == ' '
    ensures QualityEnd(s, 21, Qualities) == 21
  {
    QualityEndFirst(s, 21);
  }

  /** The chord `G7` at 20: the digits and the alteration. */
  lemma DiatonicGreedy20Digits(s: string)
    requires |s| == 32
    requires s[19] == ' ' && s[20] == 'G' && s[21] == '7' && s[22] == ' '
    ensures DigitRun(s, 21) == 1 && AlterationEnd(s, 22) == 22
  {
  }

  /** The chord `G7` at 20: the slash group and the closing boundary. */
  lemma DiatonicGreedy20Slash(s: string)
    requires |s| == 32
    requires s[19] == ' ' && s[20] == 'G' && s[21] == '7' && s[22] == ' '
    ensures TrySlash(s, 21, 22, true) == Some(Candidate(21, 22, None))
  {
  }

  /** The chord `G7` at 20: the whole match. */
  lemma DiatonicMatch20(s: string)
    requires |s| == 32
    requires s[19] == ' ' && s[20] == 'G' && s[21] == '7' && s[22] == ' '
    ensures MatchAt(s, 20, true) == Some(Candidate(21, 22, None))
  {
    DiatonicGreedy20Root(s);
    DiatonicGreedy20Quality(s);
    DiatonicGreedy20Digits(s);
    DiatonicGreedy20Slash(s);
    MatchGreedy(s, 20, true, 21, 21, 22, 22, Candidate(21, 22, None));
  }

  /** The chord `G7` at 20: moved by the reference reading. */
  lemma DiatonicChord20(s: string)
    requires |s| == 32
    requires s[20] == 'G' && s[21] == '7'
    ensures Transpose.ShiftedChord(Chord(s[20..21], s[21..22], None), 7) == "D7"
  {
    assert s[20..21] == "G" && s[21..22] == "7";
  }

  /** The plain text from position 22. */
  lemma DiatonicText22(s: string)
    requires |s| == 32
    requires s[22] == ' '
    ensures s[22..23] == " "
  {
  }

  /** The chord `Am7` at 23: the root, after a word boundary. */
  lemma DiatonicGreedy23Root(s: string)
    requires |s| == 32
    requires s[22] == ' ' && s[23] == 'A' && s[24] == 'm' && s[25] == '7' && s[26] == ' '
    ensures Boundary(s, 23) && RootEnd(s, 23) == 24
  {
  }

  /** The chord `Am7` at 23: the quality word. */
  lemma DiatonicGreedy23Quality(s: string)
    requires |s| == 32
    requires s[22] == ' ' && s[23] == 'A' && s[24] == 'm' && s[25] == '7' && s[26] == ' '
    ensures QualityEnd(s, 24, Qualities) == 25
  {
    QualityEndFirst(s, 24);
  }

  /** The chord `Am7` at 23: the digits and the alteration. */
  lemma DiatonicGreedy23Digits(s: string)
    requires |s| == 32
    requires s[22] == ' ' && s[23] == 'A' && s[24] == 'm' && s[25] == '7' && s[26] == ' '
    ensures DigitRun(s, 25) == 1 && AlterationEnd(s, 26) == 26
  {
  }

  /** The chord `Am7` at 23: the slash group and the closing boundary. */
  lemma DiatonicGreedy23Slash(s: string)
    requires |s| == 32
    requires s[22] == ' ' && s[23] == 'A' && s[24] == 'm' && s[25] == '7' && s[26] == ' '
    ensures TrySlash(s, 24, 26, true) == Some(Candidate(24, 26, None))
  {
  }

  /** The chord `Am7` at 23: the whole match. */
  lemma DiatonicMatch23(s: string)
    requires |s| == 32
    requires s[22] == ' ' && s[23] == 'A' && s[24] == 'm' && s[25] == '7' && s[26] == ' '
    ensures MatchAt(s, 23, true) == Some(Candidate(24, 26, None))
  {
    DiatonicGreedy23Root(s);
    DiatonicGreedy23Quality(s);
    DiatonicGreedy23Digits(s);
    DiatonicGreedy23Slash(s);
    MatchGreedy(s, 23, true, 24, 25, 26, 26, Candidate(24, 26, None));
  }

  /** The chord `Am7` at 23: moved by the reference reading. */
  lemma DiatonicChord23(s: string)
    requires |s| == 32
    requires s[23] == 'A' && s[24] == 'm' && s[25] == '7'
    ensures Transpose.ShiftedChord(Chord(s[23..24], s[24..26], None), 7) == "Em7"
  {
    assert s[23..24] == "A" && s[24..26] == "m7";
  }

  /** The plain text from position 26. */
  lemma DiatonicText26(s: string)
    requires |s| == 32
    requires s[26] == ' '
    ensures s[26..27] == " "
  {
  }

  /** The chord `Bm7b5` at 27: the root, after a word boundary. */
  lemma DiatonicGreedy27Root(s: string)
    requires |s| == 32
    requires s[26] == ' ' && s[27] == 'B' && s[28] == 'm' && s[29] == '7' && s[30] == 'b' && s[31] == '5'
    ensures Boundary(s, 27) && RootEnd(s, 27) == 28
  {
  }

  /** The chord `Bm7b5` at 27: the quality word. */
  lemma DiatonicGreedy27Quality(s: string)
    requires |s| == 32
    requires s[26] == ' ' && s[27] == 'B' && s[28] == 'm' && s[29] == '7' && s[30] == 'b' && s[31] == '5'
    ensures QualityEnd(s, 28, Qualities) == 29
  {
    QualityEndFirst(s, 28);
  }

  /** The chord `Bm7b5` at 27: the digits and the alteration. */
  lemma DiatonicGreedy27Digits(s: string)
    requires |s| == 32
    requires s[26] == ' ' && s[27] == 'B' && s[28] == 'm' && s[29] == '7' && s[30] == 'b' && s[31] == '5'
    ensures DigitRun(s, 29) == 1 && AlterationEnd(s, 30) == 32
  {
  }

  /** The chord `Bm7b5` at 27: the slash group and the closing boundary. */
  lemma DiatonicGreedy27Slash(s: string)
    requires |s| == 32
    requires s[26] == ' ' && s[27] == 'B' && s[28] == 'm' && s[29] == '7' && s[30] == 'b' && s[31] == '5'
    ensures TrySlash(s, 28, 32, true) == Some(Candidate(28, 32, None))
  {
  }

  /** The chord `Bm7b5` at 27: the whole match. */
  lemma DiatonicMatch27(s: string)
    requires |s| == 32
    requires s[26] == ' ' && s[27] == 'B' && s[28] == 'm' && s[29] == '7' && s[30] == 'b' && s[31] == '5'
    ensures MatchAt(s, 27, true) == Some(Candidate(28, 32, None))
  {
    DiatonicGreedy27Root(s);
    DiatonicGreedy27Quality(s);
    DiatonicGreedy27Digits(s);
    DiatonicGreedy27Slash(s);
    MatchGreedy(s, 27, true, 28, 29, 30, 32, Candidate(28, 32, None));
  }

  /** The chord `Bm7b5` at 27: moved by the reference reading. */
  lemma DiatonicChord27(s: string)
    requires |s| == 32
    requires s[27] == 'B' && s[28] == 'm' && s[29] == '7' && s[30] == 'b' && s[31] == '5'
    ensures Transpose.ShiftedChord(Chord(s[27..28], s[28..32], None), 7) == "F#m7b5"
  {
    assert s[27..28] == "B" && s[28..32] == "m7b5";
  }

  /** The scan from position 0 to the end. */
  lemma DiatonicFrom0(s: string)
    requires |s| == 32
    requires s[0] == 'C' && s[1] == 'm' && s[2] == 'a' && s[3] == 'j' && s[4] == '7' && s[5] == ' ' && s[6] == 'D' && s[7] == 'm'
    requires s[8] == '7' && s[9] == ' ' && s[10] == 'E' && s[11] == 'm' && s[12] == '7' && s[13] == ' ' && s[14] == 'F' && s[15] == 'm'
    requires s[16] == 'a' && s[17] == 'j' && s[18] == '7' && s[19] == ' ' && s[20] == 'G' && s[21] == '7' && s[22] == ' ' && s[23] == 'A'
    requires s[24] == 'm' && s[25] == '7' && s[26] == ' ' && s[27] == 'B' && s[28] == 'm' && s[29] == '7' && s[30] == 'b' && s[31] == '5'
    ensures Transpose.ShiftPieces(Tokenize(s, 0, true), 7) == "Gmaj7" + (" " + ("Am7" + (" " + ("Bm7" + (" " + ("Cmaj7" + (" " + ("D7" + (" " + ("Em7" + (" " + "F#m7b5")))))))))))
  {
    DiatonicMatch0(s);
    Transpose.ShiftScanChord(s, 0, true, Candidate(1, 5, None), Chord(s[0..1], s[1..5], None), 7, Transpose.ShiftPieces(Tokenize(s, 5, true), 7));
    DiatonicChord0(s);
    DiatonicFrom5(s);
  }

  /** The scan from position 5 to the end. */
  lemma DiatonicFrom5(s: string)
    requires |s| == 32
    requires s[4] == '7' && s[5] == ' ' && s[6] == 'D' && s[7] == 'm' && s[8] == '7' && s[9] == ' ' && s[10] == 'E' && s[11] == 'm'
    requires s[12] == '7' && s[13] == ' ' && s[14] == 'F' && s[15] == 'm' && s[16] == 'a' && s[17] == 'j' && s[18] == '7' && s[19] == ' '
    requires s[20] == 'G' && s[21] == '7' && s[22] == ' ' && s[23] == 'A' && s[24] == 'm' && s[25] == '7' && s[26] == ' ' && s[27] == 'B'
    requires s[28] == 'm' && s[29] == '7' && s[30] == 'b' && s[31] == '5'
    ensures Transpose.ShiftPieces(Tokenize(s, 5, true), 7) == " " + ("Am7" + (" " + ("Bm7" + (" " + ("Cmaj7" + (" " + ("D7" + (" " + ("Em7" + (" " + "F#m7b5"))))))))))
  {
    assert NoMatchFrom(s, 5, 6, true);
    Transpose.ShiftScanPlain(s, 5, 6, true, 7, Transpose.ShiftPieces(Tokenize(s, 6, true), 7));
    DiatonicText5(s);
    DiatonicFrom6(s);
  }

  /** The scan from position 6 to the end. */
  lemma DiatonicFrom6(s: string)
    requires |s| == 32
    requires s[5] == ' ' && s[6] == 'D' && s[7] == 'm' && s[8] == '7' && s[9] == ' ' && s[10] == 'E' && s[11] == 'm' && s[12] == '7'
    requires s[13] == ' ' && s[14] == 'F' && s[15] == 'm' && s[16] == 'a' && s[17] == 'j' && s[18] == '7' && s[19] == ' ' && s[20] == 'G'
    requires s[21] == '7' && s[22] == ' ' && s[23] == 'A' && s[24] == 'm' && s[25] == '7' && s[26] == ' ' && s[27] == 'B' && s[28] == 'm'
    requires s[29] == '7' && s[30] == 'b' && s[31] == '5'
    ensures Transpose.ShiftPieces(Tokenize(s, 6, true), 7) == "Am7" + (" " + ("Bm7" + (" " + ("Cmaj7" + (" " + ("D7" + (" " + ("Em7" + (" " + "F#m7b5")))))))))
  {
    DiatonicMatch6(s);
    Transpose.ShiftScanChord(s, 6, true, Candidate(7, 9, None), Chord(s[6..7], s[7..9], None), 7, Transpose.ShiftPieces(Tokenize(s, 9, true), 7));
    DiatonicChord6(s);
    DiatonicFrom9(s);
  }

  /** The scan from position 9 to the end. */
  lemma DiatonicFrom9(s: string)
    requires |s| == 32
    requires s[8] == '7' && s[9] == ' ' && s[10] == 'E' && s[11] == 'm' && s[12] == '7' && s[13] == ' ' && s[14] == 'F' && s[15] == 'm'
    requires s[16] == 'a' && s[17] == 'j' && s[18] == '7' && s[19] == ' ' && s[20] == 'G' && s[21] == '7' && s[22] == ' ' && s[23] == 'A'
    requires s[24] == 'm' && s[25] == '7' && s[26] == ' ' && s[27] == 'B' && s[28] == 'm' && s[29] == '7' && s[30] == 'b' && s[31] == '5'
    ensures Transpose.ShiftPieces(Tokenize(s, 9, true), 7) == " " + ("Bm7" + (" " + ("Cmaj7" + (" " + ("D7" + (" " + ("Em7" + (" " + "F#m7b5"))))))))
  {
    assert NoMatchFrom(s, 9, 10, true);
    Transpose.ShiftScanPlain(s, 9, 10, true, 7, Transpose.ShiftPieces(Tokenize(s, 10, true), 7));
    DiatonicText9(s);
    DiatonicFrom10(s);
  }

  /** The scan from position 10 to the end. */
  lemma DiatonicFrom10(s: string)
    requires |s| == 32
    requires s[9] == ' ' && s[10] == 'E' && s[11] == 'm' && s[12] == '7' && s[13] == ' ' && s[14] == 'F' && s[15] == 'm' && s[16] == 'a'
    requires s[17] == 'j' && s[18] == '7' && s[19] == ' ' && s[20] == 'G' && s[21] == '7' && s[22] == ' ' && s[23] == 'A' && s[24] == 'm'
    requires s[25] == '7' && s[26] == ' ' && s[27] == 'B' && s[28] == 'm' && s[29] == '7' && s[30] == 'b' && s[31] == '5'
    ensures Transpose.ShiftPieces(Tokenize(s, 10, true), 7) == "Bm7" + (" " + ("Cmaj7" + (" " + ("D7" + (" " + ("Em7" + (" " + "F#m7b5")))))))
  {
    DiatonicMatch10(s);
    Transpose.ShiftScanChord(s, 10, true, Candidate(11, 13, None), Chord(s[10..11], s[11..13], None), 7, Transpose.ShiftPieces(Tokenize(s, 13, true), 7));
    DiatonicChord10(s);
    DiatonicFrom13(s);
  }

  /** The scan from position 13 to the end. */
  lemma DiatonicFrom13(s: string)
    requires |s| == 32
    requires s[12] == '7' && s[13] == ' ' && s[14] == 'F' && s[15] == 'm' && s[16] == 'a' && s[17] == 'j' && s[18] == '7' && s[19] == ' '
    requires s[20] == 'G' && s[21] == '7' && s[22] == ' ' && s[23] == 'A' && s[24] == 'm' && s[25] == '7' && s[26] == ' ' && s[27] == 'B'
    requires s[28] == 'm' && s[29] == '7' && s[30] == 'b' && s[31] == '5'
    ensures Transpose.ShiftPieces(Tokenize(s, 13, true), 7) == " " + ("Cmaj7" + (" " + ("D7" + (" " + ("Em7" + (" " + "F#m7b5"))))))
  {
    assert NoMatchFrom(s, 13, 14, true);
    Transpose.ShiftScanPlain(s, 13, 14, true, 7, Transpose.ShiftPieces(Tokenize(s, 14, true), 7));
    DiatonicText13(s);
    DiatonicFrom14(s);
  }

  /** The scan from position 14 to the end. */
  lemma DiatonicFrom14(s: string)
    requires |s| == 32
    requires s[13] == ' ' && s[14] == 'F' && s[15] == 'm' && s[16] == 'a' && s[17] == 'j' && s[18] == '7' && s[19] == ' ' && s[20] == 'G'
    requires s[21] == '7' && s[22] == ' ' && s[23] == 'A' && s[24] == 'm' && s[25] == '7' && s[26] == ' ' && s[27] == 'B' && s[28] == 'm'
    requires s[29] == '7' && s[30] == 'b' && s[31] == '5'
    ensures Transpose.ShiftPieces(Tokenize(s, 14, true), 7) == "Cmaj7" + (" " + ("D7" + (" " + ("Em7" + (" " + "F#m7b5")))))
  {
    DiatonicMatch14(s);
    Transpose.ShiftScanChord(s, 14, true, Candidate(15, 19, None), Chord(s[14..15], s[15..19], None), 7, Transpose.ShiftPieces(Tokenize(s, 19, true), 7));
    DiatonicChord14(s);
    DiatonicFrom19(s);
  }

  /** The scan from position 19 to the end. */
  lemma DiatonicFrom19(s: string)
    requires |s| == 32
    requires s[18] == '7' && s[19] == ' ' && s[20] == 'G' && s[21] == '7' && s[22] == ' ' && s[23] == 'A' && s[24] == 'm' && s[25] == '7'
    requires s[26] == ' ' && s[27] == 'B' && s[28] == 'm' && s[29] == '7' && s[30] == 'b' && s[31] == '5'
    ensures Transpose.ShiftPieces(Tokenize(s, 19, true), 7) == " " + ("D7" + (" " + ("Em7" + (" " + "F#m7b5"))))
  {
    assert NoMatchFrom(s, 19, 20, true);
    Transpose.ShiftScanPlain(s, 19, 20, true, 7, Transpose.ShiftPieces(Tokenize(s, 20, true), 7));
    DiatonicText19(s);
    DiatonicFrom20(s);
  }

  /** The scan from position 20 to the end. */
  lemma DiatonicFrom20(s: string)
    requires |s| == 32
    requires s[19] == ' ' && s[20] == 'G' && s[21] == '7' && s[22] == ' ' && s[23] == 'A' && s[24] == 'm' && s[25] == '7' && s[26] == ' '
    requires s[27] == 'B' && s[28] == 'm' && s[29] == '7' && s[30] == 'b' && s[31] == '5'
    ensures Transpose.ShiftPieces(Tokenize(s, 20, true), 7) == "D7" + (" " + ("Em7" + (" " + "F#m7b5")))
  {
    DiatonicMatch20(s);
    Transpose.ShiftScanChord(s, 20, true, Candidate(21, 22, None), Chord(s[20..21], s[21..22], None), 7, Transpose.ShiftPieces(Tokenize(s, 22, true), 7));
    DiatonicChord20(s);
    DiatonicFrom22(s);
  }

  /** The scan from position 22 to the end. */
  lemma DiatonicFrom22(s: string)
    requires |s| == 32
    requires s[21] == '7' && s[22] == ' ' && s[23] == 'A' && s[24] == 'm' && s[25] == '7' && s[26] == ' ' && s[27] == 'B' && s[28] == 'm'
    requires s[29] == '7' && s[30] == 'b' && s[31] == '5'
    ensures Transpose.ShiftPieces(Tokenize(s, 22, true), 7) == " " + ("Em7" + (" " + "F#m7b5"))
  {
    assert NoMatchFrom(s, 22, 23, true);
    Transpose.ShiftScanPlain(s, 22, 23, true, 7, Transpose.ShiftPieces(Tokenize(s, 23, true), 7));
    DiatonicText22(s);
    DiatonicFrom23(s);
  }

  /** The scan from position 23 to the end. */
  lemma DiatonicFrom23(s: string)
    requires |s| == 32
    requires s[22] == ' ' && s[23] == 'A' && s[24] == 'm' && s[25] == '7' && s[26] == ' ' && s[27] == 'B' && s[28] == 'm' && s[29] == '7'
    requires s[30] == 'b' && s[31] == '5'
    ensures Transpose.ShiftPieces(Tokenize(s, 23, true), 7) == "Em7" + (" " + "F#m7b5")
  {
    DiatonicMatch23(s);
    Transpose.ShiftScanChord(s, 23, true, Candidate(24, 26, None), Chord(s[23..24], s[24..26], None), 7, Transpose.ShiftPieces(Tokenize(s, 26, true), 7));
    DiatonicChord23(s);
    DiatonicFrom26(s);
  }

  /** The scan from position 26 to the end. */
  lemma DiatonicFrom26(s: string)
    requires |s| == 32
    requires s[25] == '7' && s[26] == ' ' && s[27] == 'B' && s[28] == 'm' && s[29] == '7' && s[30] == 'b' && s[31] == '5'
    ensures Transpose.ShiftPieces(Tokenize(s, 26, true), 7) == " " + "F#m7b5"
  {
    assert NoMatchFrom(s, 26, 27, true);
    Transpose.ShiftScanPlain(s, 26, 27, true, 7, Transpose.ShiftPieces(Tokenize(s, 27, true), 7));
    DiatonicText26(s);
    DiatonicFrom27(s);
  }

  /** The scan from position 27 to the end. */
  lemma DiatonicFrom27(s: string)
    requires |s| == 32
    requires s[26] == ' ' && s[27] == 'B' && s[28] == 'm' && s[29] == '7' && s[30] == 'b' && s[31] == '5'
    ensures Transpose.ShiftPieces(Tokenize(s, 27, true), 7) == "F#m7b5"
  {
    DiatonicMatch27(s);
    Transpose.ShiftScanChord(s, 27, true, Candidate(28, 32, None), Chord(s[27..28], s[28..32], None), 7, Transpose.ShiftPieces(Tokenize(s, 32, true), 7));
    DiatonicChord27(s);
    assert Tokenize(s, 32, true) == [];
  }

  /** Both keys are valid, and the offset between them. */
  lemma DiatonicKeys()
    ensures Transpose.IsValidKey("C") && Transpose.IsValidKey("G") && Transpose.Offset("C", "G", 0) == 7
  {
  }

  // ----- a flat root with the same key and no capo -----

  /** The chord `Db` at 0: the root, after a word boundary. */
  lemma RespelledGreedy0Root(s: string)
    requires |s| == 2
    requires s[0] == 'D' && s[1] == 'b'
    ensures Boundary(s, 0) && RootEnd(s, 0) == 2
  {
  }

  /** The chord `Db` at 0: the quality word. */
  lemma RespelledGreedy0Quality(s: string)
    requires |s| == 2
    requires s[0] == 'D' && s[1] == 'b'
    ensures QualityEnd(s, 2, Qualities) == 2
  {
    QualityEndFirst(s, 2);
  }

  /** The chord `Db` at 0: the digits and the alteration. */
  lemma RespelledGreedy0Digits(s: string)
    requires |s| == 2
    requires s[0] == 'D' && s[1] == 'b'
    ensures DigitRun(s, 2) == 0 && AlterationEnd(s, 2) == 2
  {
  }

  /** The chord `Db` at 0: the slash group and the closing boundary. */
  lemma RespelledGreedy0Slash(s: string)
    requires |s| == 2
    requires s[0] == 'D' && s[1] == 'b'
    ensures TrySlash(s, 2, 2, true) == Some(Candidate(2, 2, None))
  {
  }

  /** The chord `Db` at 0: the whole match. */
  lemma RespelledMatch0(s: string)
    requires |s| == 2
    requires s[0] == 'D' && s[1] == 'b'
    ensures MatchAt(s, 0, true) == Some(Candidate(2, 2, None))
  {
    RespelledGreedy0Root(s);
    RespelledGreedy0Quality(s);
    RespelledGreedy0Digits(s);
    RespelledGreedy0Slash(s);
    MatchGreedy(s, 0, true, 2, 2, 2, 2, Candidate(2, 2, None));
  }

  /** The chord `Db` at 0: moved by the reference reading. */
  lemma RespelledChord0(s: string)
    requires |s| == 2
    requires s[0] == 'D' && s[1] == 'b'
    ensures Transpose.ShiftedChord(Chord(s[0..2], s[2..2], None), 0) == "C#"
  {
    assert s[0..2] == "Db" && s[2..2] == "";
  }

  /** The scan from position 0 to the end. */
  lemma RespelledFrom0(s: string)
    requires |s| == 2
    requires s[0] == 'D' && s[1] == 'b'
    ensures Transpose.ShiftPieces(Tokenize(s, 0, true), 0) == "C#"
  {
    RespelledMatch0(s);
    Transpose.ShiftScanChord(s, 0, true, Candidate(2, 2, None), Chord(s[0..2], s[2..2], None), 0, Transpose.ShiftPieces(Tokenize(s, 2, true), 0));
    RespelledChord0(s);
    assert Tokenize(s, 2, true) == [];
  }

  /** Both keys are valid, and the offset between them. */
  lemma RespelledKeys()
    ensures Transpose.IsValidKey("C") && Transpose.IsValidKey("C") && Transpose.Offset("C", "C", 0) == 0
  {
  }

  // ----- the test cases -----

  /** validate_fix.mjs:71-78: the naturals moved up a semitone come out in
      KEYS spelling, without `#b` or `b#` anywhere. */
  lemma NaturalsCase()
    ensures ValidateFix.TransposeChordSheet("C D E F G A B", "C", "Db", 0) == "C# Eb F F# G# Bb C"
    ensures IndexOf("C# Eb F F# G# Bb C", "#b", 0) == None && IndexOf("C# Eb F F# G# Bb C", "b#", 0) == None
  {
    NaturalsSheet("C D E F G A B");
    NaturalsSpelling();
  }

  /** The text `C D E F G A B`, spelled one character at a time. */
  lemma NaturalsSheet(s: string)
    requires |s| == 13
    requires s[0] == 'C' && s[1] == ' ' && s[2] == 'D' && s[3] == ' ' && s[4] == 'E' && s[5] == ' ' && s[6] == 'F' && s[7] == ' '
    requires s[8] == 'G' && s[9] == ' ' && s[10] == 'A' && s[11] == ' ' && s[12] == 'B'
    ensures ValidateFix.TransposeChordSheet(s, "C", "Db", 0) == "C# Eb F F# G# Bb C"
  {
    assert "C#" + (" " + ("Eb" + (" " + ("F" + (" " + ("F#" + (" " + ("G#" + (" " + ("Bb" + (" " + "C"))))))))))) == "C# Eb F F# G# Bb C";
    NaturalsFrom0(s);
    NaturalsKeys();
    ValidateFix.SheetFromScan(s, "C", "Db", 0, 1, "C# Eb F F# G# Bb C");
  }

  /** No sharp and flat meet in the output. */
  lemma NaturalsSpelling()
    ensures IndexOf("C# Eb F F# G# Bb C", "#b", 0) == None && IndexOf("C# Eb F F# G# Bb C", "b#", 0) == None
  {
    assert var t := "C# Eb F F# G# Bb C";
      |t| == 18
      && t[0] == 'C' && t[1] == '#' && t[2] == ' ' && t[3] == 'E' && t[4] == 'b' && t[5] == ' ' && t[6] == 'F' && t[7] == ' '
      && t[8] == 'F' && t[9] == '#' && t[10] == ' ' && t[11] == 'G' && t[12] == '#' && t[13] == ' ' && t[14] == 'B' && t[15] == 'b'
      && t[16] == ' ' && t[17] == 'C';
    NaturalsPairFree("C# Eb F F# G# Bb C");
  }

  /** No sharp and flat meet in the output. */
  lemma NaturalsPairFree(t: string)
    requires |t| == 18
    requires t[0] == 'C' && t[1] == '#' && t[2] == ' ' && t[3] == 'E' && t[4] == 'b' && t[5] == ' ' && t[6] == 'F' && t[7] == ' '
    requires t[8] == 'F' && t[9] == '#' && t[10] == ' ' && t[11] == 'G' && t[12] == '#' && t[13] == ' ' && t[14] == 'B' && t[15] == 'b'
    requires t[16] == ' ' && t[17] == 'C'
    ensures IndexOf(t, "#b", 0) == None && IndexOf(t, "b#", 0) == None
  {
    forall k | 0 <= k < |t| - 1 ensures !(t[k] == '#' && t[k + 1] == 'b') && !(t[k] == 'b' && t[k + 1] == '#') {
      if k == 0 { } else if k == 1 { } else if k == 2 { } else if k == 3 { } else if k == 4 { } else if k == 5 { } else if k == 6 { } else if k == 7 { } else if k == 8 { } else if k == 9 { } else if k == 10 { } else if k == 11 { } else if k == 12 { } else if k == 13 { } else if k == 14 { } else if k == 15 { } else { }
    }
    IndexOfPairFree(t, '#', 'b');
    IndexOfPairFree(t, 'b', '#');
  }

  /** validate_fix.mjs:79-86: quality words and digits stay with the moved root. */
  lemma SeventhsCase()
    ensures ValidateFix.TransposeChordSheet("Bm7 Cmaj7 " + "Dsus4 Em7", "C", "D", 0) == "C#m7 Dmaj7 Esus4 F#m7"
  {
    SeventhsSheet("Bm7 Cmaj7 " + "Dsus4 Em7");
  }

  /** The text `Bm7 Cmaj7 Dsus4 Em7`, spelled one character at a time. */
  lemma SeventhsSheet(s: string)
    requires |s| == 19
    requires s[0] == 'B' && s[1] == 'm' && s[2] == '7' && s[3] == ' ' && s[4] == 'C' && s[5] == 'm' && s[6] == 'a' && s[7] == 'j'
    requires s[8] == '7' && s[9] == ' ' && s[10] == 'D' && s[11] == 's' && s[12] == 'u' && s[13] == 's' && s[14] == '4' && s[15] == ' '
    requires s[16] == 'E' && s[17] == 'm' && s[18] == '7'
    ensures ValidateFix.TransposeChordSheet(s, "C", "D", 0) == "C#m7 Dmaj7 Esus4 F#m7"
  {
    assert "C#m7" + (" " + ("Dmaj7" + (" " + ("Esus4" + (" " + "F#m7"))))) == "C#m7 Dmaj7 Esus4 F#m7";
    SeventhsFrom0(s);
    SeventhsKeys();
    ValidateFix.SheetFromScan(s, "C", "D", 0, 2, "C#m7 Dmaj7 Esus4 F#m7");
  }

  /** validate_fix.mjs:87-94: roots and basses move together. In `D/F#` the
      closing `\b` cannot follow `#`, so the match is `D/F` and the `#` is
      copied; `F` up a fifth is `C`, so the text still reads `A/C#`. */
  lemma SlashesCase()
    ensures ValidateFix.TransposeChordSheet("C/E Am/C D/F#", "C", "G", 0) == "G/B Em/G A/C#"
  {
    SlashesSheet("C/E Am/C D/F#");
  }

  /** The text `C/E Am/C D/F#`, spelled one character at a time. */
  lemma SlashesSheet(s: string)
    requires |s| == 13
    requires s[0] == 'C' && s[1] == '/' && s[2] == 'E' && s[3] == ' ' && s[4] == 'A' && s[5] == 'm' && s[6] == '/' && s[7] == 'C'
    requires s[8] == ' ' && s[9] == 'D' && s[10] == '/' && s[11] == 'F' && s[12] == '#'
    ensures ValidateFix.TransposeChordSheet(s, "C", "G", 0) == "G/B Em/G A/C#"
  {
    assert "G/B" + (" " + ("Em/G" + (" " + ("A/C" + "#")))) == "G/B Em/G A/C#";
    SlashesFrom0(s);
    SlashesKeys();
    ValidateFix.SheetFromScan(s, "C", "G", 0, 7, "G/B Em/G A/C#");
  }

  /** validate_fix.mjs:95-102: a whole diatonic set of sevenths, including
      the `b5` alteration of `Bm7b5`. */
  lemma DiatonicCase()
    ensures ValidateFix.TransposeChordSheet("Cmaj7 Dm7 Em7 " + "Fmaj7 G7 Am7 Bm7b5", "C", "G", 0) == "Gmaj7 Am7 Bm7 Cmaj7 D7 Em7 F#m7b5"
  {
    DiatonicSheet("Cmaj7 Dm7 Em7 " + "Fmaj7 G7 Am7 Bm7b5");
  }

  /** The text `Cmaj7 Dm7 Em7 Fmaj7 G7 Am7 Bm7b5`, spelled one character at a time. */
  lemma DiatonicSheet(s: string)
    requires |s| == 32
    requires s[0] == 'C' && s[1] == 'm' && s[2] == 'a' && s[3] == 'j' && s[4] == '7' && s[5] == ' ' && s[6] == 'D' && s[7] == 'm'
    requires s[8] == '7' && s[9] == ' ' && s[10] == 'E' && s[11] == 'm' && s[12] == '7' && s[13] == ' ' && s[14] == 'F' && s[15] == 'm'
    requires s[16] == 'a' && s[17] == 'j' && s[18] == '7' && s[19] == ' ' && s[20] == 'G' && s[21] == '7' && s[22] == ' ' && s[23] == 'A'
    requires s[24] == 'm' && s[25] == '7' && s[26] == ' ' && s[27] == 'B' && s[28] == 'm' && s[29] == '7' && s[30] == 'b' && s[31] == '5'
    ensures ValidateFix.TransposeChordSheet(s, "C", "G", 0) == "Gmaj7 Am7 Bm7 Cmaj7 D7 Em7 F#m7b5"
  {
    assert "Gmaj7" + (" " + ("Am7" + (" " + ("Bm7" + (" " + ("Cmaj7" + (" " + ("D7" + (" " + ("Em7" + (" " + "F#m7b5"))))))))))) == "Gmaj7 Am7 Bm7 Cmaj7 D7 Em7 F#m7b5";
    DiatonicFrom0(s);
    DiatonicKeys();
    ValidateFix.SheetFromScan(s, "C", "G", 0, 7, "Gmaj7 Am7 Bm7 Cmaj7 D7 Em7 F#m7b5");
  }

  /** Without the production shortcut, the same key and no capo still respell
      a flat root in KEYS spelling, where the production rewriter hands the
      sheet back untouched. */
  lemma RespelledCase()
    ensures ValidateFix.TransposeChordSheet("Db", "C", "C", 0) == "C#"
    ensures Transpose.TransposeChordSheet("Db", "C", "C", 0) == "Db"
  {
    RespelledSheet("Db");
  }

  /** The text `Db`, spelled one character at a time. */
  lemma RespelledSheet(s: string)
    requires |s| == 2
    requires s[0] == 'D' && s[1] == 'b'
    ensures ValidateFix.TransposeChordSheet(s, "C", "C", 0) == "C#"
  {
    RespelledFrom0(s);
    RespelledKeys();
    ValidateFix.SheetFromScan(s, "C", "C", 0, 0, "C#");
  }

  /** A sharp root at the end of the text: the pattern gives the match `F` and
      leaves the `#`, so `F#` moved from C to F (up five semitones) reads
      `Bb#`, which holds the `b#` that validate_fix.mjs:71-78 checks the
      output of its naturals against; both rewriters do this. */
  lemma SharpLeftBehindCase()
    ensures ValidateFix.TransposeChordSheet("F#", "C", "F", 0) == "Bb#"
    ensures Transpose.TransposeChordSheet("F#", "C", "F", 0) == "Bb#"
    ensures IndexOf("Bb#", "b#", 0) == Some(1)
  {
    SharpSheet("F#");
    SharpProduction("F#");
    SharpPair();
  }

  /** The output holds `b#` at position 1. */
  lemma SharpPair()
    ensures IndexOf("Bb#", "b#", 0) == Some(1)
  {
    var s := "Bb#";
    assert s[0..2][0] == 'B';
    assert !OccursAt(s, "b#", 0);
    assert s[1..3] == "b#";
    assert OccursAt(s, "b#", 1);
  }

  /** The chord `F` at 0: the whole match. */
  lemma SharpMatch0(s: string)
    requires |s| == 2
    requires s[0] == 'F' && s[1] == '#'
    ensures MatchAt(s, 0, true) == Some(Candidate(1, 1, None))
  {
    SharpLeftBehind(s, 0, true);
  }

  /** The chord `F` at 0: moved by the reference reading. */
  lemma SharpChord0(s: string)
    requires |s| == 2
    requires s[0] == 'F' && s[1] == '#'
    ensures Transpose.ShiftedChord(Chord(s[0..1], s[1..1], None), 5) == "Bb"
  {
    assert s[0..1] == "F" && s[1..1] == "";
  }

  /** The plain text from position 1. */
  lemma SharpText1(s: string)
    requires |s| == 2
    requires s[1] == '#'
    ensures s[1..2] == "#"
  {
  }

  /** The scan from position 1 to the end. */
  lemma SharpFrom1(s: string)
    requires |s| == 2
    requires s[0] == 'F' && s[1] == '#'
    ensures Transpose.ShiftPieces(Tokenize(s, 1, true), 5) == "#"
  {
    assert NoMatchFrom(s, 1, 2, true);
    assert Tokenize(s, 2, true) == [];
    Transpose.ShiftScanPlain(s, 1, 2, true, 5, "");
    SharpText1(s);
  }

  /** The scan from position 0 to the end. */
  lemma SharpFrom0(s: string)
    requires |s| == 2
    requires s[0] == 'F' && s[1] == '#'
    ensures Transpose.ShiftPieces(Tokenize(s, 0, true), 5) == "Bb" + "#"
  {
    SharpMatch0(s);
    SharpFrom1(s);
    Transpose.ShiftScanChord(s, 0, true, Candidate(1, 1, None), Chord(s[0..1], s[1..1], None), 5, "#");
    SharpChord0(s);
  }

  /** Both keys are valid, and the offset between them. */
  lemma SharpKeys()
    ensures Transpose.IsValidKey("C") && Transpose.IsValidKey("F") && Transpose.Offset("C", "F", 0) == 5
  {
  }

  /** The text `F#`, spelled one character at a time. */
  lemma SharpSheet(s: string)
    requires |s| == 2
    requires s[0] == 'F' && s[1] == '#'
    ensures ValidateFix.TransposeChordSheet(s, "C", "F", 0) == "Bb#"
  {
    assert "Bb" + "#" == "Bb#";
    SharpFrom0(s);
    SharpKeys();
    ValidateFix.SheetFromScan(s, "C", "F", 0, 5, "Bb#");
  }

  /** The production rewriter on the same text, spelled one character at a time. */
  lemma SharpProduction(s: string)
    requires |s| == 2
    requires s[0] == 'F' && s[1] == '#'
    ensures Transpose.TransposeChordSheet(s, "C", "F", 0) == "Bb#"
  {
    assert "Bb" + "#" == "Bb#";
    SharpFrom0(s);
    SharpKeys();
    Transpose.TransposeChordSheetShifts(s, "C", "F", 0);
  }
}
