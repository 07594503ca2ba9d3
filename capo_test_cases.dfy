/** The sheets that test/capo_test.js gives to its `simulateCapoChange`, each
    rewritten exactly. A sheet is written as its lines: `<N>Header` and
    `<N>Capo` rewrite the fields of the first line, `<N>L<k>Line` transposes
    line `k` (read off position by position, as in the other sheet cases),
    and `<N>Sheet` puts them together for any lines with the sheet's
    characters. */
module CapoTestCases {
  import opened Wrappers
  import opened Js
  import opened ChordRegex
  import Transpose
  import opened CapoTest

  // ----- the capo taken from 3 to 0 -----

  /** The Key header pattern matches at the start of the first line. */
  lemma LowerHeaderAt(s: string)
    requires |s| >= 14
    requires s[0] == 'K' && s[1] == 'e' && s[2] == 'y' && s[3] == ':' && s[4] == ' ' && s[5] == 'B' && s[6] == 'b' && s[7] == ' '
    requires s[8] == '(' && s[9] == 'A' && s[10] == 'G' && s[11] == ':' && s[12] == 'G' && s[13] == ')'
    ensures KeyHeaderAt(s, 0) == Some(Header(5, 7, 12, 13, 14))
  {
    assert WordAtI(s, "KEY", 0, 3);
    assert WordAtI(s, "KEY", 0, 2);
    assert WordAtI(s, "KEY", 0, 1);
    assert WordAtI(s, "KEY", 0, 0);
    assert SpaceEnd(s, 3) == 3;
    assert LabelColonEnd(s, "KEY", 0) == Some(4);
    assert SpaceEnd(s, 5) == 5;
    assert SpaceEnd(s, 4) == 5;
    assert NoteEndI(s, 5) == Some(7);
    assert SpaceEnd(s, 8) == 8;
    assert SpaceEnd(s, 7) == 8;
    assert SpaceEnd(s, 9) == 9;
    assert WordAtI(s, "AG", 9, 2);
    assert WordAtI(s, "AG", 9, 1);
    assert WordAtI(s, "AG", 9, 0);
    assert SpaceEnd(s, 11) == 11;
    assert LabelColonEnd(s, "AG", 9) == Some(12);
    assert SpaceEnd(s, 12) == 12;
    assert NoteEndI(s, 12) == Some(13);
    assert SpaceEnd(s, 13) == 13;
  }

  /** After the Key header, no Key label starts on the first line. */
  lemma LowerHeaderTail(t: string, rest: string)
    requires |t| == 24
    requires t[14] == ' ' && t[15] == ' ' && t[16] == ' ' && t[17] == 'C' && t[18] == 'a' && t[19] == 'p' && t[20] == 'o' && t[21] == ':'
    requires t[22] == ' ' && t[23] == '3'
    requires rest == [] || rest[0] == '\n'
    ensures NoPairIn(t + rest, 14, |t|, 'K', 'E')
  {
    var s := t + rest;
    assert NoPairIn(s, 23, |t|, 'K', 'E');
    assert NoPairIn(s, 22, |t|, 'K', 'E');
    assert NoPairIn(s, 21, |t|, 'K', 'E');
    assert NoPairIn(s, 20, |t|, 'K', 'E');
    assert NoPairIn(s, 19, |t|, 'K', 'E');
    assert NoPairIn(s, 18, |t|, 'K', 'E');
    assert NoPairIn(s, 17, |t|, 'K', 'E');
    assert NoPairIn(s, 16, |t|, 'K', 'E');
    assert NoPairIn(s, 15, |t|, 'K', 'E');
    assert NoPairIn(s, 14, |t|, 'K', 'E');
  }

  /** The parts of the first line that the Key header rewrite keeps. */
  lemma LowerHeaderPieces(t: string, rest: string)
    requires |t| == 24
    requires t[0] == 'K' && t[1] == 'e' && t[2] == 'y' && t[3] == ':' && t[4] == ' ' && t[5] == 'B' && t[6] == 'b' && t[7] == ' '
    requires t[8] == '(' && t[9] == 'A' && t[10] == 'G' && t[11] == ':' && t[12] == 'G' && t[13] == ')' && t[14] == ' ' && t[15] == ' '
    requires t[16] == ' ' && t[17] == 'C' && t[18] == 'a' && t[19] == 'p' && t[20] == 'o' && t[21] == ':' && t[22] == ' ' && t[23] == '3'
    ensures var s := t + rest;
      s[0..5] == "Key: " && s[7..12] == " (AG:" && s[13..14] == ")" && s[14..|t|] == "   Capo:" + " " + "3"
  {
  }

  /** The kept parts and the new keys put back together. */
  lemma LowerHeaderText(s: string, x: string, rest: string)
    requires |s| >= 14 && s[0..5] == "Key: " && s[7..12] == " (AG:" && s[13..14] == ")"
    requires x == "   Capo:" + " " + "3"
    ensures s[0..5] + "Bb" + s[7..12] + "Bb" + s[13..14] + (x + rest) == "Key: " + "Bb" + " (AG:" + "Bb" + ")" + "   Capo:" + " " + "3" + rest
  {
  }

  /** The Key header of the first line gets the key and the guitar key; the
      rest of the sheet holds no other header. */
  lemma LowerHeader(t: string, rest: string)
    requires |t| == 24
    requires t[0] == 'K' && t[1] == 'e' && t[2] == 'y' && t[3] == ':' && t[4] == ' ' && t[5] == 'B' && t[6] == 'b' && t[7] == ' '
    requires t[8] == '(' && t[9] == 'A' && t[10] == 'G' && t[11] == ':' && t[12] == 'G' && t[13] == ')' && t[14] == ' ' && t[15] == ' '
    requires t[16] == ' ' && t[17] == 'C' && t[18] == 'a' && t[19] == 'p' && t[20] == 'o' && t[21] == ':' && t[22] == ' ' && t[23] == '3'
    requires PairFree(rest, 'K', 'E') && (rest == [] || rest[0] == '\n')
    ensures ReplaceKeyHeaders(t + rest, 0, "Bb", "Bb") == "Key: " + "Bb" + " (AG:" + "Bb" + ")" + "   Capo:" + " " + "3" + rest
  {
    var s := t + rest;
    LowerHeaderAt(s);
    HeaderFound(s, 0, Header(5, 7, 12, 13, 14), "Bb", "Bb");
    LowerHeaderTail(t, rest);
    HeadersCopied(s, 14, |t|, "Bb", "Bb");
    HeadersAfter(t, rest, "Bb", "Bb");
    LowerHeaderPieces(t, rest);
    LowerHeaderText(s, s[14..|t|], rest);
  }

  /** The Capo pattern matches where the Capo field starts. */
  lemma LowerCapoAt(s: string)
    requires |s| >= 25 && (|s| == 25 || s[25] == '\n')
    requires s[18] == 'C' && s[19] == 'a' && s[20] == 'p' && s[21] == 'o' && s[22] == ':' && s[23] == ' ' && s[24] == '3'
    ensures CapoAt(s, 18) == Some((24, 25))
  {
    assert WordAtI(s, "CAPO", 18, 4);
    assert WordAtI(s, "CAPO", 18, 3);
    assert WordAtI(s, "CAPO", 18, 2);
    assert WordAtI(s, "CAPO", 18, 1);
    assert WordAtI(s, "CAPO", 18, 0);
    assert SpaceEnd(s, 22) == 22;
    assert SpaceEnd(s, 24) == 24;
    assert SpaceEnd(s, 23) == 24;
    assert LabelColonEnd(s, "CAPO", 18) == Some(23);
    assert DigitRun(s, 25) == 0;
    assert DigitRun(s, 24) == 1;
  }

  /** No Capo label starts before the Capo field. */
  lemma LowerCapoBefore(s: string)
    requires |s| > 18
    requires s[0] == 'K' && s[1] == 'e' && s[2] == 'y' && s[3] == ':' && s[4] == ' ' && s[5] == 'B' && s[6] == 'b' && s[7] == ' '
    requires s[8] == '(' && s[9] == 'A' && s[10] == 'G' && s[11] == ':' && s[12] == 'B' && s[13] == 'b' && s[14] == ')' && s[15] == ' '
    requires s[16] == ' ' && s[17] == ' ' && s[18] == 'C'
    ensures NoPairIn(s, 0, 18, 'C', 'A')
  {
    assert NoPairIn(s, 17, 18, 'C', 'A');
    assert NoPairIn(s, 16, 18, 'C', 'A');
    assert NoPairIn(s, 15, 18, 'C', 'A');
    assert NoPairIn(s, 14, 18, 'C', 'A');
    assert NoPairIn(s, 13, 18, 'C', 'A');
    assert NoPairIn(s, 12, 18, 'C', 'A');
    assert NoPairIn(s, 11, 18, 'C', 'A');
    assert NoPairIn(s, 10, 18, 'C', 'A');
    assert NoPairIn(s, 9, 18, 'C', 'A');
    assert NoPairIn(s, 8, 18, 'C', 'A');
    assert NoPairIn(s, 7, 18, 'C', 'A');
    assert NoPairIn(s, 6, 18, 'C', 'A');
    assert NoPairIn(s, 5, 18, 'C', 'A');
    assert NoPairIn(s, 4, 18, 'C', 'A');
    assert NoPairIn(s, 3, 18, 'C', 'A');
    assert NoPairIn(s, 2, 18, 'C', 'A');
    assert NoPairIn(s, 1, 18, 'C', 'A');
    assert NoPairIn(s, 0, 18, 'C', 'A');
  }

  /** The part of the line that the Capo rewrite keeps. */
  lemma LowerCapoPieces(t: string, rest: string)
    requires |t| == 25
    requires t[0] == 'K' && t[1] == 'e' && t[2] == 'y' && t[3] == ':' && t[4] == ' ' && t[5] == 'B' && t[6] == 'b' && t[7] == ' '
    requires t[8] == '(' && t[9] == 'A' && t[10] == 'G' && t[11] == ':' && t[12] == 'B' && t[13] == 'b' && t[14] == ')' && t[15] == ' '
    requires t[16] == ' ' && t[17] == ' ' && t[18] == 'C' && t[19] == 'a' && t[20] == 'p' && t[21] == 'o' && t[22] == ':' && t[23] == ' '
    requires t[24] == '3'
    ensures var s := t + rest; s[0..18] + s[18..24] == "Key: " + "Bb" + " (AG:" + "Bb" + ")" + "   Capo:" + " "
  {
  }

  /** The kept part and the new capo put back together. */
  lemma LowerCapoText(s: string, x: string, rest: string)
    requires |s| >= 24 && s[0..18] + s[18..24] == "Key: " + "Bb" + " (AG:" + "Bb" + ")" + "   Capo:" + " " && x == rest
    ensures s[0..18] + (s[18..24] + Decimal(0) + x) == "Key: " + "Bb" + " (AG:" + "Bb" + ")" + "   Capo:" + " " + "0" + rest
  {
  }

  /** The Capo field of the rewritten first line gets the new capo; the rest
      of the sheet holds no other Capo field. */
  lemma LowerCapo(t: string, rest: string)
    requires |t| == 25
    requires t[0] == 'K' && t[1] == 'e' && t[2] == 'y' && t[3] == ':' && t[4] == ' ' && t[5] == 'B' && t[6] == 'b' && t[7] == ' '
    requires t[8] == '(' && t[9] == 'A' && t[10] == 'G' && t[11] == ':' && t[12] == 'B' && t[13] == 'b' && t[14] == ')' && t[15] == ' '
    requires t[16] == ' ' && t[17] == ' ' && t[18] == 'C' && t[19] == 'a' && t[20] == 'p' && t[21] == 'o' && t[22] == ':' && t[23] == ' '
    requires t[24] == '3'
    requires PairFree(rest, 'C', 'A') && (rest == [] || rest[0] == '\n')
    ensures ReplaceCapo(t + rest, 0, 0) == "Key: " + "Bb" + " (AG:" + "Bb" + ")" + "   Capo:" + " " + "0" + rest
  {
    var s := t + rest;
    LowerCapoBefore(s);
    CapoCopied(s, 0, 18, 0);
    LowerCapoAt(s);
    CapoFound(s, 18, 24, 25, 0);
    LowerCapoPieces(t, rest);
    CapoAfter(t, rest, 0);
    LowerCapoText(s, ReplaceCapo(s, 25, 0), rest);
  }

  // ----- line 2 of the Lower sheet -----

  /** The plain text from position 0. */
  lemma LowerL2Text0(s: string)
    requires |s| == 5
    requires s[0] == '[' && s[1] == 'P' && s[2] == 'r' && s[3] == 'e' && s[4] == ']'
    ensures s[0..5] == "[Pre]"
  {
  }

  /** The scan from position 0 to the end. */
  lemma LowerL2From0(s: string)
    requires |s| == 5
    requires s[0] == '[' && s[1] == 'P' && s[2] == 'r' && s[3] == 'e' && s[4] == ']'
    ensures Transpose.ShiftPieces(Tokenize(s, 0, false), 3) == "[Pre]"
  {
    assert NoMatchFrom(s, 4, 5, false);
    assert NoMatchFrom(s, 3, 5, false);
    assert NoMatchFrom(s, 2, 5, false);
    assert NoMatchFrom(s, 1, 5, false);
    assert NoMatchFrom(s, 0, 5, false);
    Transpose.ShiftScanPlain(s, 0, 5, false, 3, Transpose.ShiftPieces(Tokenize(s, 5, false), 3));
    LowerL2Text0(s);
    assert Tokenize(s, 5, false) == [];
  }

  /** The text `[Pre]`, spelled one character at a time. */
  lemma LowerL2Line(s: string)
    requires |s| == 5
    requires s[0] == '[' && s[1] == 'P' && s[2] == 'r' && s[3] == 'e' && s[4] == ']'
    ensures TransposeChordSheet(s, "G", "Bb") == "[Pre]"
  {
    LowerL2From0(s);
    LowerDiff();
    CapoTest.SheetFromScan(s, "G", "Bb", 3, "[Pre]");
  }

  // ----- line 3 of the Lower sheet -----

  /** The plain text from position 0. */
  lemma LowerL3Text0(s: string)
    requires |s| == 13
    requires s[0] == ' ' && s[1] == ' ' && s[2] == ' ' && s[3] == ' '
    ensures s[0..4] == "    "
  {
  }

  /** The chord `G` at 4: the root, after a word boundary. */
  lemma LowerL3Greedy4Root(s: string)
    requires |s| == 13
    requires s[3] == ' ' && s[4] == 'G' && s[5] == ' '
    ensures Boundary(s, 4) && RootEnd(s, 4) == 5
  {
  }

  /** The chord `G` at 4: the quality word. */
  lemma LowerL3Greedy4Quality(s: string)
    requires |s| == 13
    requires s[3] == ' ' && s[4] == 'G' && s[5] == ' '
    ensures QualityEnd(s, 5, Qualities) == 5
  {
    QualityEndFirst(s, 5);
  }

  /** The chord `G` at 4: the digits and the alteration. */
  lemma LowerL3Greedy4Digits(s: string)
    requires |s| == 13
    requires s[3] == ' ' && s[4] == 'G' && s[5] == ' '
    ensures DigitRun(s, 5) == 0 && AlterationEnd(s, 5) == 5
  {
  }

  /** The chord `G` at 4: the slash group and the closing boundary. */
  lemma LowerL3Greedy4Slash(s: string)
    requires |s| == 13
    requires s[3] == ' ' && s[4] == 'G' && s[5] == ' '
    ensures TrySlash(s, 5, 5, false) == Some(Candidate(5, 5, None))
  {
  }

  /** The chord `G` at 4: the whole match. */
  lemma LowerL3Match4(s: string)
    requires |s| == 13
    requires s[3] == ' ' && s[4] == 'G' && s[5] == ' '
    ensures MatchAt(s, 4, false) == Some(Candidate(5, 5, None))
  {
    LowerL3Greedy4Root(s);
    LowerL3Greedy4Quality(s);
    LowerL3Greedy4Digits(s);
    LowerL3Greedy4Slash(s);
    MatchGreedy(s, 4, false, 5, 5, 5, 5, Candidate(5, 5, None));
  }

  /** The chord `G` at 4: moved by the reference reading. */
  lemma LowerL3Chord4(s: string)
    requires |s| == 13
    requires s[4] == 'G'
    ensures Transpose.ShiftedChord(Chord(s[4..5], s[5..5], None), 3) == "Bb"
  {
    assert s[4..5] == "G" && s[5..5] == "";
  }

  /** The plain text from position 5. */
  lemma LowerL3Text5(s: string)
    requires |s| == 13
    requires s[5] == ' ' && s[6] == ' ' && s[7] == '|' && s[8] == ' ' && s[9] == ' '
    ensures s[5..10] == "  |  "
  {
  }

  /** The chord `D` at 10: the root, after a word boundary. */
  lemma LowerL3Greedy10Root(s: string)
    requires |s| == 13
    requires s[9] == ' ' && s[10] == 'D' && s[11] == ' '
    ensures Boundary(s, 10) && RootEnd(s, 10) == 11
  {
  }

  /** The chord `D` at 10: the quality word. */
  lemma LowerL3Greedy10Quality(s: string)
    requires |s| == 13
    requires s[9] == ' ' && s[10] == 'D' && s[11] == ' '
    ensures QualityEnd(s, 11, Qualities) == 11
  {
    QualityEndFirst(s, 11);
  }

  /** The chord `D` at 10: the digits and the alteration. */
  lemma LowerL3Greedy10Digits(s: string)
    requires |s| == 13
    requires s[9] == ' ' && s[10] == 'D' && s[11] == ' '
    ensures DigitRun(s, 11) == 0 && AlterationEnd(s, 11) == 11
  {
  }

  /** The chord `D` at 10: the slash group and the closing boundary. */
  lemma LowerL3Greedy10Slash(s: string)
    requires |s| == 13
    requires s[9] == ' ' && s[10] == 'D' && s[11] == ' '
    ensures TrySlash(s, 11, 11, false) == Some(Candidate(11, 11, None))
  {
  }

  /** The chord `D` at 10: the whole match. */
  lemma LowerL3Match10(s: string)
    requires |s| == 13
    requires s[9] == ' ' && s[10] == 'D' && s[11] == ' '
    ensures MatchAt(s, 10, false) == Some(Candidate(11, 11, None))
  {
    LowerL3Greedy10Root(s);
    LowerL3Greedy10Quality(s);
    LowerL3Greedy10Digits(s);
    LowerL3Greedy10Slash(s);
    MatchGreedy(s, 10, false, 11, 11, 11, 11, Candidate(11, 11, None));
  }

  /** The chord `D` at 10: moved by the reference reading. */
  lemma LowerL3Chord10(s: string)
    requires |s| == 13
    requires s[10] == 'D'
    ensures Transpose.ShiftedChord(Chord(s[10..11], s[11..11], None), 3) == "F"
  {
    assert s[10..11] == "D" && s[11..11] == "";
  }

  /** The plain text from position 11. */
  lemma LowerL3Text11(s: string)
    requires |s| == 13
    requires s[11] == ' ' && s[12] == ' '
    ensures s[11..13] == "  "
  {
  }

  /** The scan from position 0 to the end. */
  lemma LowerL3From0(s: string)
    requires |s| == 13
    requires s[0] == ' ' && s[1] == ' ' && s[2] == ' ' && s[3] == ' ' && s[4] == 'G' && s[5] == ' ' && s[6] == ' ' && s[7] == '|'
    requires s[8] == ' ' && s[9] == ' ' && s[10] == 'D' && s[11] == ' ' && s[12] == ' '
    ensures Transpose.ShiftPieces(Tokenize(s, 0, false), 3) == "    " + ("Bb" + ("  |  " + ("F" + "  ")))
  {
    assert NoMatchFrom(s, 3, 4, false);
    assert NoMatchFrom(s, 2, 4, false);
    assert NoMatchFrom(s, 1, 4, false);
    assert NoMatchFrom(s, 0, 4, false);
    Transpose.ShiftScanPlain(s, 0, 4, false, 3, Transpose.ShiftPieces(Tokenize(s, 4, false), 3));
    LowerL3Text0(s);
    LowerL3From4(s);
  }

  /** The scan from position 4 to the end. */
  lemma LowerL3From4(s: string)
    requires |s| == 13
    requires s[3] == ' ' && s[4] == 'G' && s[5] == ' ' && s[6] == ' ' && s[7] == '|' && s[8] == ' ' && s[9] == ' ' && s[10] == 'D'
    requires s[11] == ' ' && s[12] == ' '
    ensures Transpose.ShiftPieces(Tokenize(s, 4, false), 3) == "Bb" + ("  |  " + ("F" + "  "))
  {
    LowerL3Match4(s);
    Transpose.ShiftScanChord(s, 4, false, Candidate(5, 5, None), Chord(s[4..5], s[5..5], None), 3, Transpose.ShiftPieces(Tokenize(s, 5, false), 3));
    LowerL3Chord4(s);
    LowerL3From5(s);
  }

  /** The scan from position 5 to the end. */
  lemma LowerL3From5(s: string)
    requires |s| == 13
    requires s[4] == 'G' && s[5] == ' ' && s[6] == ' ' && s[7] == '|' && s[8] == ' ' && s[9] == ' ' && s[10] == 'D' && s[11] == ' '
    requires s[12] == ' '
    ensures Transpose.ShiftPieces(Tokenize(s, 5, false), 3) == "  |  " + ("F" + "  ")
  {
    assert NoMatchFrom(s, 9, 10, false);
    assert NoMatchFrom(s, 8, 10, false);
    assert NoMatchFrom(s, 7, 10, false);
    assert NoMatchFrom(s, 6, 10, false);
    assert NoMatchFrom(s, 5, 10, false);
    Transpose.ShiftScanPlain(s, 5, 10, false, 3, Transpose.ShiftPieces(Tokenize(s, 10, false), 3));
    LowerL3Text5(s);
    LowerL3From10(s);
  }

  /** The scan from position 10 to the end. */
  lemma LowerL3From10(s: string)
    requires |s| == 13
    requires s[9] == ' ' && s[10] == 'D' && s[11] == ' ' && s[12] == ' '
    ensures Transpose.ShiftPieces(Tokenize(s, 10, false), 3) == "F" + "  "
  {
    LowerL3Match10(s);
    Transpose.ShiftScanChord(s, 10, false, Candidate(11, 11, None), Chord(s[10..11], s[11..11], None), 3, Transpose.ShiftPieces(Tokenize(s, 11, false), 3));
    LowerL3Chord10(s);
    LowerL3From11(s);
  }

  /** The scan from position 11 to the end. */
  lemma LowerL3From11(s: string)
    requires |s| == 13
    requires s[10] == 'D' && s[11] == ' ' && s[12] == ' '
    ensures Transpose.ShiftPieces(Tokenize(s, 11, false), 3) == "  "
  {
    assert NoMatchFrom(s, 12, 13, false);
    assert NoMatchFrom(s, 11, 13, false);
    Transpose.ShiftScanPlain(s, 11, 13, false, 3, Transpose.ShiftPieces(Tokenize(s, 13, false), 3));
    LowerL3Text11(s);
    assert Tokenize(s, 13, false) == [];
  }

  /** The text `    G  |  D  `, spelled one character at a time. */
  lemma LowerL3Line(s: string)
    requires |s| == 13
    requires s[0] == ' ' && s[1] == ' ' && s[2] == ' ' && s[3] == ' ' && s[4] == 'G' && s[5] == ' ' && s[6] == ' ' && s[7] == '|'
    requires s[8] == ' ' && s[9] == ' ' && s[10] == 'D' && s[11] == ' ' && s[12] == ' '
    ensures TransposeChordSheet(s, "G", "Bb") == "    Bb  |  F  "
  {
    assert "    " + ("Bb" + ("  |  " + ("F" + "  "))) == "    Bb  |  F  ";
    LowerL3From0(s);
    LowerDiff();
    CapoTest.SheetFromScan(s, "G", "Bb", 3, "    Bb  |  F  ");
  }

  // ----- line 5 of the Lower sheet -----

  /** The plain text from position 0. */
  lemma LowerL5Text0(s: string)
    requires |s| == 9
    requires s[0] == '[' && s[1] == 'V' && s[2] == 'e' && s[3] == 'r' && s[4] == 's' && s[5] == 'e' && s[6] == ' ' && s[7] == '1'
    ensures s[0..8] == "[Verse 1"
  {
  }

  /** The plain text from position 8. */
  lemma LowerL5Text8(s: string)
    requires |s| == 9
    requires s[8] == ']'
    ensures s[8..9] == "]"
  {
  }

  /** The scan from position 0 to the end. */
  lemma LowerL5From0(s: string)
    requires |s| == 9
    requires s[0] == '[' && s[1] == 'V' && s[2] == 'e' && s[3] == 'r' && s[4] == 's' && s[5] == 'e' && s[6] == ' ' && s[7] == '1'
    requires s[8] == ']'
    ensures Transpose.ShiftPieces(Tokenize(s, 0, false), 3) == "[Verse 1" + "]"
  {
    assert NoMatchFrom(s, 7, 8, false);
    assert NoMatchFrom(s, 6, 8, false);
    assert NoMatchFrom(s, 5, 8, false);
    assert NoMatchFrom(s, 4, 8, false);
    assert NoMatchFrom(s, 3, 8, false);
    assert NoMatchFrom(s, 2, 8, false);
    assert NoMatchFrom(s, 1, 8, false);
    assert NoMatchFrom(s, 0, 8, false);
    Transpose.ShiftScanPlain(s, 0, 8, false, 3, Transpose.ShiftPieces(Tokenize(s, 8, false), 3));
    LowerL5Text0(s);
    LowerL5From8(s);
  }

  /** The scan from position 8 to the end. */
  lemma LowerL5From8(s: string)
    requires |s| == 9
    requires s[7] == '1' && s[8] == ']'
    ensures Transpose.ShiftPieces(Tokenize(s, 8, false), 3) == "]"
  {
    assert NoMatchFrom(s, 8, 9, false);
    Transpose.ShiftScanPlain(s, 8, 9, false, 3, Transpose.ShiftPieces(Tokenize(s, 9, false), 3));
    LowerL5Text8(s);
    assert Tokenize(s, 9, false) == [];
  }

  /** The text `[Verse 1]`, spelled one character at a time. */
  lemma LowerL5Line(s: string)
    requires |s| == 9
    requires s[0] == '[' && s[1] == 'V' && s[2] == 'e' && s[3] == 'r' && s[4] == 's' && s[5] == 'e' && s[6] == ' ' && s[7] == '1'
    requires s[8] == ']'
    ensures TransposeChordSheet(s, "G", "Bb") == "[Verse 1]"
  {
    assert "[Verse 1" + "]" == "[Verse 1]";
    LowerL5From0(s);
    LowerDiff();
    CapoTest.SheetFromScan(s, "G", "Bb", 3, "[Verse 1]");
  }

  // ----- line 6 of the Lower sheet -----

  /** The plain text from position 0. */
  lemma LowerL6Text0(s: string)
    requires |s| == 16
    requires s[0] == ' ' && s[1] == ' ' && s[2] == ' '
    ensures s[0..3] == "   "
  {
  }

  /** The chord `G` at 3: the root, after a word boundary. */
  lemma LowerL6Greedy3Root(s: string)
    requires |s| == 16
    requires s[2] == ' ' && s[3] == 'G' && s[4] == ' '
    ensures Boundary(s, 3) && RootEnd(s, 3) == 4
  {
  }

  /** The chord `G` at 3: the quality word. */
  lemma LowerL6Greedy3Quality(s: string)
    requires |s| == 16
    requires s[2] == ' ' && s[3] == 'G' && s[4] == ' '
    ensures QualityEnd(s, 4, Qualities) == 4
  {
    QualityEndFirst(s, 4);
  }

  /** The chord `G` at 3: the digits and the alteration. */
  lemma LowerL6Greedy3Digits(s: string)
    requires |s| == 16
    requires s[2] == ' ' && s[3] == 'G' && s[4] == ' '
    ensures DigitRun(s, 4) == 0 && AlterationEnd(s, 4) == 4
  {
  }

  /** The chord `G` at 3: the slash group and the closing boundary. */
  lemma LowerL6Greedy3Slash(s: string)
    requires |s| == 16
    requires s[2] == ' ' && s[3] == 'G' && s[4] == ' '
    ensures TrySlash(s, 4, 4, false) == Some(Candidate(4, 4, None))
  {
  }

  /** The chord `G` at 3: the whole match. */
  lemma LowerL6Match3(s: string)
    requires |s| == 16
    requires s[2] == ' ' && s[3] == 'G' && s[4] == ' '
    ensures MatchAt(s, 3, false) == Some(Candidate(4, 4, None))
  {
    LowerL6Greedy3Root(s);
    LowerL6Greedy3Quality(s);
    LowerL6Greedy3Digits(s);
    LowerL6Greedy3Slash(s);
    MatchGreedy(s, 3, false, 4, 4, 4, 4, Candidate(4, 4, None));
  }

  /** The chord `G` at 3: moved by the reference reading. */
  lemma LowerL6Chord3(s: string)
    requires |s| == 16
    requires s[3] == 'G'
    ensures Transpose.ShiftedChord(Chord(s[3..4], s[4..4], None), 3) == "Bb"
  {
    assert s[3..4] == "G" && s[4..4] == "";
  }

  /** The plain text from position 4. */
  lemma LowerL6Text4(s: string)
    requires |s| == 16
    requires s[4] == ' ' && s[5] == ' ' && s[6] == ' ' && s[7] == ' ' && s[8] == ' ' && s[9] == ' ' && s[10] == ' ' && s[11] == ' '
    ensures s[4..12] == "        "
  {
  }

  /** The plain text from position 12. */
  lemma LowerL6Text12(s: string)
    requires |s| == 16
    requires s[12] == ' ' && s[13] == ' '
    ensures s[12..14] == "  "
  {
  }

  /** The chord `Em` at 14: the root, after a word boundary. */
  lemma LowerL6Greedy14Root(s: string)
    requires |s| == 16
    requires s[13] == ' ' && s[14] == 'E' && s[15] == 'm'
    ensures Boundary(s, 14) && RootEnd(s, 14) == 15
  {
  }

  /** The chord `Em` at 14: the quality word. */
  lemma LowerL6Greedy14Quality(s: string)
    requires |s| == 16
    requires s[13] == ' ' && s[14] == 'E' && s[15] == 'm'
    ensures QualityEnd(s, 15, Qualities) == 16
  {
    QualityEndFirst(s, 15);
  }

  /** The chord `Em` at 14: the digits and the alteration. */
  lemma LowerL6Greedy14Digits(s: string)
    requires |s| == 16
    requires s[13] == ' ' && s[14] == 'E' && s[15] == 'm'
    ensures DigitRun(s, 16) == 0 && AlterationEnd(s, 16) == 16
  {
  }

  /** The chord `Em` at 14: the slash group and the closing boundary. */
  lemma LowerL6Greedy14Slash(s: string)
    requires |s| == 16
    requires s[13] == ' ' && s[14] == 'E' && s[15] == 'm'
    ensures TrySlash(s, 15, 16, false) == Some(Candidate(15, 16, None))
  {
  }

  /** The chord `Em` at 14: the whole match. */
  lemma LowerL6Match14(s: string)
    requires |s| == 16
    requires s[13] == ' ' && s[14] == 'E' && s[15] == 'm'
    ensures MatchAt(s, 14, false) == Some(Candidate(15, 16, None))
  {
    LowerL6Greedy14Root(s);
    LowerL6Greedy14Quality(s);
    LowerL6Greedy14Digits(s);
    LowerL6Greedy14Slash(s);
    MatchGreedy(s, 14, false, 15, 16, 16, 16, Candidate(15, 16, None));
  }

  /** The chord `Em` at 14: moved by the reference reading. */
  lemma LowerL6Chord14(s: string)
    requires |s| == 16
    requires s[14] == 'E' && s[15] == 'm'
    ensures Transpose.ShiftedChord(Chord(s[14..15], s[15..16], None), 3) == "Gm"
  {
    assert s[14..15] == "E" && s[15..16] == "m";
  }

  /** The scan from position 0 to the end. */
  lemma LowerL6From0(s: string)
    requires |s| == 16
    requires s[0] == ' ' && s[1] == ' ' && s[2] == ' ' && s[3] == 'G' && s[4] == ' ' && s[5] == ' ' && s[6] == ' ' && s[7] == ' '
    requires s[8] == ' ' && s[9] == ' ' && s[10] == ' ' && s[11] == ' ' && s[12] == ' ' && s[13] == ' ' && s[14] == 'E' && s[15] == 'm'
    ensures Transpose.ShiftPieces(Tokenize(s, 0, false), 3) == "   " + ("Bb" + ("        " + ("  " + "Gm")))
  {
    assert NoMatchFrom(s, 2, 3, false);
    assert NoMatchFrom(s, 1, 3, false);
    assert NoMatchFrom(s, 0, 3, false);
    Transpose.ShiftScanPlain(s, 0, 3, false, 3, Transpose.ShiftPieces(Tokenize(s, 3, false), 3));
    LowerL6Text0(s);
    LowerL6From3(s);
  }

  /** The scan from position 3 to the end. */
  lemma LowerL6From3(s: string)
    requires |s| == 16
    requires s[2] == ' ' && s[3] == 'G' && s[4] == ' ' && s[5] == ' ' && s[6] == ' ' && s[7] == ' ' && s[8] == ' ' && s[9] == ' '
    requires s[10] == ' ' && s[11] == ' ' && s[12] == ' ' && s[13] == ' ' && s[14] == 'E' && s[15] == 'm'
    ensures Transpose.ShiftPieces(Tokenize(s, 3, false), 3) == "Bb" + ("        " + ("  " + "Gm"))
  {
    LowerL6Match3(s);
    Transpose.ShiftScanChord(s, 3, false, Candidate(4, 4, None), Chord(s[3..4], s[4..4], None), 3, Transpose.ShiftPieces(Tokenize(s, 4, false), 3));
    LowerL6Chord3(s);
    LowerL6From4(s);
  }

  /** The scan from position 4 to the end. */
  lemma LowerL6From4(s: string)
    requires |s| == 16
    requires s[3] == 'G' && s[4] == ' ' && s[5] == ' ' && s[6] == ' ' && s[7] == ' ' && s[8] == ' ' && s[9] == ' ' && s[10] == ' '
    requires s[11] == ' ' && s[12] == ' ' && s[13] == ' ' && s[14] == 'E' && s[15] == 'm'
    ensures Transpose.ShiftPieces(Tokenize(s, 4, false), 3) == "        " + ("  " + "Gm")
  {
    assert NoMatchFrom(s, 11, 12, false);
    assert NoMatchFrom(s, 10, 12, false);
    assert NoMatchFrom(s, 9, 12, false);
    assert NoMatchFrom(s, 8, 12, false);
    assert NoMatchFrom(s, 7, 12, false);
    assert NoMatchFrom(s, 6, 12, false);
    assert NoMatchFrom(s, 5, 12, false);
    assert NoMatchFrom(s, 4, 12, false);
    Transpose.ShiftScanPlain(s, 4, 12, false, 3, Transpose.ShiftPieces(Tokenize(s, 12, false), 3));
    LowerL6Text4(s);
    LowerL6From12(s);
  }

  /** The scan from position 12 to the end. */
  lemma LowerL6From12(s: string)
    requires |s| == 16
    requires s[11] == ' ' && s[12] == ' ' && s[13] == ' ' && s[14] == 'E' && s[15] == 'm'
    ensures Transpose.ShiftPieces(Tokenize(s, 12, false), 3) == "  " + "Gm"
  {
    assert NoMatchFrom(s, 13, 14, false);
    assert NoMatchFrom(s, 12, 14, false);
    Transpose.ShiftScanPlain(s, 12, 14, false, 3, Transpose.ShiftPieces(Tokenize(s, 14, false), 3));
    LowerL6Text12(s);
    LowerL6From14(s);
  }

  /** The scan from position 14 to the end. */
  lemma LowerL6From14(s: string)
    requires |s| == 16
    requires s[13] == ' ' && s[14] == 'E' && s[15] == 'm'
    ensures Transpose.ShiftPieces(Tokenize(s, 14, false), 3) == "Gm"
  {
    LowerL6Match14(s);
    Transpose.ShiftScanChord(s, 14, false, Candidate(15, 16, None), Chord(s[14..15], s[15..16], None), 3, Transpose.ShiftPieces(Tokenize(s, 16, false), 3));
    LowerL6Chord14(s);
    assert Tokenize(s, 16, false) == [];
  }

  /** The text `   G          Em`, spelled one character at a time. */
  lemma LowerL6Line(s: string)
    requires |s| == 16
    requires s[0] == ' ' && s[1] == ' ' && s[2] == ' ' && s[3] == 'G' && s[4] == ' ' && s[5] == ' ' && s[6] == ' ' && s[7] == ' '
    requires s[8] == ' ' && s[9] == ' ' && s[10] == ' ' && s[11] == ' ' && s[12] == ' ' && s[13] == ' ' && s[14] == 'E' && s[15] == 'm'
    ensures TransposeChordSheet(s, "G", "Bb") == "   Bb          Gm"
  {
    assert "   " + ("Bb" + ("        " + ("  " + "Gm"))) == "   Bb          Gm";
    LowerL6From0(s);
    LowerDiff();
    CapoTest.SheetFromScan(s, "G", "Bb", 3, "   Bb          Gm");
  }

  /** The chords of the other lines move by this many semitones. */
  lemma LowerDiff()
    ensures SheetDiff("G", "Bb") == Some(3)
  {
  }

  /** The characters of the line the Key header rewrite gives. */
  lemma LowerKeyedChars()
    ensures var t := "Key: " + "Bb" + " (AG:" + "Bb" + ")" + "   Capo:" + " " + "3";
      |t| == 25
      && t[0] == 'K' && t[1] == 'e' && t[2] == 'y' && t[3] == ':' && t[4] == ' ' && t[5] == 'B' && t[6] == 'b' && t[7] == ' '
      && t[8] == '(' && t[9] == 'A' && t[10] == 'G' && t[11] == ':' && t[12] == 'B' && t[13] == 'b' && t[14] == ')' && t[15] == ' '
      && t[16] == ' ' && t[17] == ' ' && t[18] == 'C' && t[19] == 'a' && t[20] == 'p' && t[21] == 'o' && t[22] == ':' && t[23] == ' '
      && t[24] == '3'
  {
  }

  /** The Capo field of the line the Key header rewrite gives gets the new
      capo; the rest of the sheet holds no other Capo field. */
  lemma LowerCapoField(rest: string)
    requires PairFree(rest, 'C', 'A') && (rest == [] || rest[0] == '\n')
    ensures ReplaceCapo("Key: " + "Bb" + " (AG:" + "Bb" + ")" + "   Capo:" + " " + "3" + rest, 0, 0) == "Key: Bb (AG:" + "Bb)   Capo: 0" + rest
  {
    assert "Key: " + "Bb" + " (AG:" + "Bb" + ")" + "   Capo:" + " " + "0" == "Key: Bb (AG:" + "Bb)   Capo: 0";
    LowerKeyedChars();
    LowerCapo("Key: " + "Bb" + " (AG:" + "Bb" + ")" + "   Capo:" + " " + "3", rest);
  }

  /** The first line: both fields rewritten, and the guitar key. */
  lemma LowerFirstLine(l0: string, rest: string)
    requires |l0| == 24
    requires l0[0] == 'K' && l0[1] == 'e' && l0[2] == 'y' && l0[3] == ':' && l0[4] == ' ' && l0[5] == 'B' && l0[6] == 'b' && l0[7] == ' '
    requires l0[8] == '(' && l0[9] == 'A' && l0[10] == 'G' && l0[11] == ':' && l0[12] == 'G' && l0[13] == ')' && l0[14] == ' ' && l0[15] == ' '
    requires l0[16] == ' ' && l0[17] == 'C' && l0[18] == 'a' && l0[19] == 'p' && l0[20] == 'o' && l0[21] == ':' && l0[22] == ' ' && l0[23] == '3'
    requires PairFree(rest, 'K', 'E') && PairFree(rest, 'C', 'A') && (rest == [] || rest[0] == '\n')
    ensures FirstLineRewritten(l0, rest, "Bb", 0, "Bb", "Key: " + "Bb" + " (AG:" + "Bb" + ")" + "   Capo:" + " " + "3", "Key: Bb (AG:" + "Bb)   Capo: 0")
  {
    LowerHeader(l0, rest);
    LowerCapoField(rest);
    LowerFirst();
    LowerGuitar();
  }

  /** The rewritten first line is a Key line of one line. */
  lemma LowerFirst()
    ensures NoNewline("Key: Bb (AG:" + "Bb)   Capo: 0") && HasKeyLabel("Key: Bb (AG:" + "Bb)   Capo: 0")
  {
    KeyLabelFirst("Key: Bb (AG:" + "Bb)   Capo: 0");
  }

  /** The guitar key: the key moved down by the capo. */
  lemma LowerGuitar()
    ensures TransposedChord("Bb", -0) == Ok("Bb")
  {
    GuitarKeyIs("Bb", 0, "Bb");
  }

  /** The other lines hold no field. */
  lemma LowerPlain(l1: string, l2: string, l3: string, l4: string, l5: string, l6: string)
    requires NoNewline(l1) && PairFree(l1, 'K', 'E') && PairFree(l1, 'C', 'A')
    requires NoNewline(l2) && PairFree(l2, 'K', 'E') && PairFree(l2, 'C', 'A')
    requires NoNewline(l3) && PairFree(l3, 'K', 'E') && PairFree(l3, 'C', 'A')
    requires NoNewline(l4) && PairFree(l4, 'K', 'E') && PairFree(l4, 'C', 'A')
    requires NoNewline(l5) && PairFree(l5, 'K', 'E') && PairFree(l5, 'C', 'A')
    requires NoNewline(l6) && PairFree(l6, 'K', 'E') && PairFree(l6, 'C', 'A')
    ensures PlainLines([l1, l2, l3, l4, l5, l6])
  {
  }

  /** The other lines, each transposed on its own. */
  lemma LowerOthers(l1: string, l2: string, l3: string, l4: string, l5: string, l6: string)
    requires l1 == ""
    requires TransposeChordSheet(l2, "G", "Bb") == "[Pre]"
    requires TransposeChordSheet(l3, "G", "Bb") == "    Bb " + " |  F  "
    requires l4 == ""
    requires TransposeChordSheet(l5, "G", "Bb") == "[Verse 1]"
    requires TransposeChordSheet(l6, "G", "Bb") == "   Bb   " + "       Gm"
    ensures LinesTransposed([l1, l2, l3, l4, l5, l6], "G", "Bb", [l1, "[Pre]", "    Bb " + " |  F  ", l4, "[Verse 1]", "   Bb   " + "       Gm"])
  {
    var ls := [l1, l2, l3, l4, l5, l6];
    var os := [l1, "[Pre]", "    Bb " + " |  F  ", l4, "[Verse 1]", "   Bb   " + "       Gm"];
    forall k | 0 <= k < |ls| ensures TransposeChordSheet(ls[k], "G", "Bb") == os[k] {
      if k == 0 { } else if k == 1 { } else if k == 2 { } else if k == 3 { } else if k == 4 { } else { }
    }
  }

  /** The whole sheet, its first line spelled one character at a time. */
  lemma LowerSheet(l0: string, l1: string, l2: string, l3: string, l4: string, l5: string, l6: string)
    requires |l0| == 24
    requires l0[0] == 'K' && l0[1] == 'e' && l0[2] == 'y' && l0[3] == ':' && l0[4] == ' ' && l0[5] == 'B' && l0[6] == 'b' && l0[7] == ' '
    requires l0[8] == '(' && l0[9] == 'A' && l0[10] == 'G' && l0[11] == ':' && l0[12] == 'G' && l0[13] == ')' && l0[14] == ' ' && l0[15] == ' '
    requires l0[16] == ' ' && l0[17] == 'C' && l0[18] == 'a' && l0[19] == 'p' && l0[20] == 'o' && l0[21] == ':' && l0[22] == ' ' && l0[23] == '3'
    requires NoNewline(l1) && PairFree(l1, 'K', 'E') && PairFree(l1, 'C', 'A')
    requires NoNewline(l2) && PairFree(l2, 'K', 'E') && PairFree(l2, 'C', 'A')
    requires NoNewline(l3) && PairFree(l3, 'K', 'E') && PairFree(l3, 'C', 'A')
    requires NoNewline(l4) && PairFree(l4, 'K', 'E') && PairFree(l4, 'C', 'A')
    requires NoNewline(l5) && PairFree(l5, 'K', 'E') && PairFree(l5, 'C', 'A')
    requires NoNewline(l6) && PairFree(l6, 'K', 'E') && PairFree(l6, 'C', 'A')
    requires l1 == ""
    requires TransposeChordSheet(l2, "G", "Bb") == "[Pre]"
    requires TransposeChordSheet(l3, "G", "Bb") == "    Bb " + " |  F  "
    requires l4 == ""
    requires TransposeChordSheet(l5, "G", "Bb") == "[Verse 1]"
    requires TransposeChordSheet(l6, "G", "Bb") == "   Bb   " + "       Gm"
    ensures SimulateCapoChange(Join([l0] + [l1, l2, l3, l4, l5, l6]), "Bb", "G", 0) == Ok(Join(["Key: Bb (AG:" + "Bb)   Capo: 0"] + [l1, "[Pre]", "    Bb " + " |  F  ", l4, "[Verse 1]", "   Bb   " + "       Gm"]))
  {
    LowerPlain(l1, l2, l3, l4, l5, l6);
    LowerOthers(l1, l2, l3, l4, l5, l6);
    RestIsPlain(l0, [l1, l2, l3, l4, l5, l6]);
    LowerFirstLine(l0, RestOfSheet([l0] + [l1, l2, l3, l4, l5, l6]));
    SheetOfLines(l0, [l1, l2, l3, l4, l5, l6], "Bb", "G", 0, "Bb", "Key: " + "Bb" + " (AG:" + "Bb" + ")" + "   Capo:" + " " + "3", "Key: Bb (AG:" + "Bb)   Capo: 0", [l1, "[Pre]", "    Bb " + " |  F  ", l4, "[Verse 1]", "   Bb   " + "       Gm"]);
  }

  /** Line 2 of the sheet holds no line break and no Key or Capo label. */
  lemma LowerFacts2()
    ensures var t := "[Pre]";
      NoNewline(t) && PairFree(t, 'K', 'E') && PairFree(t, 'C', 'A')
  {
  }

  /** Line 2 of the sheet, transposed on its own. */
  lemma LowerL2Lit()
    ensures TransposeChordSheet("[Pre]", "G", "Bb") == "[Pre]"
  {
    assert var t := "[Pre]";
      |t| == 5
      && t[0] == '[' && t[1] == 'P' && t[2] == 'r' && t[3] == 'e' && t[4] == ']';
    LowerL2Line("[Pre]");
  }

  /** Line 3 of the sheet holds no line break and no Key or Capo label. */
  lemma LowerFacts3()
    ensures var t := "    G " + " |  D  ";
      NoNewline(t) && PairFree(t, 'K', 'E') && PairFree(t, 'C', 'A')
  {
  }

  /** Line 3 of the sheet, transposed on its own. */
  lemma LowerL3Lit()
    ensures TransposeChordSheet("    G " + " |  D  ", "G", "Bb") == "    Bb " + " |  F  "
  {
    assert var t := "    G " + " |  D  ";
      |t| == 13
      && t[0] == ' ' && t[1] == ' ' && t[2] == ' ' && t[3] == ' ' && t[4] == 'G' && t[5] == ' ' && t[6] == ' ' && t[7] == '|'
      && t[8] == ' ' && t[9] == ' ' && t[10] == 'D' && t[11] == ' ' && t[12] == ' ';
    LowerL3Line("    G " + " |  D  ");
  }

  /** Line 5 of the sheet holds no line break and no Key or Capo label. */
  lemma LowerFacts5()
    ensures var t := "[Verse 1]";
      NoNewline(t) && PairFree(t, 'K', 'E') && PairFree(t, 'C', 'A')
  {
  }

  /** Line 5 of the sheet, transposed on its own. */
  lemma LowerL5Lit()
    ensures TransposeChordSheet("[Verse 1]", "G", "Bb") == "[Verse 1]"
  {
    assert var t := "[Verse 1]";
      |t| == 9
      && t[0] == '[' && t[1] == 'V' && t[2] == 'e' && t[3] == 'r' && t[4] == 's' && t[5] == 'e' && t[6] == ' ' && t[7] == '1'
      && t[8] == ']';
    LowerL5Line("[Verse 1]");
  }

  /** Line 6 of the sheet holds no line break and no Key or Capo label. */
  lemma LowerFacts6()
    ensures var t := "   G    " + "      Em";
      NoNewline(t) && PairFree(t, 'K', 'E') && PairFree(t, 'C', 'A')
  {
  }

  /** Line 6 of the sheet, transposed on its own. */
  lemma LowerL6Lit()
    ensures TransposeChordSheet("   G    " + "      Em", "G", "Bb") == "   Bb   " + "       Gm"
  {
    assert var t := "   G    " + "      Em";
      |t| == 16
      && t[0] == ' ' && t[1] == ' ' && t[2] == ' ' && t[3] == 'G' && t[4] == ' ' && t[5] == ' ' && t[6] == ' ' && t[7] == ' '
      && t[8] == ' ' && t[9] == ' ' && t[10] == ' ' && t[11] == ' ' && t[12] == ' ' && t[13] == ' ' && t[14] == 'E' && t[15] == 'm';
    LowerL6Line("   G    " + "      Em");
  }

  /** capo_test.js:122-152: taking the capo from 3 to 0 keeps the key Bb, makes it the guitar key, and moves the chords up from G to Bb. */
  lemma LowerCase()
    ensures SimulateCapoChange(Join(["Key: Bb (AG:" + "G)   Capo: 3", "", "[Pre]", "    G " + " |  D  ", "", "[Verse 1]", "   G    " + "      Em"]), "Bb", "G", 0)
            == Ok(Join(["Key: Bb (AG:" + "Bb)   Capo: 0", "", "[Pre]", "    Bb " + " |  F  ", "", "[Verse 1]", "   Bb   " + "       Gm"]))
  {
    assert var t := "Key: Bb (AG:" + "G)   Capo: 3";
      |t| == 24
      && t[0] == 'K' && t[1] == 'e' && t[2] == 'y' && t[3] == ':' && t[4] == ' ' && t[5] == 'B' && t[6] == 'b' && t[7] == ' '
      && t[8] == '(' && t[9] == 'A' && t[10] == 'G' && t[11] == ':' && t[12] == 'G' && t[13] == ')' && t[14] == ' ' && t[15] == ' '
      && t[16] == ' ' && t[17] == 'C' && t[18] == 'a' && t[19] == 'p' && t[20] == 'o' && t[21] == ':' && t[22] == ' ' && t[23] == '3';
    LowerFacts2();
    LowerL2Lit();
    LowerFacts3();
    LowerL3Lit();
    LowerFacts5();
    LowerL5Lit();
    LowerFacts6();
    LowerL6Lit();
    LowerSheet("Key: Bb (AG:" + "G)   Capo: 3", "", "[Pre]", "    G " + " |  D  ", "", "[Verse 1]", "   G    " + "      Em");
  }

  // ----- the capo put on fret 3 -----

  /** The Key header pattern matches at the start of the first line. */
  lemma RaiseHeaderAt(s: string)
    requires |s| >= 15
    requires s[0] == 'K' && s[1] == 'e' && s[2] == 'y' && s[3] == ':' && s[4] == ' ' && s[5] == 'B' && s[6] == 'b' && s[7] == ' '
    requires s[8] == '(' && s[9] == 'A' && s[10] == 'G' && s[11] == ':' && s[12] == 'B' && s[13] == 'b' && s[14] == ')'
    ensures KeyHeaderAt(s, 0) == Some(Header(5, 7, 12, 14, 15))
  {
    assert WordAtI(s, "KEY", 0, 3);
    assert WordAtI(s, "KEY", 0, 2);
    assert WordAtI(s, "KEY", 0, 1);
    assert WordAtI(s, "KEY", 0, 0);
    assert SpaceEnd(s, 3) == 3;
    assert LabelColonEnd(s, "KEY", 0) == Some(4);
    assert SpaceEnd(s, 5) == 5;
    assert SpaceEnd(s, 4) == 5;
    assert NoteEndI(s, 5) == Some(7);
    assert SpaceEnd(s, 8) == 8;
    assert SpaceEnd(s, 7) == 8;
    assert SpaceEnd(s, 9) == 9;
    assert WordAtI(s, "AG", 9, 2);
    assert WordAtI(s, "AG", 9, 1);
    assert WordAtI(s, "AG", 9, 0);
    assert SpaceEnd(s, 11) == 11;
    assert LabelColonEnd(s, "AG", 9) == Some(12);
    assert SpaceEnd(s, 12) == 12;
    assert NoteEndI(s, 12) == Some(14);
    assert SpaceEnd(s, 14) == 14;
  }

  /** After the Key header, no Key label starts on the first line. */
  lemma RaiseHeaderTail(t: string, rest: string)
    requires |t| == 25
    requires t[15] == ' ' && t[16] == ' ' && t[17] == ' ' && t[18] == 'C' && t[19] == 'a' && t[20] == 'p' && t[21] == 'o' && t[22] == ':'
    requires t[23] == ' ' && t[24] == '0'
    requires rest == [] || rest[0] == '\n'
    ensures NoPairIn(t + rest, 15, |t|, 'K', 'E')
  {
    var s := t + rest;
    assert NoPairIn(s, 24, |t|, 'K', 'E');
    assert NoPairIn(s, 23, |t|, 'K', 'E');
    assert NoPairIn(s, 22, |t|, 'K', 'E');
    assert NoPairIn(s, 21, |t|, 'K', 'E');
    assert NoPairIn(s, 20, |t|, 'K', 'E');
    assert NoPairIn(s, 19, |t|, 'K', 'E');
    assert NoPairIn(s, 18, |t|, 'K', 'E');
    assert NoPairIn(s, 17, |t|, 'K', 'E');
    assert NoPairIn(s, 16, |t|, 'K', 'E');
    assert NoPairIn(s, 15, |t|, 'K', 'E');
  }

  /** The parts of the first line that the Key header rewrite keeps. */
  lemma RaiseHeaderPieces(t: string, rest: string)
    requires |t| == 25
    requires t[0] == 'K' && t[1] == 'e' && t[2] == 'y' && t[3] == ':' && t[4] == ' ' && t[5] == 'B' && t[6] == 'b' && t[7] == ' '
    requires t[8] == '(' && t[9] == 'A' && t[10] == 'G' && t[11] == ':' && t[12] == 'B' && t[13] == 'b' && t[14] == ')' && t[15] == ' '
    requires t[16] == ' ' && t[17] == ' ' && t[18] == 'C' && t[19] == 'a' && t[20] == 'p' && t[21] == 'o' && t[22] == ':' && t[23] == ' '
    requires t[24] == '0'
    ensures var s := t + rest;
      s[0..5] == "Key: " && s[7..12] == " (AG:" && s[14..15] == ")" && s[15..|t|] == "   Capo:" + " " + "0"
  {
  }

  /** The kept parts and the new keys put back together. */
  lemma RaiseHeaderText(s: string, x: string, rest: string)
    requires |s| >= 15 && s[0..5] == "Key: " && s[7..12] == " (AG:" && s[14..15] == ")"
    requires x == "   Capo:" + " " + "0"
    ensures s[0..5] + "Bb" + s[7..12] + "G" + s[14..15] + (x + rest) == "Key: " + "Bb" + " (AG:" + "G" + ")" + "   Capo:" + " " + "0" + rest
  {
  }

  /** The Key header of the first line gets the key and the guitar key; the
      rest of the sheet holds no other header. */
  lemma RaiseHeader(t: string, rest: string)
    requires |t| == 25
    requires t[0] == 'K' && t[1] == 'e' && t[2] == 'y' && t[3] == ':' && t[4] == ' ' && t[5] == 'B' && t[6] == 'b' && t[7] == ' '
    requires t[8] == '(' && t[9] == 'A' && t[10] == 'G' && t[11] == ':' && t[12] == 'B' && t[13] == 'b' && t[14] == ')' && t[15] == ' '
    requires t[16] == ' ' && t[17] == ' ' && t[18] == 'C' && t[19] == 'a' && t[20] == 'p' && t[21] == 'o' && t[22] == ':' && t[23] == ' '
    requires t[24] == '0'
    requires PairFree(rest, 'K', 'E') && (rest == [] || rest[0] == '\n')
    ensures ReplaceKeyHeaders(t + rest, 0, "Bb", "G") == "Key: " + "Bb" + " (AG:" + "G" + ")" + "   Capo:" + " " + "0" + rest
  {
    var s := t + rest;
    RaiseHeaderAt(s);
    HeaderFound(s, 0, Header(5, 7, 12, 14, 15), "Bb", "G");
    RaiseHeaderTail(t, rest);
    HeadersCopied(s, 15, |t|, "Bb", "G");
    HeadersAfter(t, rest, "Bb", "G");
    RaiseHeaderPieces(t, rest);
    RaiseHeaderText(s, s[15..|t|], rest);
  }

  /** The Capo pattern matches where the Capo field starts. */
  lemma RaiseCapoAt(s: string)
    requires |s| >= 24 && (|s| == 24 || s[24] == '\n')
    requires s[17] == 'C' && s[18] == 'a' && s[19] == 'p' && s[20] == 'o' && s[21] == ':' && s[22] == ' ' && s[23] == '0'
    ensures CapoAt(s, 17) == Some((23, 24))
  {
    assert WordAtI(s, "CAPO", 17, 4);
    assert WordAtI(s, "CAPO", 17, 3);
    assert WordAtI(s, "CAPO", 17, 2);
    assert WordAtI(s, "CAPO", 17, 1);
    assert WordAtI(s, "CAPO", 17, 0);
    assert SpaceEnd(s, 21) == 21;
    assert SpaceEnd(s, 23) == 23;
    assert SpaceEnd(s, 22) == 23;
    assert LabelColonEnd(s, "CAPO", 17) == Some(22);
    assert DigitRun(s, 24) == 0;
    assert DigitRun(s, 23) == 1;
  }

  /** No Capo label starts before the Capo field. */
  lemma RaiseCapoBefore(s: string)
    requires |s| > 17
    requires s[0] == 'K' && s[1] == 'e' && s[2] == 'y' && s[3] == ':' && s[4] == ' ' && s[5] == 'B' && s[6] == 'b' && s[7] == ' '
    requires s[8] == '(' && s[9] == 'A' && s[10] == 'G' && s[11] == ':' && s[12] == 'G' && s[13] == ')' && s[14] == ' ' && s[15] == ' '
    requires s[16] == ' ' && s[17] == 'C'
    ensures NoPairIn(s, 0, 17, 'C', 'A')
  {
    assert NoPairIn(s, 16, 17, 'C', 'A');
    assert NoPairIn(s, 15, 17, 'C', 'A');
    assert NoPairIn(s, 14, 17, 'C', 'A');
    assert NoPairIn(s, 13, 17, 'C', 'A');
    assert NoPairIn(s, 12, 17, 'C', 'A');
    assert NoPairIn(s, 11, 17, 'C', 'A');
    assert NoPairIn(s, 10, 17, 'C', 'A');
    assert NoPairIn(s, 9, 17, 'C', 'A');
    assert NoPairIn(s, 8, 17, 'C', 'A');
    assert NoPairIn(s, 7, 17, 'C', 'A');
    assert NoPairIn(s, 6, 17, 'C', 'A');
    assert NoPairIn(s, 5, 17, 'C', 'A');
    assert NoPairIn(s, 4, 17, 'C', 'A');
    assert NoPairIn(s, 3, 17, 'C', 'A');
    assert NoPairIn(s, 2, 17, 'C', 'A');
    assert NoPairIn(s, 1, 17, 'C', 'A');
    assert NoPairIn(s, 0, 17, 'C', 'A');
  }

  /** The part of the line that the Capo rewrite keeps. */
  lemma RaiseCapoPieces(t: string, rest: string)
    requires |t| == 24
    requires t[0] == 'K' && t[1] == 'e' && t[2] == 'y' && t[3] == ':' && t[4] == ' ' && t[5] == 'B' && t[6] == 'b' && t[7] == ' '
    requires t[8] == '(' && t[9] == 'A' && t[10] == 'G' && t[11] == ':' && t[12] == 'G' && t[13] == ')' && t[14] == ' ' && t[15] == ' '
    requires t[16] == ' ' && t[17] == 'C' && t[18] == 'a' && t[19] == 'p' && t[20] == 'o' && t[21] == ':' && t[22] == ' ' && t[23] == '0'
    ensures var s := t + rest; s[0..17] + s[17..23] == "Key: " + "Bb" + " (AG:" + "G" + ")" + "   Capo:" + " "
  {
  }

  /** The kept part and the new capo put back together. */
  lemma RaiseCapoText(s: string, x: string, rest: string)
    requires |s| >= 23 && s[0..17] + s[17..23] == "Key: " + "Bb" + " (AG:" + "G" + ")" + "   Capo:" + " " && x == rest
    ensures s[0..17] + (s[17..23] + Decimal(3) + x) == "Key: " + "Bb" + " (AG:" + "G" + ")" + "   Capo:" + " " + "3" + rest
  {
  }

  /** The Capo field of the rewritten first line gets the new capo; the rest
      of the sheet holds no other Capo field. */
  lemma RaiseCapo(t: string, rest: string)
    requires |t| == 24
    requires t[0] == 'K' && t[1] == 'e' && t[2] == 'y' && t[3] == ':' && t[4] == ' ' && t[5] == 'B' && t[6] == 'b' && t[7] == ' '
    requires t[8] == '(' && t[9] == 'A' && t[10] == 'G' && t[11] == ':' && t[12] == 'G' && t[13] == ')' && t[14] == ' ' && t[15] == ' '
    requires t[16] == ' ' && t[17] == 'C' && t[18] == 'a' && t[19] == 'p' && t[20] == 'o' && t[21] == ':' && t[22] == ' ' && t[23] == '0'
    requires PairFree(rest, 'C', 'A') && (rest == [] || rest[0] == '\n')
    ensures ReplaceCapo(t + rest, 0, 3) == "Key: " + "Bb" + " (AG:" + "G" + ")" + "   Capo:" + " " + "3" + rest
  {
    var s := t + rest;
    RaiseCapoBefore(s);
    CapoCopied(s, 0, 17, 3);
    RaiseCapoAt(s);
    CapoFound(s, 17, 23, 24, 3);
    RaiseCapoPieces(t, rest);
    CapoAfter(t, rest, 3);
    RaiseCapoText(s, ReplaceCapo(s, 24, 3), rest);
  }

  // ----- line 2 of the Raise sheet -----

  /** The plain text from position 0. */
  lemma RaiseL2Text0(s: string)
    requires |s| == 5
    requires s[0] == '[' && s[1] == 'P' && s[2] == 'r' && s[3] == 'e' && s[4] == ']'
    ensures s[0..5] == "[Pre]"
  {
  }

  /** The scan from position 0 to the end. */
  lemma RaiseL2From0(s: string)
    requires |s| == 5
    requires s[0] == '[' && s[1] == 'P' && s[2] == 'r' && s[3] == 'e' && s[4] == ']'
    ensures Transpose.ShiftPieces(Tokenize(s, 0, false), 9) == "[Pre]"
  {
    assert NoMatchFrom(s, 4, 5, false);
    assert NoMatchFrom(s, 3, 5, false);
    assert NoMatchFrom(s, 2, 5, false);
    assert NoMatchFrom(s, 1, 5, false);
    assert NoMatchFrom(s, 0, 5, false);
    Transpose.ShiftScanPlain(s, 0, 5, false, 9, Transpose.ShiftPieces(Tokenize(s, 5, false), 9));
    RaiseL2Text0(s);
    assert Tokenize(s, 5, false) == [];
  }

  /** The text `[Pre]`, spelled one character at a time. */
  lemma RaiseL2Line(s: string)
    requires |s| == 5
    requires s[0] == '[' && s[1] == 'P' && s[2] == 'r' && s[3] == 'e' && s[4] == ']'
    ensures TransposeChordSheet(s, "Bb", "G") == "[Pre]"
  {
    RaiseL2From0(s);
    RaiseDiff();
    CapoTest.SheetFromScan(s, "Bb", "G", 9, "[Pre]");
  }

  // ----- line 3 of the Raise sheet -----

  /** The plain text from position 0. */
  lemma RaiseL3Text0(s: string)
    requires |s| == 14
    requires s[0] == ' ' && s[1] == ' ' && s[2] == ' ' && s[3] == ' '
    ensures s[0..4] == "    "
  {
  }

  /** The chord `Bb` at 4: the root, after a word boundary. */
  lemma RaiseL3Greedy4Root(s: string)
    requires |s| == 14
    requires s[3] == ' ' && s[4] == 'B' && s[5] == 'b' && s[6] == ' '
    ensures Boundary(s, 4) && RootEnd(s, 4) == 6
  {
  }

  /** The chord `Bb` at 4: the quality word. */
  lemma RaiseL3Greedy4Quality(s: string)
    requires |s| == 14
    requires s[3] == ' ' && s[4] == 'B' && s[5] == 'b' && s[6] == ' '
    ensures QualityEnd(s, 6, Qualities) == 6
  {
    QualityEndFirst(s, 6);
  }

  /** The chord `Bb` at 4: the digits and the alteration. */
  lemma RaiseL3Greedy4Digits(s: string)
    requires |s| == 14
    requires s[3] == ' ' && s[4] == 'B' && s[5] == 'b' && s[6] == ' '
    ensures DigitRun(s, 6) == 0 && AlterationEnd(s, 6) == 6
  {
  }

  /** The chord `Bb` at 4: the slash group and the closing boundary. */
  lemma RaiseL3Greedy4Slash(s: string)
    requires |s| == 14
    requires s[3] == ' ' && s[4] == 'B' && s[5] == 'b' && s[6] == ' '
    ensures TrySlash(s, 6, 6, false) == Some(Candidate(6, 6, None))
  {
  }

  /** The chord `Bb` at 4: the whole match. */
  lemma RaiseL3Match4(s: string)
    requires |s| == 14
    requires s[3] == ' ' && s[4] == 'B' && s[5] == 'b' && s[6] == ' '
    ensures MatchAt(s, 4, false) == Some(Candidate(6, 6, None))
  {
    RaiseL3Greedy4Root(s);
    RaiseL3Greedy4Quality(s);
    RaiseL3Greedy4Digits(s);
    RaiseL3Greedy4Slash(s);
    MatchGreedy(s, 4, false, 6, 6, 6, 6, Candidate(6, 6, None));
  }

  /** The chord `Bb` at 4: moved by the reference reading. */
  lemma RaiseL3Chord4(s: string)
    requires |s| == 14
    requires s[4] == 'B' && s[5] == 'b'
    ensures Transpose.ShiftedChord(Chord(s[4..6], s[6..6], None), 9) == "G"
  {
    assert s[4..6] == "Bb" && s[6..6] == "";
  }

  /** The plain text from position 6. */
  lemma RaiseL3Text6(s: string)
    requires |s| == 14
    requires s[6] == ' ' && s[7] == ' ' && s[8] == '|' && s[9] == ' ' && s[10] == ' '
    ensures s[6..11] == "  |  "
  {
  }

  /** The chord `F` at 11: the root, after a word boundary. */
  lemma RaiseL3Greedy11Root(s: string)
    requires |s| == 14
    requires s[10] == ' ' && s[11] == 'F' && s[12] == ' '
    ensures Boundary(s, 11) && RootEnd(s, 11) == 12
  {
  }

  /** The chord `F` at 11: the quality word. */
  lemma RaiseL3Greedy11Quality(s: string)
    requires |s| == 14
    requires s[10] == ' ' && s[11] == 'F' && s[12] == ' '
    ensures QualityEnd(s, 12, Qualities) == 12
  {
    QualityEndFirst(s, 12);
  }

  /** The chord `F` at 11: the digits and the alteration. */
  lemma RaiseL3Greedy11Digits(s: string)
    requires |s| == 14
    requires s[10] == ' ' && s[11] == 'F' && s[12] == ' '
    ensures DigitRun(s, 12) == 0 && AlterationEnd(s, 12) == 12
  {
  }

  /** The chord `F` at 11: the slash group and the closing boundary. */
  lemma RaiseL3Greedy11Slash(s: string)
    requires |s| == 14
    requires s[10] == ' ' && s[11] == 'F' && s[12] == ' '
    ensures TrySlash(s, 12, 12, false) == Some(Candidate(12, 12, None))
  {
  }

  /** The chord `F` at 11: the whole match. */
  lemma RaiseL3Match11(s: string)
    requires |s| == 14
    requires s[10] == ' ' && s[11] == 'F' && s[12] == ' '
    ensures MatchAt(s, 11, false) == Some(Candidate(12, 12, None))
  {
    RaiseL3Greedy11Root(s);
    RaiseL3Greedy11Quality(s);
    RaiseL3Greedy11Digits(s);
    RaiseL3Greedy11Slash(s);
    MatchGreedy(s, 11, false, 12, 12, 12, 12, Candidate(12, 12, None));
  }

  /** The chord `F` at 11: moved by the reference reading. */
  lemma RaiseL3Chord11(s: string)
    requires |s| == 14
    requires s[11] == 'F'
    ensures Transpose.ShiftedChord(Chord(s[11..12], s[12..12], None), 9) == "D"
  {
    assert s[11..12] == "F" && s[12..12] == "";
  }

  /** The plain text from position 12. */
  lemma RaiseL3Text12(s: string)
    requires |s| == 14
    requires s[12] == ' ' && s[13] == ' '
    ensures s[12..14] == "  "
  {
  }

  /** The scan from position 0 to the end. */
  lemma RaiseL3From0(s: string)
    requires |s| == 14
    requires s[0] == ' ' && s[1] == ' ' && s[2] == ' ' && s[3] == ' ' && s[4] == 'B' && s[5] == 'b' && s[6] == ' ' && s[7] == ' '
    requires s[8] == '|' && s[9] == ' ' && s[10] == ' ' && s[11] == 'F' && s[12] == ' ' && s[13] == ' '
    ensures Transpose.ShiftPieces(Tokenize(s, 0, false), 9) == "    " + ("G" + ("  |  " + ("D" + "  ")))
  {
    assert NoMatchFrom(s, 3, 4, false);
    assert NoMatchFrom(s, 2, 4, false);
    assert NoMatchFrom(s, 1, 4, false);
    assert NoMatchFrom(s, 0, 4, false);
    Transpose.ShiftScanPlain(s, 0, 4, false, 9, Transpose.ShiftPieces(Tokenize(s, 4, false), 9));
    RaiseL3Text0(s);
    RaiseL3From4(s);
  }

  /** The scan from position 4 to the end. */
  lemma RaiseL3From4(s: string)
    requires |s| == 14
    requires s[3] == ' ' && s[4] == 'B' && s[5] == 'b' && s[6] == ' ' && s[7] == ' ' && s[8] == '|' && s[9] == ' ' && s[10] == ' '
    requires s[11] == 'F' && s[12] == ' ' && s[13] == ' '
    ensures Transpose.ShiftPieces(Tokenize(s, 4, false), 9) == "G" + ("  |  " + ("D" + "  "))
  {
    RaiseL3Match4(s);
    Transpose.ShiftScanChord(s, 4, false, Candidate(6, 6, None), Chord(s[4..6], s[6..6], None), 9, Transpose.ShiftPieces(Tokenize(s, 6, false), 9));
    RaiseL3Chord4(s);
    RaiseL3From6(s);
  }

  /** The scan from position 6 to the end. */
  lemma RaiseL3From6(s: string)
    requires |s| == 14
    requires s[5] == 'b' && s[6] == ' ' && s[7] == ' ' && s[8] == '|' && s[9] == ' ' && s[10] == ' ' && s[11] == 'F' && s[12] == ' '
    requires s[13] == ' '
    ensures Transpose.ShiftPieces(Tokenize(s, 6, false), 9) == "  |  " + ("D" + "  ")
  {
    assert NoMatchFrom(s, 10, 11, false);
    assert NoMatchFrom(s, 9, 11, false);
    assert NoMatchFrom(s, 8, 11, false);
    assert NoMatchFrom(s, 7, 11, false);
    assert NoMatchFrom(s, 6, 11, false);
    Transpose.ShiftScanPlain(s, 6, 11, false, 9, Transpose.ShiftPieces(Tokenize(s, 11, false), 9));
    RaiseL3Text6(s);
    RaiseL3From11(s);
  }

  /** The scan from position 11 to the end. */
  lemma RaiseL3From11(s: string)
    requires |s| == 14
    requires s[10] == ' ' && s[11] == 'F' && s[12] == ' ' && s[13] == ' '
    ensures Transpose.ShiftPieces(Tokenize(s, 11, false), 9) == "D" + "  "
  {
    RaiseL3Match11(s);
    Transpose.ShiftScanChord(s, 11, false, Candidate(12, 12, None), Chord(s[11..12], s[12..12], None), 9, Transpose.ShiftPieces(Tokenize(s, 12, false), 9));
    RaiseL3Chord11(s);
    RaiseL3From12(s);
  }

  /** The scan from position 12 to the end. */
  lemma RaiseL3From12(s: string)
    requires |s| == 14
    requires s[11] == 'F' && s[12] == ' ' && s[13] == ' '
    ensures Transpose.ShiftPieces(Tokenize(s, 12, false), 9) == "  "
  {
    assert NoMatchFrom(s, 13, 14, false);
    assert NoMatchFrom(s, 12, 14, false);
    Transpose.ShiftScanPlain(s, 12, 14, false, 9, Transpose.ShiftPieces(Tokenize(s, 14, false), 9));
    RaiseL3Text12(s);
    assert Tokenize(s, 14, false) == [];
  }

  /** The text `    Bb  |  F  `, spelled one character at a time. */
  lemma RaiseL3Line(s: string)
    requires |s| == 14
    requires s[0] == ' ' && s[1] == ' ' && s[2] == ' ' && s[3] == ' ' && s[4] == 'B' && s[5] == 'b' && s[6] == ' ' && s[7] == ' '
    requires s[8] == '|' && s[9] == ' ' && s[10] == ' ' && s[11] == 'F' && s[12] == ' ' && s[13] == ' '
    ensures TransposeChordSheet(s, "Bb", "G") == "    G  |  D  "
  {
    assert "    " + ("G" + ("  |  " + ("D" + "  "))) == "    G  |  D  ";
    RaiseL3From0(s);
    RaiseDiff();
    CapoTest.SheetFromScan(s, "Bb", "G", 9, "    G  |  D  ");
  }

  // ----- line 5 of the Raise sheet -----

  /** The plain text from position 0. */
  lemma RaiseL5Text0(s: string)
    requires |s| == 9
    requires s[0] == '[' && s[1] == 'V' && s[2] == 'e' && s[3] == 'r' && s[4] == 's' && s[5] == 'e' && s[6] == ' ' && s[7] == '1'
    ensures s[0..8] == "[Verse 1"
  {
  }

  /** The plain text from position 8. */
  lemma RaiseL5Text8(s: string)
    requires |s| == 9
    requires s[8] == ']'
    ensures s[8..9] == "]"
  {
  }

  /** The scan from position 0 to the end. */
  lemma RaiseL5From0(s: string)
    requires |s| == 9
    requires s[0] == '[' && s[1] == 'V' && s[2] == 'e' && s[3] == 'r' && s[4] == 's' && s[5] == 'e' && s[6] == ' ' && s[7] == '1'
    requires s[8] == ']'
    ensures Transpose.ShiftPieces(Tokenize(s, 0, false), 9) == "[Verse 1" + "]"
  {
    assert NoMatchFrom(s, 7, 8, false);
    assert NoMatchFrom(s, 6, 8, false);
    assert NoMatchFrom(s, 5, 8, false);
    assert NoMatchFrom(s, 4, 8, false);
    assert NoMatchFrom(s, 3, 8, false);
    assert NoMatchFrom(s, 2, 8, false);
    assert NoMatchFrom(s, 1, 8, false);
    assert NoMatchFrom(s, 0, 8, false);
    Transpose.ShiftScanPlain(s, 0, 8, false, 9, Transpose.ShiftPieces(Tokenize(s, 8, false), 9));
    RaiseL5Text0(s);
    RaiseL5From8(s);
  }

  /** The scan from position 8 to the end. */
  lemma RaiseL5From8(s: string)
    requires |s| == 9
    requires s[7] == '1' && s[8] == ']'
    ensures Transpose.ShiftPieces(Tokenize(s, 8, false), 9) == "]"
  {
    assert NoMatchFrom(s, 8, 9, false);
    Transpose.ShiftScanPlain(s, 8, 9, false, 9, Transpose.ShiftPieces(Tokenize(s, 9, false), 9));
    RaiseL5Text8(s);
    assert Tokenize(s, 9, false) == [];
  }

  /** The text `[Verse 1]`, spelled one character at a time. */
  lemma RaiseL5Line(s: string)
    requires |s| == 9
    requires s[0] == '[' && s[1] == 'V' && s[2] == 'e' && s[3] == 'r' && s[4] == 's' && s[5] == 'e' && s[6] == ' ' && s[7] == '1'
    requires s[8] == ']'
    ensures TransposeChordSheet(s, "Bb", "G") == "[Verse 1]"
  {
    assert "[Verse 1" + "]" == "[Verse 1]";
    RaiseL5From0(s);
    RaiseDiff();
    CapoTest.SheetFromScan(s, "Bb", "G", 9, "[Verse 1]");
  }

  // ----- line 6 of the Raise sheet -----

  /** The plain text from position 0. */
  lemma RaiseL6Text0(s: string)
    requires |s| == 17
    requires s[0] == ' ' && s[1] == ' ' && s[2] == ' '
    ensures s[0..3] == "   "
  {
  }

  /** The chord `Bb` at 3: the root, after a word boundary. */
  lemma RaiseL6Greedy3Root(s: string)
    requires |s| == 17
    requires s[2] == ' ' && s[3] == 'B' && s[4] == 'b' && s[5] == ' '
    ensures Boundary(s, 3) && RootEnd(s, 3) == 5
  {
  }

  /** The chord `Bb` at 3: the quality word. */
  lemma RaiseL6Greedy3Quality(s: string)
    requires |s| == 17
    requires s[2] == ' ' && s[3] == 'B' && s[4] == 'b' && s[5] == ' '
    ensures QualityEnd(s, 5, Qualities) == 5
  {
    QualityEndFirst(s, 5);
  }

  /** The chord `Bb` at 3: the digits and the alteration. */
  lemma RaiseL6Greedy3Digits(s: string)
    requires |s| == 17
    requires s[2] == ' ' && s[3] == 'B' && s[4] == 'b' && s[5] == ' '
    ensures DigitRun(s, 5) == 0 && AlterationEnd(s, 5) == 5
  {
  }

  /** The chord `Bb` at 3: the slash group and the closing boundary. */
  lemma RaiseL6Greedy3Slash(s: string)
    requires |s| == 17
    requires s[2] == ' ' && s[3] == 'B' && s[4] == 'b' && s[5] == ' '
    ensures TrySlash(s, 5, 5, false) == Some(Candidate(5, 5, None))
  {
  }

  /** The chord `Bb` at 3: the whole match. */
  lemma RaiseL6Match3(s: string)
    requires |s| == 17
    requires s[2] == ' ' && s[3] == 'B' && s[4] == 'b' && s[5] == ' '
    ensures MatchAt(s, 3, false) == Some(Candidate(5, 5, None))
  {
    RaiseL6Greedy3Root(s);
    RaiseL6Greedy3Quality(s);
    RaiseL6Greedy3Digits(s);
    RaiseL6Greedy3Slash(s);
    MatchGreedy(s, 3, false, 5, 5, 5, 5, Candidate(5, 5, None));
  }

  /** The chord `Bb` at 3: moved by the reference reading. */
  lemma RaiseL6Chord3(s: string)
    requires |s| == 17
    requires s[3] == 'B' && s[4] == 'b'
    ensures Transpose.ShiftedChord(Chord(s[3..5], s[5..5], None), 9) == "G"
  {
    assert s[3..5] == "Bb" && s[5..5] == "";
  }

  /** The plain text from position 5. */
  lemma RaiseL6Text5(s: string)
    requires |s| == 17
    requires s[5] == ' ' && s[6] == ' ' && s[7] == ' ' && s[8] == ' ' && s[9] == ' ' && s[10] == ' ' && s[11] == ' ' && s[12] == ' '
    ensures s[5..13] == "        "
  {
  }

  /** The plain text from position 13. */
  lemma RaiseL6Text13(s: string)
    requires |s| == 17
    requires s[13] == ' ' && s[14] == ' '
    ensures s[13..15] == "  "
  {
  }

  /** The chord `Gm` at 15: the root, after a word boundary. */
  lemma RaiseL6Greedy15Root(s: string)
    requires |s| == 17
    requires s[14] == ' ' && s[15] == 'G' && s[16] == 'm'
    ensures Boundary(s, 15) && RootEnd(s, 15) == 16
  {
  }

  /** The chord `Gm` at 15: the quality word. */
  lemma RaiseL6Greedy15Quality(s: string)
    requires |s| == 17
    requires s[14] == ' ' && s[15] == 'G' && s[16] == 'm'
    ensures QualityEnd(s, 16, Qualities) == 17
  {
    QualityEndFirst(s, 16);
  }

  /** The chord `Gm` at 15: the digits and the alteration. */
  lemma RaiseL6Greedy15Digits(s: string)
    requires |s| == 17
    requires s[14] == ' ' && s[15] == 'G' && s[16] == 'm'
    ensures DigitRun(s, 17) == 0 && AlterationEnd(s, 17) == 17
  {
  }

  /** The chord `Gm` at 15: the slash group and the closing boundary. */
  lemma RaiseL6Greedy15Slash(s: string)
    requires |s| == 17
    requires s[14] == ' ' && s[15] == 'G' && s[16] == 'm'
    ensures TrySlash(s, 16, 17, false) == Some(Candidate(16, 17, None))
  {
  }

  /** The chord `Gm` at 15: the whole match. */
  lemma RaiseL6Match15(s: string)
    requires |s| == 17
    requires s[14] == ' ' && s[15] == 'G' && s[16] == 'm'
    ensures MatchAt(s, 15, false) == Some(Candidate(16, 17, None))
  {
    RaiseL6Greedy15Root(s);
    RaiseL6Greedy15Quality(s);
    RaiseL6Greedy15Digits(s);
    RaiseL6Greedy15Slash(s);
    MatchGreedy(s, 15, false, 16, 17, 17, 17, Candidate(16, 17, None));
  }

  /** The chord `Gm` at 15: moved by the reference reading. */
  lemma RaiseL6Chord15(s: string)
    requires |s| == 17
    requires s[15] == 'G' && s[16] == 'm'
    ensures Transpose.ShiftedChord(Chord(s[15..16], s[16..17], None), 9) == "Em"
  {
    assert s[15..16] == "G" && s[16..17] == "m";
  }

  /** The scan from position 0 to the end. */
  lemma RaiseL6From0(s: string)
    requires |s| == 17
    requires s[0] == ' ' && s[1] == ' ' && s[2] == ' ' && s[3] == 'B' && s[4] == 'b' && s[5] == ' ' && s[6] == ' ' && s[7] == ' '
    requires s[8] == ' ' && s[9] == ' ' && s[10] == ' ' && s[11] == ' ' && s[12] == ' ' && s[13] == ' ' && s[14] == ' ' && s[15] == 'G'
    requires s[16] == 'm'
    ensures Transpose.ShiftPieces(Tokenize(s, 0, false), 9) == "   " + ("G" + ("        " + ("  " + "Em")))
  {
    assert NoMatchFrom(s, 2, 3, false);
    assert NoMatchFrom(s, 1, 3, false);
    assert NoMatchFrom(s, 0, 3, false);
    Transpose.ShiftScanPlain(s, 0, 3, false, 9, Transpose.ShiftPieces(Tokenize(s, 3, false), 9));
    RaiseL6Text0(s);
    RaiseL6From3(s);
  }

  /** The scan from position 3 to the end. */
  lemma RaiseL6From3(s: string)
    requires |s| == 17
    requires s[2] == ' ' && s[3] == 'B' && s[4] == 'b' && s[5] == ' ' && s[6] == ' ' && s[7] == ' ' && s[8] == ' ' && s[9] == ' '
    requires s[10] == ' ' && s[11] == ' ' && s[12] == ' ' && s[13] == ' ' && s[14] == ' ' && s[15] == 'G' && s[16] == 'm'
    ensures Transpose.ShiftPieces(Tokenize(s, 3, false), 9) == "G" + ("        " + ("  " + "Em"))
  {
    RaiseL6Match3(s);
    Transpose.ShiftScanChord(s, 3, false, Candidate(5, 5, None), Chord(s[3..5], s[5..5], None), 9, Transpose.ShiftPieces(Tokenize(s, 5, false), 9));
    RaiseL6Chord3(s);
    RaiseL6From5(s);
  }

  /** The scan from position 5 to the end. */
  lemma RaiseL6From5(s: string)
    requires |s| == 17
    requires s[4] == 'b' && s[5] == ' ' && s[6] == ' ' && s[7] == ' ' && s[8] == ' ' && s[9] == ' ' && s[10] == ' ' && s[11] == ' '
    requires s[12] == ' ' && s[13] == ' ' && s[14] == ' ' && s[15] == 'G' && s[16] == 'm'
    ensures Transpose.ShiftPieces(Tokenize(s, 5, false), 9) == "        " + ("  " + "Em")
  {
    assert NoMatchFrom(s, 12, 13, false);
    assert NoMatchFrom(s, 11, 13, false);
    assert NoMatchFrom(s, 10, 13, false);
    assert NoMatchFrom(s, 9, 13, false);
    assert NoMatchFrom(s, 8, 13, false);
    assert NoMatchFrom(s, 7, 13, false);
    assert NoMatchFrom(s, 6, 13, false);
    assert NoMatchFrom(s, 5, 13, false);
    Transpose.ShiftScanPlain(s, 5, 13, false, 9, Transpose.ShiftPieces(Tokenize(s, 13, false), 9));
    RaiseL6Text5(s);
    RaiseL6From13(s);
  }

  /** The scan from position 13 to the end. */
  lemma RaiseL6From13(s: string)
    requires |s| == 17
    requires s[12] == ' ' && s[13] == ' ' && s[14] == ' ' && s[15] == 'G' && s[16] == 'm'
    ensures Transpose.ShiftPieces(Tokenize(s, 13, false), 9) == "  " + "Em"
  {
    assert NoMatchFrom(s, 14, 15, false);
    assert NoMatchFrom(s, 13, 15, false);
    Transpose.ShiftScanPlain(s, 13, 15, false, 9, Transpose.ShiftPieces(Tokenize(s, 15, false), 9));
    RaiseL6Text13(s);
    RaiseL6From15(s);
  }

  /** The scan from position 15 to the end. */
  lemma RaiseL6From15(s: string)
    requires |s| == 17
    requires s[14] == ' ' && s[15] == 'G' && s[16] == 'm'
    ensures Transpose.ShiftPieces(Tokenize(s, 15, false), 9) == "Em"
  {
    RaiseL6Match15(s);
    Transpose.ShiftScanChord(s, 15, false, Candidate(16, 17, None), Chord(s[15..16], s[16..17], None), 9, Transpose.ShiftPieces(Tokenize(s, 17, false), 9));
    RaiseL6Chord15(s);
    assert Tokenize(s, 17, false) == [];
  }

  /** The text `   Bb          Gm`, spelled one character at a time. */
  lemma RaiseL6Line(s: string)
    requires |s| == 17
    requires s[0] == ' ' && s[1] == ' ' && s[2] == ' ' && s[3] == 'B' && s[4] == 'b' && s[5] == ' ' && s[6] == ' ' && s[7] == ' '
    requires s[8] == ' ' && s[9] == ' ' && s[10] == ' ' && s[11] == ' ' && s[12] == ' ' && s[13] == ' ' && s[14] == ' ' && s[15] == 'G'
    requires s[16] == 'm'
    ensures TransposeChordSheet(s, "Bb", "G") == "   G          Em"
  {
    assert "   " + ("G" + ("        " + ("  " + "Em"))) == "   G          Em";
    RaiseL6From0(s);
    RaiseDiff();
    CapoTest.SheetFromScan(s, "Bb", "G", 9, "   G          Em");
  }

  /** The chords of the other lines move by this many semitones. */
  lemma RaiseDiff()
    ensures SheetDiff("Bb", "G") == Some(9)
  {
  }

  /** The characters of the line the Key header rewrite gives. */
  lemma RaiseKeyedChars()
    ensures var t := "Key: " + "Bb" + " (AG:" + "G" + ")" + "   Capo:" + " " + "0";
      |t| == 24
      && t[0] == 'K' && t[1] == 'e' && t[2] == 'y' && t[3] == ':' && t[4] == ' ' && t[5] == 'B' && t[6] == 'b' && t[7] == ' '
      && t[8] == '(' && t[9] == 'A' && t[10] == 'G' && t[11] == ':' && t[12] == 'G' && t[13] == ')' && t[14] == ' ' && t[15] == ' '
      && t[16] == ' ' && t[17] == 'C' && t[18] == 'a' && t[19] == 'p' && t[20] == 'o' && t[21] == ':' && t[22] == ' ' && t[23] == '0'
  {
  }

  /** The Capo field of the line the Key header rewrite gives gets the new
      capo; the rest of the sheet holds no other Capo field. */
  lemma RaiseCapoField(rest: string)
    requires PairFree(rest, 'C', 'A') && (rest == [] || rest[0] == '\n')
    ensures ReplaceCapo("Key: " + "Bb" + " (AG:" + "G" + ")" + "   Capo:" + " " + "0" + rest, 0, 3) == "Key: Bb (AG:" + "G)   Capo: 3" + rest
  {
    assert "Key: " + "Bb" + " (AG:" + "G" + ")" + "   Capo:" + " " + "3" == "Key: Bb (AG:" + "G)   Capo: 3";
    RaiseKeyedChars();
    RaiseCapo("Key: " + "Bb" + " (AG:" + "G" + ")" + "   Capo:" + " " + "0", rest);
  }

  /** The first line: both fields rewritten, and the guitar key. */
  lemma RaiseFirstLine(l0: string, rest: string)
    requires |l0| == 25
    requires l0[0] == 'K' && l0[1] == 'e' && l0[2] == 'y' && l0[3] == ':' && l0[4] == ' ' && l0[5] == 'B' && l0[6] == 'b' && l0[7] == ' '
    requires l0[8] == '(' && l0[9] == 'A' && l0[10] == 'G' && l0[11] == ':' && l0[12] == 'B' && l0[13] == 'b' && l0[14] == ')' && l0[15] == ' '
    requires l0[16] == ' ' && l0[17] == ' ' && l0[18] == 'C' && l0[19] == 'a' && l0[20] == 'p' && l0[21] == 'o' && l0[22] == ':' && l0[23] == ' '
    requires l0[24] == '0'
    requires PairFree(rest, 'K', 'E') && PairFree(rest, 'C', 'A') && (rest == [] || rest[0] == '\n')
    ensures FirstLineRewritten(l0, rest, "Bb", 3, "G", "Key: " + "Bb" + " (AG:" + "G" + ")" + "   Capo:" + " " + "0", "Key: Bb (AG:" + "G)   Capo: 3")
  {
    RaiseHeader(l0, rest);
    RaiseCapoField(rest);
    RaiseFirst();
    RaiseGuitar();
  }

  /** The rewritten first line is a Key line of one line. */
  lemma RaiseFirst()
    ensures NoNewline("Key: Bb (AG:" + "G)   Capo: 3") && HasKeyLabel("Key: Bb (AG:" + "G)   Capo: 3")
  {
    KeyLabelFirst("Key: Bb (AG:" + "G)   Capo: 3");
  }

  /** The guitar key: the key moved down by the capo. */
  lemma RaiseGuitar()
    ensures TransposedChord("Bb", -3) == Ok("G")
  {
    GuitarKeyIs("Bb", 3, "G");
  }

  /** The other lines hold no field. */
  lemma RaisePlain(l1: string, l2: string, l3: string, l4: string, l5: string, l6: string)
    requires NoNewline(l1) && PairFree(l1, 'K', 'E') && PairFree(l1, 'C', 'A')
    requires NoNewline(l2) && PairFree(l2, 'K', 'E') && PairFree(l2, 'C', 'A')
    requires NoNewline(l3) && PairFree(l3, 'K', 'E') && PairFree(l3, 'C', 'A')
    requires NoNewline(l4) && PairFree(l4, 'K', 'E') && PairFree(l4, 'C', 'A')
    requires NoNewline(l5) && PairFree(l5, 'K', 'E') && PairFree(l5, 'C', 'A')
    requires NoNewline(l6) && PairFree(l6, 'K', 'E') && PairFree(l6, 'C', 'A')
    ensures PlainLines([l1, l2, l3, l4, l5, l6])
  {
  }

  /** The other lines, each transposed on its own. */
  lemma RaiseOthers(l1: string, l2: string, l3: string, l4: string, l5: string, l6: string)
    requires l1 == ""
    requires TransposeChordSheet(l2, "Bb", "G") == "[Pre]"
    requires TransposeChordSheet(l3, "Bb", "G") == "    G " + " |  D  "
    requires l4 == ""
    requires TransposeChordSheet(l5, "Bb", "G") == "[Verse 1]"
    requires TransposeChordSheet(l6, "Bb", "G") == "   G    " + "      Em"
    ensures LinesTransposed([l1, l2, l3, l4, l5, l6], "Bb", "G", [l1, "[Pre]", "    G " + " |  D  ", l4, "[Verse 1]", "   G    " + "      Em"])
  {
    var ls := [l1, l2, l3, l4, l5, l6];
    var os := [l1, "[Pre]", "    G " + " |  D  ", l4, "[Verse 1]", "   G    " + "      Em"];
    forall k | 0 <= k < |ls| ensures TransposeChordSheet(ls[k], "Bb", "G") == os[k] {
      if k == 0 { } else if k == 1 { } else if k == 2 { } else if k == 3 { } else if k == 4 { } else { }
    }
  }

  /** The whole sheet, its first line spelled one character at a time. */
  lemma RaiseSheet(l0: string, l1: string, l2: string, l3: string, l4: string, l5: string, l6: string)
    requires |l0| == 25
    requires l0[0] == 'K' && l0[1] == 'e' && l0[2] == 'y' && l0[3] == ':' && l0[4] == ' ' && l0[5] == 'B' && l0[6] == 'b' && l0[7] == ' '
    requires l0[8] == '(' && l0[9] == 'A' && l0[10] == 'G' && l0[11] == ':' && l0[12] == 'B' && l0[13] == 'b' && l0[14] == ')' && l0[15] == ' '
    requires l0[16] == ' ' && l0[17] == ' ' && l0[18] == 'C' && l0[19] == 'a' && l0[20] == 'p' && l0[21] == 'o' && l0[22] == ':' && l0[23] == ' '
    requires l0[24] == '0'
    requires NoNewline(l1) && PairFree(l1, 'K', 'E') && PairFree(l1, 'C', 'A')
    requires NoNewline(l2) && PairFree(l2, 'K', 'E') && PairFree(l2, 'C', 'A')
    requires NoNewline(l3) && PairFree(l3, 'K', 'E') && PairFree(l3, 'C', 'A')
    requires NoNewline(l4) && PairFree(l4, 'K', 'E') && PairFree(l4, 'C', 'A')
    requires NoNewline(l5) && PairFree(l5, 'K', 'E') && PairFree(l5, 'C', 'A')
    requires NoNewline(l6) && PairFree(l6, 'K', 'E') && PairFree(l6, 'C', 'A')
    requires l1 == ""
    requires TransposeChordSheet(l2, "Bb", "G") == "[Pre]"
    requires TransposeChordSheet(l3, "Bb", "G") == "    G " + " |  D  "
    requires l4 == ""
    requires TransposeChordSheet(l5, "Bb", "G") == "[Verse 1]"
    requires TransposeChordSheet(l6, "Bb", "G") == "   G    " + "      Em"
    ensures SimulateCapoChange(Join([l0] + [l1, l2, l3, l4, l5, l6]), "Bb", "Bb", 3) == Ok(Join(["Key: Bb (AG:" + "G)   Capo: 3"] + [l1, "[Pre]", "    G " + " |  D  ", l4, "[Verse 1]", "   G    " + "      Em"]))
  {
    RaisePlain(l1, l2, l3, l4, l5, l6);
    RaiseOthers(l1, l2, l3, l4, l5, l6);
    RestIsPlain(l0, [l1, l2, l3, l4, l5, l6]);
    RaiseFirstLine(l0, RestOfSheet([l0] + [l1, l2, l3, l4, l5, l6]));
    SheetOfLines(l0, [l1, l2, l3, l4, l5, l6], "Bb", "Bb", 3, "G", "Key: " + "Bb" + " (AG:" + "G" + ")" + "   Capo:" + " " + "0", "Key: Bb (AG:" + "G)   Capo: 3", [l1, "[Pre]", "    G " + " |  D  ", l4, "[Verse 1]", "   G    " + "      Em"]);
  }

  /** Line 2 of the sheet holds no line break and no Key or Capo label. */
  lemma RaiseFacts2()
    ensures var t := "[Pre]";
      NoNewline(t) && PairFree(t, 'K', 'E') && PairFree(t, 'C', 'A')
  {
  }

  /** Line 2 of the sheet, transposed on its own. */
  lemma RaiseL2Lit()
    ensures TransposeChordSheet("[Pre]", "Bb", "G") == "[Pre]"
  {
    assert var t := "[Pre]";
      |t| == 5
      && t[0] == '[' && t[1] == 'P' && t[2] == 'r' && t[3] == 'e' && t[4] == ']';
    RaiseL2Line("[Pre]");
  }

  /** Line 3 of the sheet holds no line break and no Key or Capo label. */
  lemma RaiseFacts3()
    ensures var t := "    Bb " + " |  F  ";
      NoNewline(t) && PairFree(t, 'K', 'E') && PairFree(t, 'C', 'A')
  {
  }

  /** Line 3 of the sheet, transposed on its own. */
  lemma RaiseL3Lit()
    ensures TransposeChordSheet("    Bb " + " |  F  ", "Bb", "G") == "    G " + " |  D  "
  {
    assert var t := "    Bb " + " |  F  ";
      |t| == 14
      && t[0] == ' ' && t[1] == ' ' && t[2] == ' ' && t[3] == ' ' && t[4] == 'B' && t[5] == 'b' && t[6] == ' ' && t[7] == ' '
      && t[8] == '|' && t[9] == ' ' && t[10] == ' ' && t[11] == 'F' && t[12] == ' ' && t[13] == ' ';
    RaiseL3Line("    Bb " + " |  F  ");
  }

  /** Line 5 of the sheet holds no line break and no Key or Capo label. */
  lemma RaiseFacts5()
    ensures var t := "[Verse 1]";
      NoNewline(t) && PairFree(t, 'K', 'E') && PairFree(t, 'C', 'A')
  {
  }

  /** Line 5 of the sheet, transposed on its own. */
  lemma RaiseL5Lit()
    ensures TransposeChordSheet("[Verse 1]", "Bb", "G") == "[Verse 1]"
  {
    assert var t := "[Verse 1]";
      |t| == 9
      && t[0] == '[' && t[1] == 'V' && t[2] == 'e' && t[3] == 'r' && t[4] == 's' && t[5] == 'e' && t[6] == ' ' && t[7] == '1'
      && t[8] == ']';
    RaiseL5Line("[Verse 1]");
  }

  /** Line 6 of the sheet holds no line break and no Key or Capo label. */
  lemma RaiseFacts6()
    ensures var t := "   Bb   " + "       Gm";
      NoNewline(t) && PairFree(t, 'K', 'E') && PairFree(t, 'C', 'A')
  {
  }

  /** Line 6 of the sheet, transposed on its own. */
  lemma RaiseL6Lit()
    ensures TransposeChordSheet("   Bb   " + "       Gm", "Bb", "G") == "   G    " + "      Em"
  {
    assert var t := "   Bb   " + "       Gm";
      |t| == 17
      && t[0] == ' ' && t[1] == ' ' && t[2] == ' ' && t[3] == 'B' && t[4] == 'b' && t[5] == ' ' && t[6] == ' ' && t[7] == ' '
      && t[8] == ' ' && t[9] == ' ' && t[10] == ' ' && t[11] == ' ' && t[12] == ' ' && t[13] == ' ' && t[14] == ' ' && t[15] == 'G'
      && t[16] == 'm';
    RaiseL6Line("   Bb   " + "       Gm");
  }

  /** capo_test.js:155-175: putting a capo on fret 3 makes G the guitar key. */
  lemma RaiseCase()
    ensures SimulateCapoChange(Join(["Key: Bb (AG:" + "Bb)   Capo: 0", "", "[Pre]", "    Bb " + " |  F  ", "", "[Verse 1]", "   Bb   " + "       Gm"]), "Bb", "Bb", 3)
            == Ok(Join(["Key: Bb (AG:" + "G)   Capo: 3", "", "[Pre]", "    G " + " |  D  ", "", "[Verse 1]", "   G    " + "      Em"]))
  {
    assert var t := "Key: Bb (AG:" + "Bb)   Capo: 0";
      |t| == 25
      && t[0] == 'K' && t[1] == 'e' && t[2] == 'y' && t[3] == ':' && t[4] == ' ' && t[5] == 'B' && t[6] == 'b' && t[7] == ' '
      && t[8] == '(' && t[9] == 'A' && t[10] == 'G' && t[11] == ':' && t[12] == 'B' && t[13] == 'b' && t[14] == ')' && t[15] == ' '
      && t[16] == ' ' && t[17] == ' ' && t[18] == 'C' && t[19] == 'a' && t[20] == 'p' && t[21] == 'o' && t[22] == ':' && t[23] == ' '
      && t[24] == '0';
    RaiseFacts2();
    RaiseL2Lit();
    RaiseFacts3();
    RaiseL3Lit();
    RaiseFacts5();
    RaiseL5Lit();
    RaiseFacts6();
    RaiseL6Lit();
    RaiseSheet("Key: Bb (AG:" + "Bb)   Capo: 0", "", "[Pre]", "    Bb " + " |  F  ", "", "[Verse 1]", "   Bb   " + "       Gm");
  }

  // ----- a new key with the same capo -----

  /** The Key header pattern matches at the start of the first line. */
  lemma NewKeyHeaderAt(s: string)
    requires |s| >= 14
    requires s[0] == 'K' && s[1] == 'e' && s[2] == 'y' && s[3] == ':' && s[4] == ' ' && s[5] == 'B' && s[6] == 'b' && s[7] == ' '
    requires s[8] == '(' && s[9] == 'A' && s[10] == 'G' && s[11] == ':' && s[12] == 'G' && s[13] == ')'
    ensures KeyHeaderAt(s, 0) == Some(Header(5, 7, 12, 13, 14))
  {
    assert WordAtI(s, "KEY", 0, 3);
    assert WordAtI(s, "KEY", 0, 2);
    assert WordAtI(s, "KEY", 0, 1);
    assert WordAtI(s, "KEY", 0, 0);
    assert SpaceEnd(s, 3) == 3;
    assert LabelColonEnd(s, "KEY", 0) == Some(4);
    assert SpaceEnd(s, 5) == 5;
    assert SpaceEnd(s, 4) == 5;
    assert NoteEndI(s, 5) == Some(7);
    assert SpaceEnd(s, 8) == 8;
    assert SpaceEnd(s, 7) == 8;
    assert SpaceEnd(s, 9) == 9;
    assert WordAtI(s, "AG", 9, 2);
    assert WordAtI(s, "AG", 9, 1);
    assert WordAtI(s, "AG", 9, 0);
    assert SpaceEnd(s, 11) == 11;
    assert LabelColonEnd(s, "AG", 9) == Some(12);
    assert SpaceEnd(s, 12) == 12;
    assert NoteEndI(s, 12) == Some(13);
    assert SpaceEnd(s, 13) == 13;
  }

  /** After the Key header, no Key label starts on the first line. */
  lemma NewKeyHeaderTail(t: string, rest: string)
    requires |t| == 24
    requires t[14] == ' ' && t[15] == ' ' && t[16] == ' ' && t[17] == 'C' && t[18] == 'a' && t[19] == 'p' && t[20] == 'o' && t[21] == ':'
    requires t[22] == ' ' && t[23] == '3'
    requires rest == [] || rest[0] == '\n'
    ensures NoPairIn(t + rest, 14, |t|, 'K', 'E')
  {
    var s := t + rest;
    assert NoPairIn(s, 23, |t|, 'K', 'E');
    assert NoPairIn(s, 22, |t|, 'K', 'E');
    assert NoPairIn(s, 21, |t|, 'K', 'E');
    assert NoPairIn(s, 20, |t|, 'K', 'E');
    assert NoPairIn(s, 19, |t|, 'K', 'E');
    assert NoPairIn(s, 18, |t|, 'K', 'E');
    assert NoPairIn(s, 17, |t|, 'K', 'E');
    assert NoPairIn(s, 16, |t|, 'K', 'E');
    assert NoPairIn(s, 15, |t|, 'K', 'E');
    assert NoPairIn(s, 14, |t|, 'K', 'E');
  }

  /** The parts of the first line that the Key header rewrite keeps. */
  lemma NewKeyHeaderPieces(t: string, rest: string)
    requires |t| == 24
    requires t[0] == 'K' && t[1] == 'e' && t[2] == 'y' && t[3] == ':' && t[4] == ' ' && t[5] == 'B' && t[6] == 'b' && t[7] == ' '
    requires t[8] == '(' && t[9] == 'A' && t[10] == 'G' && t[11] == ':' && t[12] == 'G' && t[13] == ')' && t[14] == ' ' && t[15] == ' '
    requires t[16] == ' ' && t[17] == 'C' && t[18] == 'a' && t[19] == 'p' && t[20] == 'o' && t[21] == ':' && t[22] == ' ' && t[23] == '3'
    ensures var s := t + rest;
      s[0..5] == "Key: " && s[7..12] == " (AG:" && s[13..14] == ")" && s[14..|t|] == "   Capo:" + " " + "3"
  {
  }

  /** The kept parts and the new keys put back together. */
  lemma NewKeyHeaderText(s: string, x: string, rest: string)
    requires |s| >= 14 && s[0..5] == "Key: " && s[7..12] == " (AG:" && s[13..14] == ")"
    requires x == "   Capo:" + " " + "3"
    ensures s[0..5] + "C" + s[7..12] + "A" + s[13..14] + (x + rest) == "Key: " + "C" + " (AG:" + "A" + ")" + "   Capo:" + " " + "3" + rest
  {
  }

  /** The Key header of the first line gets the key and the guitar key; the
      rest of the sheet holds no other header. */
  lemma NewKeyHeader(t: string, rest: string)
    requires |t| == 24
    requires t[0] == 'K' && t[1] == 'e' && t[2] == 'y' && t[3] == ':' && t[4] == ' ' && t[5] == 'B' && t[6] == 'b' && t[7] == ' '
    requires t[8] == '(' && t[9] == 'A' && t[10] == 'G' && t[11] == ':' && t[12] == 'G' && t[13] == ')' && t[14] == ' ' && t[15] == ' '
    requires t[16] == ' ' && t[17] == 'C' && t[18] == 'a' && t[19] == 'p' && t[20] == 'o' && t[21] == ':' && t[22] == ' ' && t[23] == '3'
    requires PairFree(rest, 'K', 'E') && (rest == [] || rest[0] == '\n')
    ensures ReplaceKeyHeaders(t + rest, 0, "C", "A") == "Key: " + "C" + " (AG:" + "A" + ")" + "   Capo:" + " " + "3" + rest
  {
    var s := t + rest;
    NewKeyHeaderAt(s);
    HeaderFound(s, 0, Header(5, 7, 12, 13, 14), "C", "A");
    NewKeyHeaderTail(t, rest);
    HeadersCopied(s, 14, |t|, "C", "A");
    HeadersAfter(t, rest, "C", "A");
    NewKeyHeaderPieces(t, rest);
    NewKeyHeaderText(s, s[14..|t|], rest);
  }

  /** The Capo pattern matches where the Capo field starts. */
  lemma NewKeyCapoAt(s: string)
    requires |s| >= 23 && (|s| == 23 || s[23] == '\n')
    requires s[16] == 'C' && s[17] == 'a' && s[18] == 'p' && s[19] == 'o' && s[20] == ':' && s[21] == ' ' && s[22] == '3'
    ensures CapoAt(s, 16) == Some((22, 23))
  {
    assert WordAtI(s, "CAPO", 16, 4);
    assert WordAtI(s, "CAPO", 16, 3);
    assert WordAtI(s, "CAPO", 16, 2);
    assert WordAtI(s, "CAPO", 16, 1);
    assert WordAtI(s, "CAPO", 16, 0);
    assert SpaceEnd(s, 20) == 20;
    assert SpaceEnd(s, 22) == 22;
    assert SpaceEnd(s, 21) == 22;
    assert LabelColonEnd(s, "CAPO", 16) == Some(21);
    assert DigitRun(s, 23) == 0;
    assert DigitRun(s, 22) == 1;
  }

  /** No Capo label starts before the Capo field. */
  lemma NewKeyCapoBefore(s: string)
    requires |s| > 16
    requires s[0] == 'K' && s[1] == 'e' && s[2] == 'y' && s[3] == ':' && s[4] == ' ' && s[5] == 'C' && s[6] == ' ' && s[7] == '('
    requires s[8] == 'A' && s[9] == 'G' && s[10] == ':' && s[11] == 'A' && s[12] == ')' && s[13] == ' ' && s[14] == ' ' && s[15] == ' '
    requires s[16] == 'C'
    ensures NoPairIn(s, 0, 16, 'C', 'A')
  {
    assert NoPairIn(s, 15, 16, 'C', 'A');
    assert NoPairIn(s, 14, 16, 'C', 'A');
    assert NoPairIn(s, 13, 16, 'C', 'A');
    assert NoPairIn(s, 12, 16, 'C', 'A');
    assert NoPairIn(s, 11, 16, 'C', 'A');
    assert NoPairIn(s, 10, 16, 'C', 'A');
    assert NoPairIn(s, 9, 16, 'C', 'A');
    assert NoPairIn(s, 8, 16, 'C', 'A');
    assert NoPairIn(s, 7, 16, 'C', 'A');
    assert NoPairIn(s, 6, 16, 'C', 'A');
    assert NoPairIn(s, 5, 16, 'C', 'A');
    assert NoPairIn(s, 4, 16, 'C', 'A');
    assert NoPairIn(s, 3, 16, 'C', 'A');
    assert NoPairIn(s, 2, 16, 'C', 'A');
    assert NoPairIn(s, 1, 16, 'C', 'A');
    assert NoPairIn(s, 0, 16, 'C', 'A');
  }

  /** The part of the line that the Capo rewrite keeps. */
  lemma NewKeyCapoPieces(t: string, rest: string)
    requires |t| == 23
    requires t[0] == 'K' && t[1] == 'e' && t[2] == 'y' && t[3] == ':' && t[4] == ' ' && t[5] == 'C' && t[6] == ' ' && t[7] == '('
    requires t[8] == 'A' && t[9] == 'G' && t[10] == ':' && t[11] == 'A' && t[12] == ')' && t[13] == ' ' && t[14] == ' ' && t[15] == ' '
    requires t[16] == 'C' && t[17] == 'a' && t[18] == 'p' && t[19] == 'o' && t[20] == ':' && t[21] == ' ' && t[22] == '3'
    ensures var s := t + rest; s[0..16] + s[16..22] == "Key: " + "C" + " (AG:" + "A" + ")" + "   Capo:" + " "
  {
  }

  /** The kept part and the new capo put back together. */
  lemma NewKeyCapoText(s: string, x: string, rest: string)
    requires |s| >= 22 && s[0..16] + s[16..22] == "Key: " + "C" + " (AG:" + "A" + ")" + "   Capo:" + " " && x == rest
    ensures s[0..16] + (s[16..22] + Decimal(3) + x) == "Key: " + "C" + " (AG:" + "A" + ")" + "   Capo:" + " " + "3" + rest
  {
  }

  /** The Capo field of the rewritten first line gets the new capo; the rest
      of the sheet holds no other Capo field. */
  lemma NewKeyCapo(t: string, rest: string)
    requires |t| == 23
    requires t[0] == 'K' && t[1] == 'e' && t[2] == 'y' && t[3] == ':' && t[4] == ' ' && t[5] == 'C' && t[6] == ' ' && t[7] == '('
    requires t[8] == 'A' && t[9] == 'G' && t[10] == ':' && t[11] == 'A' && t[12] == ')' && t[13] == ' ' && t[14] == ' ' && t[15] == ' '
    requires t[16] == 'C' && t[17] == 'a' && t[18] == 'p' && t[19] == 'o' && t[20] == ':' && t[21] == ' ' && t[22] == '3'
    requires PairFree(rest, 'C', 'A') && (rest == [] || rest[0] == '\n')
    ensures ReplaceCapo(t + rest, 0, 3) == "Key: " + "C" + " (AG:" + "A" + ")" + "   Capo:" + " " + "3" + rest
  {
    var s := t + rest;
    NewKeyCapoBefore(s);
    CapoCopied(s, 0, 16, 3);
    NewKeyCapoAt(s);
    CapoFound(s, 16, 22, 23, 3);
    NewKeyCapoPieces(t, rest);
    CapoAfter(t, rest, 3);
    NewKeyCapoText(s, ReplaceCapo(s, 23, 3), rest);
  }

  /** The characters of the line the Key header rewrite gives. */
  lemma NewKeyKeyedChars()
    ensures var t := "Key: " + "C" + " (AG:" + "A" + ")" + "   Capo:" + " " + "3";
      |t| == 23
      && t[0] == 'K' && t[1] == 'e' && t[2] == 'y' && t[3] == ':' && t[4] == ' ' && t[5] == 'C' && t[6] == ' ' && t[7] == '('
      && t[8] == 'A' && t[9] == 'G' && t[10] == ':' && t[11] == 'A' && t[12] == ')' && t[13] == ' ' && t[14] == ' ' && t[15] == ' '
      && t[16] == 'C' && t[17] == 'a' && t[18] == 'p' && t[19] == 'o' && t[20] == ':' && t[21] == ' ' && t[22] == '3'
  {
  }

  /** The Capo field of the line the Key header rewrite gives gets the new
      capo; the rest of the sheet holds no other Capo field. */
  lemma NewKeyCapoField(rest: string)
    requires PairFree(rest, 'C', 'A') && (rest == [] || rest[0] == '\n')
    ensures ReplaceCapo("Key: " + "C" + " (AG:" + "A" + ")" + "   Capo:" + " " + "3" + rest, 0, 3) == "Key: C (AG:" + "A)   Capo: 3" + rest
  {
    assert "Key: " + "C" + " (AG:" + "A" + ")" + "   Capo:" + " " + "3" == "Key: C (AG:" + "A)   Capo: 3";
    NewKeyKeyedChars();
    NewKeyCapo("Key: " + "C" + " (AG:" + "A" + ")" + "   Capo:" + " " + "3", rest);
  }

  /** The first line: both fields rewritten, and the guitar key. */
  lemma NewKeyFirstLine(l0: string, rest: string)
    requires |l0| == 24
    requires l0[0] == 'K' && l0[1] == 'e' && l0[2] == 'y' && l0[3] == ':' && l0[4] == ' ' && l0[5] == 'B' && l0[6] == 'b' && l0[7] == ' '
    requires l0[8] == '(' && l0[9] == 'A' && l0[10] == 'G' && l0[11] == ':' && l0[12] == 'G' && l0[13] == ')' && l0[14] == ' ' && l0[15] == ' '
    requires l0[16] == ' ' && l0[17] == 'C' && l0[18] == 'a' && l0[19] == 'p' && l0[20] == 'o' && l0[21] == ':' && l0[22] == ' ' && l0[23] == '3'
    requires PairFree(rest, 'K', 'E') && PairFree(rest, 'C', 'A') && (rest == [] || rest[0] == '\n')
    ensures FirstLineRewritten(l0, rest, "C", 3, "A", "Key: " + "C" + " (AG:" + "A" + ")" + "   Capo:" + " " + "3", "Key: C (AG:" + "A)   Capo: 3")
  {
    NewKeyHeader(l0, rest);
    NewKeyCapoField(rest);
    NewKeyFirst();
    NewKeyGuitar();
  }

  /** The rewritten first line is a Key line of one line. */
  lemma NewKeyFirst()
    ensures NoNewline("Key: C (AG:" + "A)   Capo: 3") && HasKeyLabel("Key: C (AG:" + "A)   Capo: 3")
  {
    KeyLabelFirst("Key: C (AG:" + "A)   Capo: 3");
  }

  /** The guitar key: the key moved down by the capo. */
  lemma NewKeyGuitar()
    ensures TransposedChord("C", -3) == Ok("A")
  {
    GuitarKeyIs("C", 3, "A");
  }

  /** The whole sheet, its first line spelled one character at a time. */
  lemma NewKeySheet(l0: string)
    requires |l0| == 24
    requires l0[0] == 'K' && l0[1] == 'e' && l0[2] == 'y' && l0[3] == ':' && l0[4] == ' ' && l0[5] == 'B' && l0[6] == 'b' && l0[7] == ' '
    requires l0[8] == '(' && l0[9] == 'A' && l0[10] == 'G' && l0[11] == ':' && l0[12] == 'G' && l0[13] == ')' && l0[14] == ' ' && l0[15] == ' '
    requires l0[16] == ' ' && l0[17] == 'C' && l0[18] == 'a' && l0[19] == 'p' && l0[20] == 'o' && l0[21] == ':' && l0[22] == ' ' && l0[23] == '3'
    ensures SimulateCapoChange(Join([l0] + []), "C", "G", 3) == Ok(Join(["Key: C (AG:" + "A)   Capo: 3"] + []))
  {
    RestIsPlain(l0, []);
    NewKeyFirstLine(l0, RestOfSheet([l0] + []));
    SheetOfLines(l0, [], "C", "G", 3, "A", "Key: " + "C" + " (AG:" + "A" + ")" + "   Capo:" + " " + "3", "Key: C (AG:" + "A)   Capo: 3", []);
  }

  /** capo_test.js:178-192: a new key C with the capo on fret 3 plays as A. */
  lemma NewKeyCase()
    ensures SimulateCapoChange(Join(["Key: Bb (AG:" + "G)   Capo: 3"]), "C", "G", 3)
            == Ok(Join(["Key: C (AG:" + "A)   Capo: 3"]))
  {
    assert var t := "Key: Bb (AG:" + "G)   Capo: 3";
      |t| == 24
      && t[0] == 'K' && t[1] == 'e' && t[2] == 'y' && t[3] == ':' && t[4] == ' ' && t[5] == 'B' && t[6] == 'b' && t[7] == ' '
      && t[8] == '(' && t[9] == 'A' && t[10] == 'G' && t[11] == ':' && t[12] == 'G' && t[13] == ')' && t[14] == ' ' && t[15] == ' '
      && t[16] == ' ' && t[17] == 'C' && t[18] == 'a' && t[19] == 'p' && t[20] == 'o' && t[21] == ':' && t[22] == ' ' && t[23] == '3';
    NewKeySheet("Key: Bb (AG:" + "G)   Capo: 3");
  }

  // ----- the capo moved from 7 to 5 -----

  /** The Key header pattern matches at the start of the first line. */
  lemma Capo5HeaderAt(s: string)
    requires |s| >= 13
    requires s[0] == 'K' && s[1] == 'e' && s[2] == 'y' && s[3] == ':' && s[4] == ' ' && s[5] == 'D' && s[6] == ' ' && s[7] == '('
    requires s[8] == 'A' && s[9] == 'G' && s[10] == ':' && s[11] == 'A' && s[12] == ')'
    ensures KeyHeaderAt(s, 0) == Some(Header(5, 6, 11, 12, 13))
  {
    assert WordAtI(s, "KEY", 0, 3);
    assert WordAtI(s, "KEY", 0, 2);
    assert WordAtI(s, "KEY", 0, 1);
    assert WordAtI(s, "KEY", 0, 0);
    assert SpaceEnd(s, 3) == 3;
    assert LabelColonEnd(s, "KEY", 0) == Some(4);
    assert SpaceEnd(s, 5) == 5;
    assert SpaceEnd(s, 4) == 5;
    assert NoteEndI(s, 5) == Some(6);
    assert SpaceEnd(s, 7) == 7;
    assert SpaceEnd(s, 6) == 7;
    assert SpaceEnd(s, 8) == 8;
    assert WordAtI(s, "AG", 8, 2);
    assert WordAtI(s, "AG", 8, 1);
    assert WordAtI(s, "AG", 8, 0);
    assert SpaceEnd(s, 10) == 10;
    assert LabelColonEnd(s, "AG", 8) == Some(11);
    assert SpaceEnd(s, 11) == 11;
    assert NoteEndI(s, 11) == Some(12);
    assert SpaceEnd(s, 12) == 12;
  }

  /** After the Key header, no Key label starts on the first line. */
  lemma Capo5HeaderTail(t: string, rest: string)
    requires |t| == 23
    requires t[13] == ' ' && t[14] == ' ' && t[15] == ' ' && t[16] == 'C' && t[17] == 'a' && t[18] == 'p' && t[19] == 'o' && t[20] == ':'
    requires t[21] == ' ' && t[22] == '7'
    requires rest == [] || rest[0] == '\n'
    ensures NoPairIn(t + rest, 13, |t|, 'K', 'E')
  {
    var s := t + rest;
    assert NoPairIn(s, 22, |t|, 'K', 'E');
    assert NoPairIn(s, 21, |t|, 'K', 'E');
    assert NoPairIn(s, 20, |t|, 'K', 'E');
    assert NoPairIn(s, 19, |t|, 'K', 'E');
    assert NoPairIn(s, 18, |t|, 'K', 'E');
    assert NoPairIn(s, 17, |t|, 'K', 'E');
    assert NoPairIn(s, 16, |t|, 'K', 'E');
    assert NoPairIn(s, 15, |t|, 'K', 'E');
    assert NoPairIn(s, 14, |t|, 'K', 'E');
    assert NoPairIn(s, 13, |t|, 'K', 'E');
  }

  /** The parts of the first line that the Key header rewrite keeps. */
  lemma Capo5HeaderPieces(t: string, rest: string)
    requires |t| == 23
    requires t[0] == 'K' && t[1] == 'e' && t[2] == 'y' && t[3] == ':' && t[4] == ' ' && t[5] == 'D' && t[6] == ' ' && t[7] == '('
    requires t[8] == 'A' && t[9] == 'G' && t[10] == ':' && t[11] == 'A' && t[12] == ')' && t[13] == ' ' && t[14] == ' ' && t[15] == ' '
    requires t[16] == 'C' && t[17] == 'a' && t[18] == 'p' && t[19] == 'o' && t[20] == ':' && t[21] == ' ' && t[22] == '7'
    ensures var s := t + rest;
      s[0..5] == "Key: " && s[6..11] == " (AG:" && s[12..13] == ")" && s[13..|t|] == "   Capo:" + " " + "7"
  {
  }

  /** The kept parts and the new keys put back together. */
  lemma Capo5HeaderText(s: string, x: string, rest: string)
    requires |s| >= 13 && s[0..5] == "Key: " && s[6..11] == " (AG:" && s[12..13] == ")"
    requires x == "   Capo:" + " " + "7"
    ensures s[0..5] + "D" + s[6..11] + "A" + s[12..13] + (x + rest) == "Key: " + "D" + " (AG:" + "A" + ")" + "   Capo:" + " " + "7" + rest
  {
  }

  /** The Key header of the first line gets the key and the guitar key; the
      rest of the sheet holds no other header. */
  lemma Capo5Header(t: string, rest: string)
    requires |t| == 23
    requires t[0] == 'K' && t[1] == 'e' && t[2] == 'y' && t[3] == ':' && t[4] == ' ' && t[5] == 'D' && t[6] == ' ' && t[7] == '('
    requires t[8] == 'A' && t[9] == 'G' && t[10] == ':' && t[11] == 'A' && t[12] == ')' && t[13] == ' ' && t[14] == ' ' && t[15] == ' '
    requires t[16] == 'C' && t[17] == 'a' && t[18] == 'p' && t[19] == 'o' && t[20] == ':' && t[21] == ' ' && t[22] == '7'
    requires PairFree(rest, 'K', 'E') && (rest == [] || rest[0] == '\n')
    ensures ReplaceKeyHeaders(t + rest, 0, "D", "A") == "Key: " + "D" + " (AG:" + "A" + ")" + "   Capo:" + " " + "7" + rest
  {
    var s := t + rest;
    Capo5HeaderAt(s);
    HeaderFound(s, 0, Header(5, 6, 11, 12, 13), "D", "A");
    Capo5HeaderTail(t, rest);
    HeadersCopied(s, 13, |t|, "D", "A");
    HeadersAfter(t, rest, "D", "A");
    Capo5HeaderPieces(t, rest);
    Capo5HeaderText(s, s[13..|t|], rest);
  }

  /** The Capo pattern matches where the Capo field starts. */
  lemma Capo5CapoAt(s: string)
    requires |s| >= 23 && (|s| == 23 || s[23] == '\n')
    requires s[16] == 'C' && s[17] == 'a' && s[18] == 'p' && s[19] == 'o' && s[20] == ':' && s[21] == ' ' && s[22] == '7'
    ensures CapoAt(s, 16) == Some((22, 23))
  {
    assert WordAtI(s, "CAPO", 16, 4);
    assert WordAtI(s, "CAPO", 16, 3);
    assert WordAtI(s, "CAPO", 16, 2);
    assert WordAtI(s, "CAPO", 16, 1);
    assert WordAtI(s, "CAPO", 16, 0);
    assert SpaceEnd(s, 20) == 20;
    assert SpaceEnd(s, 22) == 22;
    assert SpaceEnd(s, 21) == 22;
    assert LabelColonEnd(s, "CAPO", 16) == Some(21);
    assert DigitRun(s, 23) == 0;
    assert DigitRun(s, 22) == 1;
  }

  /** No Capo label starts before the Capo field. */
  lemma Capo5CapoBefore(s: string)
    requires |s| > 16
    requires s[0] == 'K' && s[1] == 'e' && s[2] == 'y' && s[3] == ':' && s[4] == ' ' && s[5] == 'D' && s[6] == ' ' && s[7] == '('
    requires s[8] == 'A' && s[9] == 'G' && s[10] == ':' && s[11] == 'A' && s[12] == ')' && s[13] == ' ' && s[14] == ' ' && s[15] == ' '
    requires s[16] == 'C'
    ensures NoPairIn(s, 0, 16, 'C', 'A')
  {
    assert NoPairIn(s, 15, 16, 'C', 'A');
    assert NoPairIn(s, 14, 16, 'C', 'A');
    assert NoPairIn(s, 13, 16, 'C', 'A');
    assert NoPairIn(s, 12, 16, 'C', 'A');
    assert NoPairIn(s, 11, 16, 'C', 'A');
    assert NoPairIn(s, 10, 16, 'C', 'A');
    assert NoPairIn(s, 9, 16, 'C', 'A');
    assert NoPairIn(s, 8, 16, 'C', 'A');
    assert NoPairIn(s, 7, 16, 'C', 'A');
    assert NoPairIn(s, 6, 16, 'C', 'A');
    assert NoPairIn(s, 5, 16, 'C', 'A');
    assert NoPairIn(s, 4, 16, 'C', 'A');
    assert NoPairIn(s, 3, 16, 'C', 'A');
    assert NoPairIn(s, 2, 16, 'C', 'A');
    assert NoPairIn(s, 1, 16, 'C', 'A');
    assert NoPairIn(s, 0, 16, 'C', 'A');
  }

  /** The part of the line that the Capo rewrite keeps. */
  lemma Capo5CapoPieces(t: string, rest: string)
    requires |t| == 23
    requires t[0] == 'K' && t[1] == 'e' && t[2] == 'y' && t[3] == ':' && t[4] == ' ' && t[5] == 'D' && t[6] == ' ' && t[7] == '('
    requires t[8] == 'A' && t[9] == 'G' && t[10] == ':' && t[11] == 'A' && t[12] == ')' && t[13] == ' ' && t[14] == ' ' && t[15] == ' '
    requires t[16] == 'C' && t[17] == 'a' && t[18] == 'p' && t[19] == 'o' && t[20] == ':' && t[21] == ' ' && t[22] == '7'
    ensures var s := t + rest; s[0..16] + s[16..22] == "Key: " + "D" + " (AG:" + "A" + ")" + "   Capo:" + " "
  {
  }

  /** The kept part and the new capo put back together. */
  lemma Capo5CapoText(s: string, x: string, rest: string)
    requires |s| >= 22 && s[0..16] + s[16..22] == "Key: " + "D" + " (AG:" + "A" + ")" + "   Capo:" + " " && x == rest
    ensures s[0..16] + (s[16..22] + Decimal(5) + x) == "Key: " + "D" + " (AG:" + "A" + ")" + "   Capo:" + " " + "5" + rest
  {
  }

  /** The Capo field of the rewritten first line gets the new capo; the rest
      of the sheet holds no other Capo field. */
  lemma Capo5Capo(t: string, rest: string)
    requires |t| == 23
    requires t[0] == 'K' && t[1] == 'e' && t[2] == 'y' && t[3] == ':' && t[4] == ' ' && t[5] == 'D' && t[6] == ' ' && t[7] == '('
    requires t[8] == 'A' && t[9] == 'G' && t[10] == ':' && t[11] == 'A' && t[12] == ')' && t[13] == ' ' && t[14] == ' ' && t[15] == ' '
    requires t[16] == 'C' && t[17] == 'a' && t[18] == 'p' && t[19] == 'o' && t[20] == ':' && t[21] == ' ' && t[22] == '7'
    requires PairFree(rest, 'C', 'A') && (rest == [] || rest[0] == '\n')
    ensures ReplaceCapo(t + rest, 0, 5) == "Key: " + "D" + " (AG:" + "A" + ")" + "   Capo:" + " " + "5" + rest
  {
    var s := t + rest;
    Capo5CapoBefore(s);
    CapoCopied(s, 0, 16, 5);
    Capo5CapoAt(s);
    CapoFound(s, 16, 22, 23, 5);
    Capo5CapoPieces(t, rest);
    CapoAfter(t, rest, 5);
    Capo5CapoText(s, ReplaceCapo(s, 23, 5), rest);
  }

  /** The characters of the line the Key header rewrite gives. */
  lemma Capo5KeyedChars()
    ensures var t := "Key: " + "D" + " (AG:" + "A" + ")" + "   Capo:" + " " + "7";
      |t| == 23
      && t[0] == 'K' && t[1] == 'e' && t[2] == 'y' && t[3] == ':' && t[4] == ' ' && t[5] == 'D' && t[6] == ' ' && t[7] == '('
      && t[8] == 'A' && t[9] == 'G' && t[10] == ':' && t[11] == 'A' && t[12] == ')' && t[13] == ' ' && t[14] == ' ' && t[15] == ' '
      && t[16] == 'C' && t[17] == 'a' && t[18] == 'p' && t[19] == 'o' && t[20] == ':' && t[21] == ' ' && t[22] == '7'
  {
  }

  /** The Capo field of the line the Key header rewrite gives gets the new
      capo; the rest of the sheet holds no other Capo field. */
  lemma Capo5CapoField(rest: string)
    requires PairFree(rest, 'C', 'A') && (rest == [] || rest[0] == '\n')
    ensures ReplaceCapo("Key: " + "D" + " (AG:" + "A" + ")" + "   Capo:" + " " + "7" + rest, 0, 5) == "Key: D (AG:" + "A)   Capo: 5" + rest
  {
    assert "Key: " + "D" + " (AG:" + "A" + ")" + "   Capo:" + " " + "5" == "Key: D (AG:" + "A)   Capo: 5";
    Capo5KeyedChars();
    Capo5Capo("Key: " + "D" + " (AG:" + "A" + ")" + "   Capo:" + " " + "7", rest);
  }

  /** The first line: both fields rewritten, and the guitar key. */
  lemma Capo5FirstLine(l0: string, rest: string)
    requires |l0| == 23
    requires l0[0] == 'K' && l0[1] == 'e' && l0[2] == 'y' && l0[3] == ':' && l0[4] == ' ' && l0[5] == 'D' && l0[6] == ' ' && l0[7] == '('
    requires l0[8] == 'A' && l0[9] == 'G' && l0[10] == ':' && l0[11] == 'A' && l0[12] == ')' && l0[13] == ' ' && l0[14] == ' ' && l0[15] == ' '
    requires l0[16] == 'C' && l0[17] == 'a' && l0[18] == 'p' && l0[19] == 'o' && l0[20] == ':' && l0[21] == ' ' && l0[22] == '7'
    requires PairFree(rest, 'K', 'E') && PairFree(rest, 'C', 'A') && (rest == [] || rest[0] == '\n')
    ensures FirstLineRewritten(l0, rest, "D", 5, "A", "Key: " + "D" + " (AG:" + "A" + ")" + "   Capo:" + " " + "7", "Key: D (AG:" + "A)   Capo: 5")
  {
    Capo5Header(l0, rest);
    Capo5CapoField(rest);
    Capo5First();
    Capo5Guitar();
  }

  /** The rewritten first line is a Key line of one line. */
  lemma Capo5First()
    ensures NoNewline("Key: D (AG:" + "A)   Capo: 5") && HasKeyLabel("Key: D (AG:" + "A)   Capo: 5")
  {
    KeyLabelFirst("Key: D (AG:" + "A)   Capo: 5");
  }

  /** The guitar key: the key moved down by the capo. */
  lemma Capo5Guitar()
    ensures TransposedChord("D", -5) == Ok("A")
  {
    GuitarKeyIs("D", 5, "A");
  }

  /** The other lines hold no field. */
  lemma Capo5Plain(l1: string, l2: string, l3: string)
    requires NoNewline(l1) && PairFree(l1, 'K', 'E') && PairFree(l1, 'C', 'A')
    requires NoNewline(l2) && PairFree(l2, 'K', 'E') && PairFree(l2, 'C', 'A')
    requires NoNewline(l3) && PairFree(l3, 'K', 'E') && PairFree(l3, 'C', 'A')
    ensures PlainLines([l1, l2, l3])
  {
  }

  /** The other lines, each transposed on its own. */
  lemma Capo5Others(l1: string, l2: string, l3: string)
    requires l1 == ""
    ensures LinesTransposed([l1, l2, l3], "A", "A", [l1, l2, l3])
  {
    var ls := [l1, l2, l3];
    var os := [l1, l2, l3];
    forall k | 0 <= k < |ls| ensures TransposeChordSheet(ls[k], "A", "A") == os[k] {
      if k == 0 { } else if k == 1 { } else { }
    }
  }

  /** The whole sheet, its first line spelled one character at a time. */
  lemma Capo5Sheet(l0: string, l1: string, l2: string, l3: string)
    requires |l0| == 23
    requires l0[0] == 'K' && l0[1] == 'e' && l0[2] == 'y' && l0[3] == ':' && l0[4] == ' ' && l0[5] == 'D' && l0[6] == ' ' && l0[7] == '('
    requires l0[8] == 'A' && l0[9] == 'G' && l0[10] == ':' && l0[11] == 'A' && l0[12] == ')' && l0[13] == ' ' && l0[14] == ' ' && l0[15] == ' '
    requires l0[16] == 'C' && l0[17] == 'a' && l0[18] == 'p' && l0[19] == 'o' && l0[20] == ':' && l0[21] == ' ' && l0[22] == '7'
    requires NoNewline(l1) && PairFree(l1, 'K', 'E') && PairFree(l1, 'C', 'A')
    requires NoNewline(l2) && PairFree(l2, 'K', 'E') && PairFree(l2, 'C', 'A')
    requires NoNewline(l3) && PairFree(l3, 'K', 'E') && PairFree(l3, 'C', 'A')
    requires l1 == ""
    ensures SimulateCapoChange(Join([l0] + [l1, l2, l3]), "D", "A", 5) == Ok(Join(["Key: D (AG:" + "A)   Capo: 5"] + [l1, l2, l3]))
  {
    Capo5Plain(l1, l2, l3);
    Capo5Others(l1, l2, l3);
    RestIsPlain(l0, [l1, l2, l3]);
    Capo5FirstLine(l0, RestOfSheet([l0] + [l1, l2, l3]));
    SheetOfLines(l0, [l1, l2, l3], "D", "A", 5, "A", "Key: " + "D" + " (AG:" + "A" + ")" + "   Capo:" + " " + "7", "Key: D (AG:" + "A)   Capo: 5", [l1, l2, l3]);
  }

  /** Line 2 of the sheet holds no line break and no Key or Capo label. */
  lemma Capo5Facts2()
    ensures var t := "[Verse]";
      NoNewline(t) && PairFree(t, 'K', 'E') && PairFree(t, 'C', 'A')
  {
  }

  /** Line 3 of the sheet holds no line break and no Key or Capo label. */
  lemma Capo5Facts3()
    ensures var t := "   A    " + "      F#m";
      NoNewline(t) && PairFree(t, 'K', 'E') && PairFree(t, 'C', 'A')
  {
  }

  /** capo_test.js:195-215: D with the capo on fret 5 plays as A, the key the chords are written in, so they stay. */
  lemma Capo5Case()
    ensures SimulateCapoChange(Join(["Key: D (AG:" + "A)   Capo: 7", "", "[Verse]", "   A    " + "      F#m"]), "D", "A", 5)
            == Ok(Join(["Key: D (AG:" + "A)   Capo: 5", "", "[Verse]", "   A    " + "      F#m"]))
  {
    assert var t := "Key: D (AG:" + "A)   Capo: 7";
      |t| == 23
      && t[0] == 'K' && t[1] == 'e' && t[2] == 'y' && t[3] == ':' && t[4] == ' ' && t[5] == 'D' && t[6] == ' ' && t[7] == '('
      && t[8] == 'A' && t[9] == 'G' && t[10] == ':' && t[11] == 'A' && t[12] == ')' && t[13] == ' ' && t[14] == ' ' && t[15] == ' '
      && t[16] == 'C' && t[17] == 'a' && t[18] == 'p' && t[19] == 'o' && t[20] == ':' && t[21] == ' ' && t[22] == '7';
    Capo5Facts2();
    Capo5Facts3();
    Capo5Sheet("Key: D (AG:" + "A)   Capo: 7", "", "[Verse]", "   A    " + "      F#m");
  }

  // ----- the capo taken off -----

  /** The Key header pattern matches at the start of the first line. */
  lemma NoCapoHeaderAt(s: string)
    requires |s| >= 13
    requires s[0] == 'K' && s[1] == 'e' && s[2] == 'y' && s[3] == ':' && s[4] == ' ' && s[5] == 'G' && s[6] == ' ' && s[7] == '('
    requires s[8] == 'A' && s[9] == 'G' && s[10] == ':' && s[11] == 'D' && s[12] == ')'
    ensures KeyHeaderAt(s, 0) == Some(Header(5, 6, 11, 12, 13))
  {
    assert WordAtI(s, "KEY", 0, 3);
    assert WordAtI(s, "KEY", 0, 2);
    assert WordAtI(s, "KEY", 0, 1);
    assert WordAtI(s, "KEY", 0, 0);
    assert SpaceEnd(s, 3) == 3;
    assert LabelColonEnd(s, "KEY", 0) == Some(4);
    assert SpaceEnd(s, 5) == 5;
    assert SpaceEnd(s, 4) == 5;
    assert NoteEndI(s, 5) == Some(6);
    assert SpaceEnd(s, 7) == 7;
    assert SpaceEnd(s, 6) == 7;
    assert SpaceEnd(s, 8) == 8;
    assert WordAtI(s, "AG", 8, 2);
    assert WordAtI(s, "AG", 8, 1);
    assert WordAtI(s, "AG", 8, 0);
    assert SpaceEnd(s, 10) == 10;
    assert LabelColonEnd(s, "AG", 8) == Some(11);
    assert SpaceEnd(s, 11) == 11;
    assert NoteEndI(s, 11) == Some(12);
    assert SpaceEnd(s, 12) == 12;
  }

  /** After the Key header, no Key label starts on the first line. */
  lemma NoCapoHeaderTail(t: string, rest: string)
    requires |t| == 23
    requires t[13] == ' ' && t[14] == ' ' && t[15] == ' ' && t[16] == 'C' && t[17] == 'a' && t[18] == 'p' && t[19] == 'o' && t[20] == ':'
    requires t[21] == ' ' && t[22] == '5'
    requires rest == [] || rest[0] == '\n'
    ensures NoPairIn(t + rest, 13, |t|, 'K', 'E')
  {
    var s := t + rest;
    assert NoPairIn(s, 22, |t|, 'K', 'E');
    assert NoPairIn(s, 21, |t|, 'K', 'E');
    assert NoPairIn(s, 20, |t|, 'K', 'E');
    assert NoPairIn(s, 19, |t|, 'K', 'E');
    assert NoPairIn(s, 18, |t|, 'K', 'E');
    assert NoPairIn(s, 17, |t|, 'K', 'E');
    assert NoPairIn(s, 16, |t|, 'K', 'E');
    assert NoPairIn(s, 15, |t|, 'K', 'E');
    assert NoPairIn(s, 14, |t|, 'K', 'E');
    assert NoPairIn(s, 13, |t|, 'K', 'E');
  }

  /** The parts of the first line that the Key header rewrite keeps. */
  lemma NoCapoHeaderPieces(t: string, rest: string)
    requires |t| == 23
    requires t[0] == 'K' && t[1] == 'e' && t[2] == 'y' && t[3] == ':' && t[4] == ' ' && t[5] == 'G' && t[6] == ' ' && t[7] == '('
    requires t[8] == 'A' && t[9] == 'G' && t[10] == ':' && t[11] == 'D' && t[12] == ')' && t[13] == ' ' && t[14] == ' ' && t[15] == ' '
    requires t[16] == 'C' && t[17] == 'a' && t[18] == 'p' && t[19] == 'o' && t[20] == ':' && t[21] == ' ' && t[22] == '5'
    ensures var s := t + rest;
      s[0..5] == "Key: " && s[6..11] == " (AG:" && s[12..13] == ")" && s[13..|t|] == "   Capo:" + " " + "5"
  {
  }

  /** The kept parts and the new keys put back together. */
  lemma NoCapoHeaderText(s: string, x: string, rest: string)
    requires |s| >= 13 && s[0..5] == "Key: " && s[6..11] == " (AG:" && s[12..13] == ")"
    requires x == "   Capo:" + " " + "5"
    ensures s[0..5] + "G" + s[6..11] + "G" + s[12..13] + (x + rest) == "Key: " + "G" + " (AG:" + "G" + ")" + "   Capo:" + " " + "5" + rest
  {
  }

  /** The Key header of the first line gets the key and the guitar key; the
      rest of the sheet holds no other header. */
  lemma NoCapoHeader(t: string, rest: string)
    requires |t| == 23
    requires t[0] == 'K' && t[1] == 'e' && t[2] == 'y' && t[3] == ':' && t[4] == ' ' && t[5] == 'G' && t[6] == ' ' && t[7] == '('
    requires t[8] == 'A' && t[9] == 'G' && t[10] == ':' && t[11] == 'D' && t[12] == ')' && t[13] == ' ' && t[14] == ' ' && t[15] == ' '
    requires t[16] == 'C' && t[17] == 'a' && t[18] == 'p' && t[19] == 'o' && t[20] == ':' && t[21] == ' ' && t[22] == '5'
    requires PairFree(rest, 'K', 'E') && (rest == [] || rest[0] == '\n')
    ensures ReplaceKeyHeaders(t + rest, 0, "G", "G") == "Key: " + "G" + " (AG:" + "G" + ")" + "   Capo:" + " " + "5" + rest
  {
    var s := t + rest;
    NoCapoHeaderAt(s);
    HeaderFound(s, 0, Header(5, 6, 11, 12, 13), "G", "G");
    NoCapoHeaderTail(t, rest);
    HeadersCopied(s, 13, |t|, "G", "G");
    HeadersAfter(t, rest, "G", "G");
    NoCapoHeaderPieces(t, rest);
    NoCapoHeaderText(s, s[13..|t|], rest);
  }

  /** The Capo pattern matches where the Capo field starts. */
  lemma NoCapoCapoAt(s: string)
    requires |s| >= 23 && (|s| == 23 || s[23] == '\n')
    requires s[16] == 'C' && s[17] == 'a' && s[18] == 'p' && s[19] == 'o' && s[20] == ':' && s[21] == ' ' && s[22] == '5'
    ensures CapoAt(s, 16) == Some((22, 23))
  {
    assert WordAtI(s, "CAPO", 16, 4);
    assert WordAtI(s, "CAPO", 16, 3);
    assert WordAtI(s, "CAPO", 16, 2);
    assert WordAtI(s, "CAPO", 16, 1);
    assert WordAtI(s, "CAPO", 16, 0);
    assert SpaceEnd(s, 20) == 20;
    assert SpaceEnd(s, 22) == 22;
    assert SpaceEnd(s, 21) == 22;
    assert LabelColonEnd(s, "CAPO", 16) == Some(21);
    assert DigitRun(s, 23) == 0;
    assert DigitRun(s, 22) == 1;
  }

  /** No Capo label starts before the Capo field. */
  lemma NoCapoCapoBefore(s: string)
    requires |s| > 16
    requires s[0] == 'K' && s[1] == 'e' && s[2] == 'y' && s[3] == ':' && s[4] == ' ' && s[5] == 'G' && s[6] == ' ' && s[7] == '('
    requires s[8] == 'A' && s[9] == 'G' && s[10] == ':' && s[11] == 'G' && s[12] == ')' && s[13] == ' ' && s[14] == ' ' && s[15] == ' '
    requires s[16] == 'C'
    ensures NoPairIn(s, 0, 16, 'C', 'A')
  {
    assert NoPairIn(s, 15, 16, 'C', 'A');
    assert NoPairIn(s, 14, 16, 'C', 'A');
    assert NoPairIn(s, 13, 16, 'C', 'A');
    assert NoPairIn(s, 12, 16, 'C', 'A');
    assert NoPairIn(s, 11, 16, 'C', 'A');
    assert NoPairIn(s, 10, 16, 'C', 'A');
    assert NoPairIn(s, 9, 16, 'C', 'A');
    assert NoPairIn(s, 8, 16, 'C', 'A');
    assert NoPairIn(s, 7, 16, 'C', 'A');
    assert NoPairIn(s, 6, 16, 'C', 'A');
    assert NoPairIn(s, 5, 16, 'C', 'A');
    assert NoPairIn(s, 4, 16, 'C', 'A');
    assert NoPairIn(s, 3, 16, 'C', 'A');
    assert NoPairIn(s, 2, 16, 'C', 'A');
    assert NoPairIn(s, 1, 16, 'C', 'A');
    assert NoPairIn(s, 0, 16, 'C', 'A');
  }

  /** The part of the line that the Capo rewrite keeps. */
  lemma NoCapoCapoPieces(t: string, rest: string)
    requires |t| == 23
    requires t[0] == 'K' && t[1] == 'e' && t[2] == 'y' && t[3] == ':' && t[4] == ' ' && t[5] == 'G' && t[6] == ' ' && t[7] == '('
    requires t[8] == 'A' && t[9] == 'G' && t[10] == ':' && t[11] == 'G' && t[12] == ')' && t[13] == ' ' && t[14] == ' ' && t[15] == ' '
    requires t[16] == 'C' && t[17] == 'a' && t[18] == 'p' && t[19] == 'o' && t[20] == ':' && t[21] == ' ' && t[22] == '5'
    ensures var s := t + rest; s[0..16] + s[16..22] == "Key: " + "G" + " (AG:" + "G" + ")" + "   Capo:" + " "
  {
  }

  /** The kept part and the new capo put back together. */
  lemma NoCapoCapoText(s: string, x: string, rest: string)
    requires |s| >= 22 && s[0..16] + s[16..22] == "Key: " + "G" + " (AG:" + "G" + ")" + "   Capo:" + " " && x == rest
    ensures s[0..16] + (s[16..22] + Decimal(0) + x) == "Key: " + "G" + " (AG:" + "G" + ")" + "   Capo:" + " " + "0" + rest
  {
  }

  /** The Capo field of the rewritten first line gets the new capo; the rest
      of the sheet holds no other Capo field. */
  lemma NoCapoCapo(t: string, rest: string)
    requires |t| == 23
    requires t[0] == 'K' && t[1] == 'e' && t[2] == 'y' && t[3] == ':' && t[4] == ' ' && t[5] == 'G' && t[6] == ' ' && t[7] == '('
    requires t[8] == 'A' && t[9] == 'G' && t[10] == ':' && t[11] == 'G' && t[12] == ')' && t[13] == ' ' && t[14] == ' ' && t[15] == ' '
    requires t[16] == 'C' && t[17] == 'a' && t[18] == 'p' && t[19] == 'o' && t[20] == ':' && t[21] == ' ' && t[22] == '5'
    requires PairFree(rest, 'C', 'A') && (rest == [] || rest[0] == '\n')
    ensures ReplaceCapo(t + rest, 0, 0) == "Key: " + "G" + " (AG:" + "G" + ")" + "   Capo:" + " " + "0" + rest
  {
    var s := t + rest;
    NoCapoCapoBefore(s);
    CapoCopied(s, 0, 16, 0);
    NoCapoCapoAt(s);
    CapoFound(s, 16, 22, 23, 0);
    NoCapoCapoPieces(t, rest);
    CapoAfter(t, rest, 0);
    NoCapoCapoText(s, ReplaceCapo(s, 23, 0), rest);
  }

  /** The characters of the line the Key header rewrite gives. */
  lemma NoCapoKeyedChars()
    ensures var t := "Key: " + "G" + " (AG:" + "G" + ")" + "   Capo:" + " " + "5";
      |t| == 23
      && t[0] == 'K' && t[1] == 'e' && t[2] == 'y' && t[3] == ':' && t[4] == ' ' && t[5] == 'G' && t[6] == ' ' && t[7] == '('
      && t[8] == 'A' && t[9] == 'G' && t[10] == ':' && t[11] == 'G' && t[12] == ')' && t[13] == ' ' && t[14] == ' ' && t[15] == ' '
      && t[16] == 'C' && t[17] == 'a' && t[18] == 'p' && t[19] == 'o' && t[20] == ':' && t[21] == ' ' && t[22] == '5'
  {
  }

  /** The Capo field of the line the Key header rewrite gives gets the new
      capo; the rest of the sheet holds no other Capo field. */
  lemma NoCapoCapoField(rest: string)
    requires PairFree(rest, 'C', 'A') && (rest == [] || rest[0] == '\n')
    ensures ReplaceCapo("Key: " + "G" + " (AG:" + "G" + ")" + "   Capo:" + " " + "5" + rest, 0, 0) == "Key: G (AG:" + "G)   Capo: 0" + rest
  {
    assert "Key: " + "G" + " (AG:" + "G" + ")" + "   Capo:" + " " + "0" == "Key: G (AG:" + "G)   Capo: 0";
    NoCapoKeyedChars();
    NoCapoCapo("Key: " + "G" + " (AG:" + "G" + ")" + "   Capo:" + " " + "5", rest);
  }

  /** The first line: both fields rewritten, and the guitar key. */
  lemma NoCapoFirstLine(l0: string, rest: string)
    requires |l0| == 23
    requires l0[0] == 'K' && l0[1] == 'e' && l0[2] == 'y' && l0[3] == ':' && l0[4] == ' ' && l0[5] == 'G' && l0[6] == ' ' && l0[7] == '('
    requires l0[8] == 'A' && l0[9] == 'G' && l0[10] == ':' && l0[11] == 'D' && l0[12] == ')' && l0[13] == ' ' && l0[14] == ' ' && l0[15] == ' '
    requires l0[16] == 'C' && l0[17] == 'a' && l0[18] == 'p' && l0[19] == 'o' && l0[20] == ':' && l0[21] == ' ' && l0[22] == '5'
    requires PairFree(rest, 'K', 'E') && PairFree(rest, 'C', 'A') && (rest == [] || rest[0] == '\n')
    ensures FirstLineRewritten(l0, rest, "G", 0, "G", "Key: " + "G" + " (AG:" + "G" + ")" + "   Capo:" + " " + "5", "Key: G (AG:" + "G)   Capo: 0")
  {
    NoCapoHeader(l0, rest);
    NoCapoCapoField(rest);
    NoCapoFirst();
    NoCapoGuitar();
  }

  /** The rewritten first line is a Key line of one line. */
  lemma NoCapoFirst()
    ensures NoNewline("Key: G (AG:" + "G)   Capo: 0") && HasKeyLabel("Key: G (AG:" + "G)   Capo: 0")
  {
    KeyLabelFirst("Key: G (AG:" + "G)   Capo: 0");
  }

  /** The guitar key: the key moved down by the capo. */
  lemma NoCapoGuitar()
    ensures TransposedChord("G", -0) == Ok("G")
  {
    GuitarKeyIs("G", 0, "G");
  }

  /** The whole sheet, its first line spelled one character at a time. */
  lemma NoCapoSheet(l0: string)
    requires |l0| == 23
    requires l0[0] == 'K' && l0[1] == 'e' && l0[2] == 'y' && l0[3] == ':' && l0[4] == ' ' && l0[5] == 'G' && l0[6] == ' ' && l0[7] == '('
    requires l0[8] == 'A' && l0[9] == 'G' && l0[10] == ':' && l0[11] == 'D' && l0[12] == ')' && l0[13] == ' ' && l0[14] == ' ' && l0[15] == ' '
    requires l0[16] == 'C' && l0[17] == 'a' && l0[18] == 'p' && l0[19] == 'o' && l0[20] == ':' && l0[21] == ' ' && l0[22] == '5'
    ensures SimulateCapoChange(Join([l0] + []), "G", "D", 0) == Ok(Join(["Key: G (AG:" + "G)   Capo: 0"] + []))
  {
    RestIsPlain(l0, []);
    NoCapoFirstLine(l0, RestOfSheet([l0] + []));
    SheetOfLines(l0, [], "G", "D", 0, "G", "Key: " + "G" + " (AG:" + "G" + ")" + "   Capo:" + " " + "5", "Key: G (AG:" + "G)   Capo: 0", []);
  }

  /** capo_test.js:218-231: without a capo the guitar key is the key itself. */
  lemma NoCapoCase()
    ensures SimulateCapoChange(Join(["Key: G (AG:" + "D)   Capo: 5"]), "G", "D", 0)
            == Ok(Join(["Key: G (AG:" + "G)   Capo: 0"]))
  {
    assert var t := "Key: G (AG:" + "D)   Capo: 5";
      |t| == 23
      && t[0] == 'K' && t[1] == 'e' && t[2] == 'y' && t[3] == ':' && t[4] == ' ' && t[5] == 'G' && t[6] == ' ' && t[7] == '('
      && t[8] == 'A' && t[9] == 'G' && t[10] == ':' && t[11] == 'D' && t[12] == ')' && t[13] == ' ' && t[14] == ' ' && t[15] == ' '
      && t[16] == 'C' && t[17] == 'a' && t[18] == 'p' && t[19] == 'o' && t[20] == ':' && t[21] == ' ' && t[22] == '5';
    NoCapoSheet("Key: G (AG:" + "D)   Capo: 5");
  }

  // ----- a chorus of extended chords -----

  /** The Key header pattern matches at the start of the first line. */
  lemma ChorusHeaderAt(s: string)
    requires |s| >= 13
    requires s[0] == 'K' && s[1] == 'e' && s[2] == 'y' && s[3] == ':' && s[4] == ' ' && s[5] == 'C' && s[6] == ' ' && s[7] == '('
    requires s[8] == 'A' && s[9] == 'G' && s[10] == ':' && s[11] == 'G' && s[12] == ')'
    ensures KeyHeaderAt(s, 0) == Some(Header(5, 6, 11, 12, 13))
  {
    assert WordAtI(s, "KEY", 0, 3);
    assert WordAtI(s, "KEY", 0, 2);
    assert WordAtI(s, "KEY", 0, 1);
    assert WordAtI(s, "KEY", 0, 0);
    assert SpaceEnd(s, 3) == 3;
    assert LabelColonEnd(s, "KEY", 0) == Some(4);
    assert SpaceEnd(s, 5) == 5;
    assert SpaceEnd(s, 4) == 5;
    assert NoteEndI(s, 5) == Some(6);
    assert SpaceEnd(s, 7) == 7;
    assert SpaceEnd(s, 6) == 7;
    assert SpaceEnd(s, 8) == 8;
    assert WordAtI(s, "AG", 8, 2);
    assert WordAtI(s, "AG", 8, 1);
    assert WordAtI(s, "AG", 8, 0);
    assert SpaceEnd(s, 10) == 10;
    assert LabelColonEnd(s, "AG", 8) == Some(11);
    assert SpaceEnd(s, 11) == 11;
    assert NoteEndI(s, 11) == Some(12);
    assert SpaceEnd(s, 12) == 12;
  }

  /** After the Key header, no Key label starts on the first line. */
  lemma ChorusHeaderTail(t: string, rest: string)
    requires |t| == 23
    requires t[13] == ' ' && t[14] == ' ' && t[15] == ' ' && t[16] == 'C' && t[17] == 'a' && t[18] == 'p' && t[19] == 'o' && t[20] == ':'
    requires t[21] == ' ' && t[22] == '5'
    requires rest == [] || rest[0] == '\n'
    ensures NoPairIn(t + rest, 13, |t|, 'K', 'E')
  {
    var s := t + rest;
    assert NoPairIn(s, 22, |t|, 'K', 'E');
    assert NoPairIn(s, 21, |t|, 'K', 'E');
    assert NoPairIn(s, 20, |t|, 'K', 'E');
    assert NoPairIn(s, 19, |t|, 'K', 'E');
    assert NoPairIn(s, 18, |t|, 'K', 'E');
    assert NoPairIn(s, 17, |t|, 'K', 'E');
    assert NoPairIn(s, 16, |t|, 'K', 'E');
    assert NoPairIn(s, 15, |t|, 'K', 'E');
    assert NoPairIn(s, 14, |t|, 'K', 'E');
    assert NoPairIn(s, 13, |t|, 'K', 'E');
  }

  /** The parts of the first line that the Key header rewrite keeps. */
  lemma ChorusHeaderPieces(t: string, rest: string)
    requires |t| == 23
    requires t[0] == 'K' && t[1] == 'e' && t[2] == 'y' && t[3] == ':' && t[4] == ' ' && t[5] == 'C' && t[6] == ' ' && t[7] == '('
    requires t[8] == 'A' && t[9] == 'G' && t[10] == ':' && t[11] == 'G' && t[12] == ')' && t[13] == ' ' && t[14] == ' ' && t[15] == ' '
    requires t[16] == 'C' && t[17] == 'a' && t[18] == 'p' && t[19] == 'o' && t[20] == ':' && t[21] == ' ' && t[22] == '5'
    ensures var s := t + rest;
      s[0..5] == "Key: " && s[6..11] == " (AG:" && s[12..13] == ")" && s[13..|t|] == "   Capo:" + " " + "5"
  {
  }

  /** The kept parts and the new keys put back together. */
  lemma ChorusHeaderText(s: string, x: string, rest: string)
    requires |s| >= 13 && s[0..5] == "Key: " && s[6..11] == " (AG:" && s[12..13] == ")"
    requires x == "   Capo:" + " " + "5"
    ensures s[0..5] + "C" + s[6..11] + "C" + s[12..13] + (x + rest) == "Key: " + "C" + " (AG:" + "C" + ")" + "   Capo:" + " " + "5" + rest
  {
  }

  /** The Key header of the first line gets the key and the guitar key; the
      rest of the sheet holds no other header. */
  lemma ChorusHeader(t: string, rest: string)
    requires |t| == 23
    requires t[0] == 'K' && t[1] == 'e' && t[2] == 'y' && t[3] == ':' && t[4] == ' ' && t[5] == 'C' && t[6] == ' ' && t[7] == '('
    requires t[8] == 'A' && t[9] == 'G' && t[10] == ':' && t[11] == 'G' && t[12] == ')' && t[13] == ' ' && t[14] == ' ' && t[15] == ' '
    requires t[16] == 'C' && t[17] == 'a' && t[18] == 'p' && t[19] == 'o' && t[20] == ':' && t[21] == ' ' && t[22] == '5'
    requires PairFree(rest, 'K', 'E') && (rest == [] || rest[0] == '\n')
    ensures ReplaceKeyHeaders(t + rest, 0, "C", "C") == "Key: " + "C" + " (AG:" + "C" + ")" + "   Capo:" + " " + "5" + rest
  {
    var s := t + rest;
    ChorusHeaderAt(s);
    HeaderFound(s, 0, Header(5, 6, 11, 12, 13), "C", "C");
    ChorusHeaderTail(t, rest);
    HeadersCopied(s, 13, |t|, "C", "C");
    HeadersAfter(t, rest, "C", "C");
    ChorusHeaderPieces(t, rest);
    ChorusHeaderText(s, s[13..|t|], rest);
  }

  /** The Capo pattern matches where the Capo field starts. */
  lemma ChorusCapoAt(s: string)
    requires |s| >= 23 && (|s| == 23 || s[23] == '\n')
    requires s[16] == 'C' && s[17] == 'a' && s[18] == 'p' && s[19] == 'o' && s[20] == ':' && s[21] == ' ' && s[22] == '5'
    ensures CapoAt(s, 16) == Some((22, 23))
  {
    assert WordAtI(s, "CAPO", 16, 4);
    assert WordAtI(s, "CAPO", 16, 3);
    assert WordAtI(s, "CAPO", 16, 2);
    assert WordAtI(s, "CAPO", 16, 1);
    assert WordAtI(s, "CAPO", 16, 0);
    assert SpaceEnd(s, 20) == 20;
    assert SpaceEnd(s, 22) == 22;
    assert SpaceEnd(s, 21) == 22;
    assert LabelColonEnd(s, "CAPO", 16) == Some(21);
    assert DigitRun(s, 23) == 0;
    assert DigitRun(s, 22) == 1;
  }

  /** No Capo label starts before the Capo field. */
  lemma ChorusCapoBefore(s: string)
    requires |s| > 16
    requires s[0] == 'K' && s[1] == 'e' && s[2] == 'y' && s[3] == ':' && s[4] == ' ' && s[5] == 'C' && s[6] == ' ' && s[7] == '('
    requires s[8] == 'A' && s[9] == 'G' && s[10] == ':' && s[11] == 'C' && s[12] == ')' && s[13] == ' ' && s[14] == ' ' && s[15] == ' '
    requires s[16] == 'C'
    ensures NoPairIn(s, 0, 16, 'C', 'A')
  {
    assert NoPairIn(s, 15, 16, 'C', 'A');
    assert NoPairIn(s, 14, 16, 'C', 'A');
    assert NoPairIn(s, 13, 16, 'C', 'A');
    assert NoPairIn(s, 12, 16, 'C', 'A');
    assert NoPairIn(s, 11, 16, 'C', 'A');
    assert NoPairIn(s, 10, 16, 'C', 'A');
    assert NoPairIn(s, 9, 16, 'C', 'A');
    assert NoPairIn(s, 8, 16, 'C', 'A');
    assert NoPairIn(s, 7, 16, 'C', 'A');
    assert NoPairIn(s, 6, 16, 'C', 'A');
    assert NoPairIn(s, 5, 16, 'C', 'A');
    assert NoPairIn(s, 4, 16, 'C', 'A');
    assert NoPairIn(s, 3, 16, 'C', 'A');
    assert NoPairIn(s, 2, 16, 'C', 'A');
    assert NoPairIn(s, 1, 16, 'C', 'A');
    assert NoPairIn(s, 0, 16, 'C', 'A');
  }

  /** The part of the line that the Capo rewrite keeps. */
  lemma ChorusCapoPieces(t: string, rest: string)
    requires |t| == 23
    requires t[0] == 'K' && t[1] == 'e' && t[2] == 'y' && t[3] == ':' && t[4] == ' ' && t[5] == 'C' && t[6] == ' ' && t[7] == '('
    requires t[8] == 'A' && t[9] == 'G' && t[10] == ':' && t[11] == 'C' && t[12] == ')' && t[13] == ' ' && t[14] == ' ' && t[15] == ' '
    requires t[16] == 'C' && t[17] == 'a' && t[18] == 'p' && t[19] == 'o' && t[20] == ':' && t[21] == ' ' && t[22] == '5'
    ensures var s := t + rest; s[0..16] + s[16..22] == "Key: " + "C" + " (AG:" + "C" + ")" + "   Capo:" + " "
  {
  }

  /** The kept part and the new capo put back together. */
  lemma ChorusCapoText(s: string, x: string, rest: string)
    requires |s| >= 22 && s[0..16] + s[16..22] == "Key: " + "C" + " (AG:" + "C" + ")" + "   Capo:" + " " && x == rest
    ensures s[0..16] + (s[16..22] + Decimal(0) + x) == "Key: " + "C" + " (AG:" + "C" + ")" + "   Capo:" + " " + "0" + rest
  {
  }

  /** The Capo field of the rewritten first line gets the new capo; the rest
      of the sheet holds no other Capo field. */
  lemma ChorusCapo(t: string, rest: string)
    requires |t| == 23
    requires t[0] == 'K' && t[1] == 'e' && t[2] == 'y' && t[3] == ':' && t[4] == ' ' && t[5] == 'C' && t[6] == ' ' && t[7] == '('
    requires t[8] == 'A' && t[9] == 'G' && t[10] == ':' && t[11] == 'C' && t[12] == ')' && t[13] == ' ' && t[14] == ' ' && t[15] == ' '
    requires t[16] == 'C' && t[17] == 'a' && t[18] == 'p' && t[19] == 'o' && t[20] == ':' && t[21] == ' ' && t[22] == '5'
    requires PairFree(rest, 'C', 'A') && (rest == [] || rest[0] == '\n')
    ensures ReplaceCapo(t + rest, 0, 0) == "Key: " + "C" + " (AG:" + "C" + ")" + "   Capo:" + " " + "0" + rest
  {
    var s := t + rest;
    ChorusCapoBefore(s);
    CapoCopied(s, 0, 16, 0);
    ChorusCapoAt(s);
    CapoFound(s, 16, 22, 23, 0);
    ChorusCapoPieces(t, rest);
    CapoAfter(t, rest, 0);
    ChorusCapoText(s, ReplaceCapo(s, 23, 0), rest);
  }

  // ----- line 2 of the Chorus sheet -----

  /** The plain text from position 0. */
  lemma ChorusL2Text0(s: string)
    requires |s| == 8
    requires s[0] == '[' && s[1] == 'C' && s[2] == 'h' && s[3] == 'o' && s[4] == 'r' && s[5] == 'u' && s[6] == 's' && s[7] == ']'
    ensures s[0..8] == "[Chorus]"
  {
  }

  /** The scan from position 0 to the end. */
  lemma ChorusL2From0(s: string)
    requires |s| == 8
    requires s[0] == '[' && s[1] == 'C' && s[2] == 'h' && s[3] == 'o' && s[4] == 'r' && s[5] == 'u' && s[6] == 's' && s[7] == ']'
    ensures Transpose.ShiftPieces(Tokenize(s, 0, false), 5) == "[Chorus]"
  {
    NoMatchInWord(s, 1, false);
    assert NoMatchFrom(s, 7, 8, false);
    assert NoMatchFrom(s, 6, 8, false);
    assert NoMatchFrom(s, 5, 8, false);
    assert NoMatchFrom(s, 4, 8, false);
    assert NoMatchFrom(s, 3, 8, false);
    assert NoMatchFrom(s, 2, 8, false);
    assert NoMatchFrom(s, 1, 8, false);
    assert NoMatchFrom(s, 0, 8, false);
    Transpose.ShiftScanPlain(s, 0, 8, false, 5, Transpose.ShiftPieces(Tokenize(s, 8, false), 5));
    ChorusL2Text0(s);
    assert Tokenize(s, 8, false) == [];
  }

  /** The text `[Chorus]`, spelled one character at a time. */
  lemma ChorusL2Line(s: string)
    requires |s| == 8
    requires s[0] == '[' && s[1] == 'C' && s[2] == 'h' && s[3] == 'o' && s[4] == 'r' && s[5] == 'u' && s[6] == 's' && s[7] == ']'
    ensures TransposeChordSheet(s, "G", "C") == "[Chorus]"
  {
    ChorusL2From0(s);
    ChorusDiff();
    CapoTest.SheetFromScan(s, "G", "C", 5, "[Chorus]");
  }

  // ----- line 3 of the Chorus sheet -----

  /** The plain text from position 0. */
  lemma ChorusL3Text0(s: string)
    requires |s| == 24
    requires s[0] == ' ' && s[1] == ' ' && s[2] == ' ' && s[3] == ' ' && s[4] == ' ' && s[5] == ' '
    ensures s[0..6] == "      "
  {
  }

  /** The chord `Gmaj7` at 6: the root, after a word boundary. */
  lemma ChorusL3Greedy6Root(s: string)
    requires |s| == 24
    requires s[5] == ' ' && s[6] == 'G' && s[7] == 'm' && s[8] == 'a' && s[9] == 'j' && s[10] == '7' && s[11] == ' '
    ensures Boundary(s, 6) && RootEnd(s, 6) == 7
  {
  }

  /** The chord `Gmaj7` at 6: the quality word. */
  lemma ChorusL3Greedy6Quality(s: string)
    requires |s| == 24
    requires s[5] == ' ' && s[6] == 'G' && s[7] == 'm' && s[8] == 'a' && s[9] == 'j' && s[10] == '7' && s[11] == ' '
    ensures QualityEnd(s, 7, Qualities) == 10
  {
    QualityEndFirst(s, 7);
  }

  /** The chord `Gmaj7` at 6: the digits and the alteration. */
  lemma ChorusL3Greedy6Digits(s: string)
    requires |s| == 24
    requires s[5] == ' ' && s[6] == 'G' && s[7] == 'm' && s[8] == 'a' && s[9] == 'j' && s[10] == '7' && s[11] == ' '
    ensures DigitRun(s, 10) == 1 && AlterationEnd(s, 11) == 11
  {
  }

  /** The chord `Gmaj7` at 6: the slash group and the closing boundary. */
  lemma ChorusL3Greedy6Slash(s: string)
    requires |s| == 24
    requires s[5] == ' ' && s[6] == 'G' && s[7] == 'm' && s[8] == 'a' && s[9] == 'j' && s[10] == '7' && s[11] == ' '
    ensures TrySlash(s, 7, 11, false) == Some(Candidate(7, 11, None))
  {
  }

  /** The chord `Gmaj7` at 6: the whole match. */
  lemma ChorusL3Match6(s: string)
    requires |s| == 24
    requires s[5] == ' ' && s[6] == 'G' && s[7] == 'm' && s[8] == 'a' && s[9] == 'j' && s[10] == '7' && s[11] == ' '
    ensures MatchAt(s, 6, false) == Some(Candidate(7, 11, None))
  {
    ChorusL3Greedy6Root(s);
    ChorusL3Greedy6Quality(s);
    ChorusL3Greedy6Digits(s);
    ChorusL3Greedy6Slash(s);
    MatchGreedy(s, 6, false, 7, 10, 11, 11, Candidate(7, 11, None));
  }

  /** The chord `Gmaj7` at 6: moved by the reference reading. */
  lemma ChorusL3Chord6(s: string)
    requires |s| == 24
    requires s[6] == 'G' && s[7] == 'm' && s[8] == 'a' && s[9] == 'j' && s[10] == '7'
    ensures Transpose.ShiftedChord(Chord(s[6..7], s[7..11], None), 5) == "Cmaj7"
  {
    assert s[6..7] == "G" && s[7..11] == "maj7";
  }

  /** The plain text from position 11. */
  lemma ChorusL3Text11(s: string)
    requires |s| == 24
    requires s[11] == ' ' && s[12] == ' '
    ensures s[11..13] == "  "
  {
  }

  /** The chord `Asus4` at 13: the root, after a word boundary. */
  lemma ChorusL3Greedy13Root(s: string)
    requires |s| == 24
    requires s[12] == ' ' && s[13] == 'A' && s[14] == 's' && s[15] == 'u' && s[16] == 's' && s[17] == '4' && s[18] == ' '
    ensures Boundary(s, 13) && RootEnd(s, 13) == 14
  {
  }

  /** The chord `Asus4` at 13: the quality word. */
  lemma ChorusL3Greedy13Quality(s: string)
    requires |s| == 24
    requires s[12] == ' ' && s[13] == 'A' && s[14] == 's' && s[15] == 'u' && s[16] == 's' && s[17] == '4' && s[18] == ' '
    ensures QualityEnd(s, 14, Qualities) == 17
  {
    QualityEndFirst(s, 14);
  }

  /** The chord `Asus4` at 13: the digits and the alteration. */
  lemma ChorusL3Greedy13Digits(s: string)
    requires |s| == 24
    requires s[12] == ' ' && s[13] == 'A' && s[14] == 's' && s[15] == 'u' && s[16] == 's' && s[17] == '4' && s[18] == ' '
    ensures DigitRun(s, 17) == 1 && AlterationEnd(s, 18) == 18
  {
  }

  /** The chord `Asus4` at 13: the slash group and the closing boundary. */
  lemma ChorusL3Greedy13Slash(s: string)
    requires |s| == 24
    requires s[12] == ' ' && s[13] == 'A' && s[14] == 's' && s[15] == 'u' && s[16] == 's' && s[17] == '4' && s[18] == ' '
    ensures TrySlash(s, 14, 18, false) == Some(Candidate(14, 18, None))
  {
  }

  /** The chord `Asus4` at 13: the whole match. */
  lemma ChorusL3Match13(s: string)
    requires |s| == 24
    requires s[12] == ' ' && s[13] == 'A' && s[14] == 's' && s[15] == 'u' && s[16] == 's' && s[17] == '4' && s[18] == ' '
    ensures MatchAt(s, 13, false) == Some(Candidate(14, 18, None))
  {
    ChorusL3Greedy13Root(s);
    ChorusL3Greedy13Quality(s);
    ChorusL3Greedy13Digits(s);
    ChorusL3Greedy13Slash(s);
    MatchGreedy(s, 13, false, 14, 17, 18, 18, Candidate(14, 18, None));
  }

  /** The chord `Asus4` at 13: moved by the reference reading. */
  lemma ChorusL3Chord13(s: string)
    requires |s| == 24
    requires s[13] == 'A' && s[14] == 's' && s[15] == 'u' && s[16] == 's' && s[17] == '4'
    ensures Transpose.ShiftedChord(Chord(s[13..14], s[14..18], None), 5) == "Dsus4"
  {
    assert s[13..14] == "A" && s[14..18] == "sus4";
  }

  /** The plain text from position 18. */
  lemma ChorusL3Text18(s: string)
    requires |s| == 24
    requires s[18] == ' ' && s[19] == ' ' && s[20] == ' ' && s[21] == ' '
    ensures s[18..22] == "    "
  {
  }

  /** The chord `C` at 22: the root, after a word boundary. */
  lemma ChorusL3Greedy22Root(s: string)
    requires |s| == 24
    requires s[21] == ' ' && s[22] == 'C' && s[23] == ' '
    ensures Boundary(s, 22) && RootEnd(s, 22) == 23
  {
  }

  /** The chord `C` at 22: the quality word. */
  lemma ChorusL3Greedy22Quality(s: string)
    requires |s| == 24
    requires s[21] == ' ' && s[22] == 'C' && s[23] == ' '
    ensures QualityEnd(s, 23, Qualities) == 23
  {
    QualityEndFirst(s, 23);
  }

  /** The chord `C` at 22: the digits and the alteration. */
  lemma ChorusL3Greedy22Digits(s: string)
    requires |s| == 24
    requires s[21] == ' ' && s[22] == 'C' && s[23] == ' '
    ensures DigitRun(s, 23) == 0 && AlterationEnd(s, 23) == 23
  {
  }

  /** The chord `C` at 22: the slash group and the closing boundary. */
  lemma ChorusL3Greedy22Slash(s: string)
    requires |s| == 24
    requires s[21] == ' ' && s[22] == 'C' && s[23] == ' '
    ensures TrySlash(s, 23, 23, false) == Some(Candidate(23, 23, None))
  {
  }

  /** The chord `C` at 22: the whole match. */
  lemma ChorusL3Match22(s: string)
    requires |s| == 24
    requires s[21] == ' ' && s[22] == 'C' && s[23] == ' '
    ensures MatchAt(s, 22, false) == Some(Candidate(23, 23, None))
  {
    ChorusL3Greedy22Root(s);
    ChorusL3Greedy22Quality(s);
    ChorusL3Greedy22Digits(s);
    ChorusL3Greedy22Slash(s);
    MatchGreedy(s, 22, false, 23, 23, 23, 23, Candidate(23, 23, None));
  }

  /** The chord `C` at 22: moved by the reference reading. */
  lemma ChorusL3Chord22(s: string)
    requires |s| == 24
    requires s[22] == 'C'
    ensures Transpose.ShiftedChord(Chord(s[22..23], s[23..23], None), 5) == "F"
  {
    assert s[22..23] == "C" && s[23..23] == "";
  }

  /** The plain text from position 23. */
  lemma ChorusL3Text23(s: string)
    requires |s| == 24
    requires s[23] == ' '
    ensures s[23..24] == " "
  {
  }

  /** The scan from position 0 to the end. */
  lemma ChorusL3From0(s: string)
    requires |s| == 24
    requires s[0] == ' ' && s[1] == ' ' && s[2] == ' ' && s[3] == ' ' && s[4] == ' ' && s[5] == ' ' && s[6] == 'G' && s[7] == 'm'
    requires s[8] == 'a' && s[9] == 'j' && s[10] == '7' && s[11] == ' ' && s[12] == ' ' && s[13] == 'A' && s[14] == 's' && s[15] == 'u'
    requires s[16] == 's' && s[17] == '4' && s[18] == ' ' && s[19] == ' ' && s[20] == ' ' && s[21] == ' ' && s[22] == 'C' && s[23] == ' '
    ensures Transpose.ShiftPieces(Tokenize(s, 0, false), 5) == "      " + ("Cmaj7" + ("  " + ("Dsus4" + ("    " + ("F" + " ")))))
  {
    assert NoMatchFrom(s, 5, 6, false);
    assert NoMatchFrom(s, 4, 6, false);
    assert NoMatchFrom(s, 3, 6, false);
    assert NoMatchFrom(s, 2, 6, false);
    assert NoMatchFrom(s, 1, 6, false);
    assert NoMatchFrom(s, 0, 6, false);
    Transpose.ShiftScanPlain(s, 0, 6, false, 5, Transpose.ShiftPieces(Tokenize(s, 6, false), 5));
    ChorusL3Text0(s);
    ChorusL3From6(s);
  }

  /** The scan from position 6 to the end. */
  lemma ChorusL3From6(s: string)
    requires |s| == 24
    requires s[5] == ' ' && s[6] == 'G' && s[7] == 'm' && s[8] == 'a' && s[9] == 'j' && s[10] == '7' && s[11] == ' ' && s[12] == ' '
    requires s[13] == 'A' && s[14] == 's' && s[15] == 'u' && s[16] == 's' && s[17] == '4' && s[18] == ' ' && s[19] == ' ' && s[20] == ' '
    requires s[21] == ' ' && s[22] == 'C' && s[23] == ' '
    ensures Transpose.ShiftPieces(Tokenize(s, 6, false), 5) == "Cmaj7" + ("  " + ("Dsus4" + ("    " + ("F" + " "))))
  {
    ChorusL3Match6(s);
    Transpose.ShiftScanChord(s, 6, false, Candidate(7, 11, None), Chord(s[6..7], s[7..11], None), 5, Transpose.ShiftPieces(Tokenize(s, 11, false), 5));
    ChorusL3Chord6(s);
    ChorusL3From11(s);
  }

  /** The scan from position 11 to the end. */
  lemma ChorusL3From11(s: string)
    requires |s| == 24
    requires s[10] == '7' && s[11] == ' ' && s[12] == ' ' && s[13] == 'A' && s[14] == 's' && s[15] == 'u' && s[16] == 's' && s[17] == '4'
    requires s[18] == ' ' && s[19] == ' ' && s[20] == ' ' && s[21] == ' ' && s[22] == 'C' && s[23] == ' '
    ensures Transpose.ShiftPieces(Tokenize(s, 11, false), 5) == "  " + ("Dsus4" + ("    " + ("F" + " ")))
  {
    assert NoMatchFrom(s, 12, 13, false);
    assert NoMatchFrom(s, 11, 13, false);
    Transpose.ShiftScanPlain(s, 11, 13, false, 5, Transpose.ShiftPieces(Tokenize(s, 13, false), 5));
    ChorusL3Text11(s);
    ChorusL3From13(s);
  }

  /** The scan from position 13 to the end. */
  lemma ChorusL3From13(s: string)
    requires |s| == 24
    requires s[12] == ' ' && s[13] == 'A' && s[14] == 's' && s[15] == 'u' && s[16] == 's' && s[17] == '4' && s[18] == ' ' && s[19] == ' '
    requires s[20] == ' ' && s[21] == ' ' && s[22] == 'C' && s[23] == ' '
    ensures Transpose.ShiftPieces(Tokenize(s, 13, false), 5) == "Dsus4" + ("    " + ("F" + " "))
  {
    ChorusL3Match13(s);
    Transpose.ShiftScanChord(s, 13, false, Candidate(14, 18, None), Chord(s[13..14], s[14..18], None), 5, Transpose.ShiftPieces(Tokenize(s, 18, false), 5));
    ChorusL3Chord13(s);
    ChorusL3From18(s);
  }

  /** The scan from position 18 to the end. */
  lemma ChorusL3From18(s: string)
    requires |s| == 24
    requires s[17] == '4' && s[18] == ' ' && s[19] == ' ' && s[20] == ' ' && s[21] == ' ' && s[22] == 'C' && s[23] == ' '
    ensures Transpose.ShiftPieces(Tokenize(s, 18, false), 5) == "    " + ("F" + " ")
  {
    assert NoMatchFrom(s, 21, 22, false);
    assert NoMatchFrom(s, 20, 22, false);
    assert NoMatchFrom(s, 19, 22, false);
    assert NoMatchFrom(s, 18, 22, false);
    Transpose.ShiftScanPlain(s, 18, 22, false, 5, Transpose.ShiftPieces(Tokenize(s, 22, false), 5));
    ChorusL3Text18(s);
    ChorusL3From22(s);
  }

  /** The scan from position 22 to the end. */
  lemma ChorusL3From22(s: string)
    requires |s| == 24
    requires s[21] == ' ' && s[22] == 'C' && s[23] == ' '
    ensures Transpose.ShiftPieces(Tokenize(s, 22, false), 5) == "F" + " "
  {
    ChorusL3Match22(s);
    Transpose.ShiftScanChord(s, 22, false, Candidate(23, 23, None), Chord(s[22..23], s[23..23], None), 5, Transpose.ShiftPieces(Tokenize(s, 23, false), 5));
    ChorusL3Chord22(s);
    ChorusL3From23(s);
  }

  /** The scan from position 23 to the end. */
  lemma ChorusL3From23(s: string)
    requires |s| == 24
    requires s[22] == 'C' && s[23] == ' '
    ensures Transpose.ShiftPieces(Tokenize(s, 23, false), 5) == " "
  {
    assert NoMatchFrom(s, 23, 24, false);
    Transpose.ShiftScanPlain(s, 23, 24, false, 5, Transpose.ShiftPieces(Tokenize(s, 24, false), 5));
    ChorusL3Text23(s);
    assert Tokenize(s, 24, false) == [];
  }

  /** The text `      Gmaj7  Asus4    C `, spelled one character at a time. */
  lemma ChorusL3Line(s: string)
    requires |s| == 24
    requires s[0] == ' ' && s[1] == ' ' && s[2] == ' ' && s[3] == ' ' && s[4] == ' ' && s[5] == ' ' && s[6] == 'G' && s[7] == 'm'
    requires s[8] == 'a' && s[9] == 'j' && s[10] == '7' && s[11] == ' ' && s[12] == ' ' && s[13] == 'A' && s[14] == 's' && s[15] == 'u'
    requires s[16] == 's' && s[17] == '4' && s[18] == ' ' && s[19] == ' ' && s[20] == ' ' && s[21] == ' ' && s[22] == 'C' && s[23] == ' '
    ensures TransposeChordSheet(s, "G", "C") == "      Cmaj7  Dsus4    F "
  {
    assert "      " + ("Cmaj7" + ("  " + ("Dsus4" + ("    " + ("F" + " "))))) == "      Cmaj7  Dsus4    F ";
    ChorusL3From0(s);
    ChorusDiff();
    CapoTest.SheetFromScan(s, "G", "C", 5, "      Cmaj7  Dsus4    F ");
  }

  // ----- line 4 of the Chorus sheet -----

  /** The plain text from position 0. */
  lemma ChorusL4Text0(s: string)
    requires |s| == 23
    requires s[0] == ' ' && s[1] == ' ' && s[2] == ' ' && s[3] == ' ' && s[4] == ' ' && s[5] == ' '
    ensures s[0..6] == "      "
  {
  }

  /** The chord `Em7` at 6: the root, after a word boundary. */
  lemma ChorusL4Greedy6Root(s: string)
    requires |s| == 23
    requires s[5] == ' ' && s[6] == 'E' && s[7] == 'm' && s[8] == '7' && s[9] == ' '
    ensures Boundary(s, 6) && RootEnd(s, 6) == 7
  {
  }

  /** The chord `Em7` at 6: the quality word. */
  lemma ChorusL4Greedy6Quality(s: string)
    requires |s| == 23
    requires s[5] == ' ' && s[6] == 'E' && s[7] == 'm' && s[8] == '7' && s[9] == ' '
    ensures QualityEnd(s, 7, Qualities) == 8
  {
    QualityEndFirst(s, 7);
  }

  /** The chord `Em7` at 6: the digits and the alteration. */
  lemma ChorusL4Greedy6Digits(s: string)
    requires |s| == 23
    requires s[5] == ' ' && s[6] == 'E' && s[7] == 'm' && s[8] == '7' && s[9] == ' '
    ensures DigitRun(s, 8) == 1 && AlterationEnd(s, 9) == 9
  {
  }

  /** The chord `Em7` at 6: the slash group and the closing boundary. */
  lemma ChorusL4Greedy6Slash(s: string)
    requires |s| == 23
    requires s[5] == ' ' && s[6] == 'E' && s[7] == 'm' && s[8] == '7' && s[9] == ' '
    ensures TrySlash(s, 7, 9, false) == Some(Candidate(7, 9, None))
  {
  }

  /** The chord `Em7` at 6: the whole match. */
  lemma ChorusL4Match6(s: string)
    requires |s| == 23
    requires s[5] == ' ' && s[6] == 'E' && s[7] == 'm' && s[8] == '7' && s[9] == ' '
    ensures MatchAt(s, 6, false) == Some(Candidate(7, 9, None))
  {
    ChorusL4Greedy6Root(s);
    ChorusL4Greedy6Quality(s);
    ChorusL4Greedy6Digits(s);
    ChorusL4Greedy6Slash(s);
    MatchGreedy(s, 6, false, 7, 8, 9, 9, Candidate(7, 9, None));
  }

  /** The chord `Em7` at 6: moved by the reference reading. */
  lemma ChorusL4Chord6(s: string)
    requires |s| == 23
    requires s[6] == 'E' && s[7] == 'm' && s[8] == '7'
    ensures Transpose.ShiftedChord(Chord(s[6..7], s[7..9], None), 5) == "Am7"
  {
    assert s[6..7] == "E" && s[7..9] == "m7";
  }

  /** The plain text from position 9. */
  lemma ChorusL4Text9(s: string)
    requires |s| == 23
    requires s[9] == ' ' && s[10] == ' ' && s[11] == ' ' && s[12] == ' '
    ensures s[9..13] == "    "
  {
  }

  /** The chord `Bm` at 13: the root, after a word boundary. */
  lemma ChorusL4Greedy13Root(s: string)
    requires |s| == 23
    requires s[12] == ' ' && s[13] == 'B' && s[14] == 'm' && s[15] == ' '
    ensures Boundary(s, 13) && RootEnd(s, 13) == 14
  {
  }

  /** The chord `Bm` at 13: the quality word. */
  lemma ChorusL4Greedy13Quality(s: string)
    requires |s| == 23
    requires s[12] == ' ' && s[13] == 'B' && s[14] == 'm' && s[15] == ' '
    ensures QualityEnd(s, 14, Qualities) == 15
  {
    QualityEndFirst(s, 14);
  }

  /** The chord `Bm` at 13: the digits and the alteration. */
  lemma ChorusL4Greedy13Digits(s: string)
    requires |s| == 23
    requires s[12] == ' ' && s[13] == 'B' && s[14] == 'm' && s[15] == ' '
    ensures DigitRun(s, 15) == 0 && AlterationEnd(s, 15) == 15
  {
  }

  /** The chord `Bm` at 13: the slash group and the closing boundary. */
  lemma ChorusL4Greedy13Slash(s: string)
    requires |s| == 23
    requires s[12] == ' ' && s[13] == 'B' && s[14] == 'm' && s[15] == ' '
    ensures TrySlash(s, 14, 15, false) == Some(Candidate(14, 15, None))
  {
  }

  /** The chord `Bm` at 13: the whole match. */
  lemma ChorusL4Match13(s: string)
    requires |s| == 23
    requires s[12] == ' ' && s[13] == 'B' && s[14] == 'm' && s[15] == ' '
    ensures MatchAt(s, 13, false) == Some(Candidate(14, 15, None))
  {
    ChorusL4Greedy13Root(s);
    ChorusL4Greedy13Quality(s);
    ChorusL4Greedy13Digits(s);
    ChorusL4Greedy13Slash(s);
    MatchGreedy(s, 13, false, 14, 15, 15, 15, Candidate(14, 15, None));
  }

  /** The chord `Bm` at 13: moved by the reference reading. */
  lemma ChorusL4Chord13(s: string)
    requires |s| == 23
    requires s[13] == 'B' && s[14] == 'm'
    ensures Transpose.ShiftedChord(Chord(s[13..14], s[14..15], None), 5) == "Em"
  {
    assert s[13..14] == "B" && s[14..15] == "m";
  }

  /** The plain text from position 15. */
  lemma ChorusL4Text15(s: string)
    requires |s| == 23
    requires s[15] == ' ' && s[16] == ' ' && s[17] == ' ' && s[18] == ' ' && s[19] == ' ' && s[20] == ' ' && s[21] == ' '
    ensures s[15..22] == "       "
  {
  }

  /** The chord `A` at 22: the root, after a word boundary. */
  lemma ChorusL4Greedy22Root(s: string)
    requires |s| == 23
    requires s[21] == ' ' && s[22] == 'A'
    ensures Boundary(s, 22) && RootEnd(s, 22) == 23
  {
  }

  /** The chord `A` at 22: the quality word. */
  lemma ChorusL4Greedy22Quality(s: string)
    requires |s| == 23
    requires s[21] == ' ' && s[22] == 'A'
    ensures QualityEnd(s, 23, Qualities) == 23
  {
    QualityEndFirst(s, 23);
  }

  /** The chord `A` at 22: the digits and the alteration. */
  lemma ChorusL4Greedy22Digits(s: string)
    requires |s| == 23
    requires s[21] == ' ' && s[22] == 'A'
    ensures DigitRun(s, 23) == 0 && AlterationEnd(s, 23) == 23
  {
  }

  /** The chord `A` at 22: the slash group and the closing boundary. */
  lemma ChorusL4Greedy22Slash(s: string)
    requires |s| == 23
    requires s[21] == ' ' && s[22] == 'A'
    ensures TrySlash(s, 23, 23, false) == Some(Candidate(23, 23, None))
  {
  }

  /** The chord `A` at 22: the whole match. */
  lemma ChorusL4Match22(s: string)
    requires |s| == 23
    requires s[21] == ' ' && s[22] == 'A'
    ensures MatchAt(s, 22, false) == Some(Candidate(23, 23, None))
  {
    ChorusL4Greedy22Root(s);
    ChorusL4Greedy22Quality(s);
    ChorusL4Greedy22Digits(s);
    ChorusL4Greedy22Slash(s);
    MatchGreedy(s, 22, false, 23, 23, 23, 23, Candidate(23, 23, None));
  }

  /** The chord `A` at 22: moved by the reference reading. */
  lemma ChorusL4Chord22(s: string)
    requires |s| == 23
    requires s[22] == 'A'
    ensures Transpose.ShiftedChord(Chord(s[22..23], s[23..23], None), 5) == "D"
  {
    assert s[22..23] == "A" && s[23..23] == "";
  }

  /** The scan from position 0 to the end. */
  lemma ChorusL4From0(s: string)
    requires |s| == 23
    requires s[0] == ' ' && s[1] == ' ' && s[2] == ' ' && s[3] == ' ' && s[4] == ' ' && s[5] == ' ' && s[6] == 'E' && s[7] == 'm'
    requires s[8] == '7' && s[9] == ' ' && s[10] == ' ' && s[11] == ' ' && s[12] == ' ' && s[13] == 'B' && s[14] == 'm' && s[15] == ' '
    requires s[16] == ' ' && s[17] == ' ' && s[18] == ' ' && s[19] == ' ' && s[20] == ' ' && s[21] == ' ' && s[22] == 'A'
    ensures Transpose.ShiftPieces(Tokenize(s, 0, false), 5) == "      " + ("Am7" + ("    " + ("Em" + ("       " + "D"))))
  {
    assert NoMatchFrom(s, 5, 6, false);
    assert NoMatchFrom(s, 4, 6, false);
    assert NoMatchFrom(s, 3, 6, false);
    assert NoMatchFrom(s, 2, 6, false);
    assert NoMatchFrom(s, 1, 6, false);
    assert NoMatchFrom(s, 0, 6, false);
    Transpose.ShiftScanPlain(s, 0, 6, false, 5, Transpose.ShiftPieces(Tokenize(s, 6, false), 5));
    ChorusL4Text0(s);
    ChorusL4From6(s);
  }

  /** The scan from position 6 to the end. */
  lemma ChorusL4From6(s: string)
    requires |s| == 23
    requires s[5] == ' ' && s[6] == 'E' && s[7] == 'm' && s[8] == '7' && s[9] == ' ' && s[10] == ' ' && s[11] == ' ' && s[12] == ' '
    requires s[13] == 'B' && s[14] == 'm' && s[15] == ' ' && s[16] == ' ' && s[17] == ' ' && s[18] == ' ' && s[19] == ' ' && s[20] == ' '
    requires s[21] == ' ' && s[22] == 'A'
    ensures Transpose.ShiftPieces(Tokenize(s, 6, false), 5) == "Am7" + ("    " + ("Em" + ("       " + "D")))
  {
    ChorusL4Match6(s);
    Transpose.ShiftScanChord(s, 6, false, Candidate(7, 9, None), Chord(s[6..7], s[7..9], None), 5, Transpose.ShiftPieces(Tokenize(s, 9, false), 5));
    ChorusL4Chord6(s);
    ChorusL4From9(s);
  }

  /** The scan from position 9 to the end. */
  lemma ChorusL4From9(s: string)
    requires |s| == 23
    requires s[8] == '7' && s[9] == ' ' && s[10] == ' ' && s[11] == ' ' && s[12] == ' ' && s[13] == 'B' && s[14] == 'm' && s[15] == ' '
    requires s[16] == ' ' && s[17] == ' ' && s[18] == ' ' && s[19] == ' ' && s[20] == ' ' && s[21] == ' ' && s[22] == 'A'
    ensures Transpose.ShiftPieces(Tokenize(s, 9, false), 5) == "    " + ("Em" + ("       " + "D"))
  {
    assert NoMatchFrom(s, 12, 13, false);
    assert NoMatchFrom(s, 11, 13, false);
    assert NoMatchFrom(s, 10, 13, false);
    assert NoMatchFrom(s, 9, 13, false);
    Transpose.ShiftScanPlain(s, 9, 13, false, 5, Transpose.ShiftPieces(Tokenize(s, 13, false), 5));
    ChorusL4Text9(s);
    ChorusL4From13(s);
  }

  /** The scan from position 13 to the end. */
  lemma ChorusL4From13(s: string)
    requires |s| == 23
    requires s[12] == ' ' && s[13] == 'B' && s[14] == 'm' && s[15] == ' ' && s[16] == ' ' && s[17] == ' ' && s[18] == ' ' && s[19] == ' '
    requires s[20] == ' ' && s[21] == ' ' && s[22] == 'A'
    ensures Transpose.ShiftPieces(Tokenize(s, 13, false), 5) == "Em" + ("       " + "D")
  {
    ChorusL4Match13(s);
    Transpose.ShiftScanChord(s, 13, false, Candidate(14, 15, None), Chord(s[13..14], s[14..15], None), 5, Transpose.ShiftPieces(Tokenize(s, 15, false), 5));
    ChorusL4Chord13(s);
    ChorusL4From15(s);
  }

  /** The scan from position 15 to the end. */
  lemma ChorusL4From15(s: string)
    requires |s| == 23
    requires s[14] == 'm' && s[15] == ' ' && s[16] == ' ' && s[17] == ' ' && s[18] == ' ' && s[19] == ' ' && s[20] == ' ' && s[21] == ' '
    requires s[22] == 'A'
    ensures Transpose.ShiftPieces(Tokenize(s, 15, false), 5) == "       " + "D"
  {
    assert NoMatchFrom(s, 21, 22, false);
    assert NoMatchFrom(s, 20, 22, false);
    assert NoMatchFrom(s, 19, 22, false);
    assert NoMatchFrom(s, 18, 22, false);
    assert NoMatchFrom(s, 17, 22, false);
    assert NoMatchFrom(s, 16, 22, false);
    assert NoMatchFrom(s, 15, 22, false);
    Transpose.ShiftScanPlain(s, 15, 22, false, 5, Transpose.ShiftPieces(Tokenize(s, 22, false), 5));
    ChorusL4Text15(s);
    ChorusL4From22(s);
  }

  /** The scan from position 22 to the end. */
  lemma ChorusL4From22(s: string)
    requires |s| == 23
    requires s[21] == ' ' && s[22] == 'A'
    ensures Transpose.ShiftPieces(Tokenize(s, 22, false), 5) == "D"
  {
    ChorusL4Match22(s);
    Transpose.ShiftScanChord(s, 22, false, Candidate(23, 23, None), Chord(s[22..23], s[23..23], None), 5, Transpose.ShiftPieces(Tokenize(s, 23, false), 5));
    ChorusL4Chord22(s);
    assert Tokenize(s, 23, false) == [];
  }

  /** The text `      Em7    Bm       A`, spelled one character at a time. */
  lemma ChorusL4Line(s: string)
    requires |s| == 23
    requires s[0] == ' ' && s[1] == ' ' && s[2] == ' ' && s[3] == ' ' && s[4] == ' ' && s[5] == ' ' && s[6] == 'E' && s[7] == 'm'
    requires s[8] == '7' && s[9] == ' ' && s[10] == ' ' && s[11] == ' ' && s[12] == ' ' && s[13] == 'B' && s[14] == 'm' && s[15] == ' '
    requires s[16] == ' ' && s[17] == ' ' && s[18] == ' ' && s[19] == ' ' && s[20] == ' ' && s[21] == ' ' && s[22] == 'A'
    ensures TransposeChordSheet(s, "G", "C") == "      Am7    Em       D"
  {
    assert "      " + ("Am7" + ("    " + ("Em" + ("       " + "D")))) == "      Am7    Em       D";
    ChorusL4From0(s);
    ChorusDiff();
    CapoTest.SheetFromScan(s, "G", "C", 5, "      Am7    Em       D");
  }

  /** The chords of the other lines move by this many semitones. */
  lemma ChorusDiff()
    ensures SheetDiff("G", "C") == Some(5)
  {
  }

  /** The characters of the line the Key header rewrite gives. */
  lemma ChorusKeyedChars()
    ensures var t := "Key: " + "C" + " (AG:" + "C" + ")" + "   Capo:" + " " + "5";
      |t| == 23
      && t[0] == 'K' && t[1] == 'e' && t[2] == 'y' && t[3] == ':' && t[4] == ' ' && t[5] == 'C' && t[6] == ' ' && t[7] == '('
      && t[8] == 'A' && t[9] == 'G' && t[10] == ':' && t[11] == 'C' && t[12] == ')' && t[13] == ' ' && t[14] == ' ' && t[15] == ' '
      && t[16] == 'C' && t[17] == 'a' && t[18] == 'p' && t[19] == 'o' && t[20] == ':' && t[21] == ' ' && t[22] == '5'
  {
  }

  /** The Capo field of the line the Key header rewrite gives gets the new
      capo; the rest of the sheet holds no other Capo field. */
  lemma ChorusCapoField(rest: string)
    requires PairFree(rest, 'C', 'A') && (rest == [] || rest[0] == '\n')
    ensures ReplaceCapo("Key: " + "C" + " (AG:" + "C" + ")" + "   Capo:" + " " + "5" + rest, 0, 0) == "Key: C (AG:" + "C)   Capo: 0" + rest
  {
    assert "Key: " + "C" + " (AG:" + "C" + ")" + "   Capo:" + " " + "0" == "Key: C (AG:" + "C)   Capo: 0";
    ChorusKeyedChars();
    ChorusCapo("Key: " + "C" + " (AG:" + "C" + ")" + "   Capo:" + " " + "5", rest);
  }

  /** The first line: both fields rewritten, and the guitar key. */
  lemma ChorusFirstLine(l0: string, rest: string)
    requires |l0| == 23
    requires l0[0] == 'K' && l0[1] == 'e' && l0[2] == 'y' && l0[3] == ':' && l0[4] == ' ' && l0[5] == 'C' && l0[6] == ' ' && l0[7] == '('
    requires l0[8] == 'A' && l0[9] == 'G' && l0[10] == ':' && l0[11] == 'G' && l0[12] == ')' && l0[13] == ' ' && l0[14] == ' ' && l0[15] == ' '
    requires l0[16] == 'C' && l0[17] == 'a' && l0[18] == 'p' && l0[19] == 'o' && l0[20] == ':' && l0[21] == ' ' && l0[22] == '5'
    requires PairFree(rest, 'K', 'E') && PairFree(rest, 'C', 'A') && (rest == [] || rest[0] == '\n')
    ensures FirstLineRewritten(l0, rest, "C", 0, "C", "Key: " + "C" + " (AG:" + "C" + ")" + "   Capo:" + " " + "5", "Key: C (AG:" + "C)   Capo: 0")
  {
    ChorusHeader(l0, rest);
    ChorusCapoField(rest);
    ChorusFirst();
    ChorusGuitar();
  }

  /** The rewritten first line is a Key line of one line. */
  lemma ChorusFirst()
    ensures NoNewline("Key: C (AG:" + "C)   Capo: 0") && HasKeyLabel("Key: C (AG:" + "C)   Capo: 0")
  {
    KeyLabelFirst("Key: C (AG:" + "C)   Capo: 0");
  }

  /** The guitar key: the key moved down by the capo. */
  lemma ChorusGuitar()
    ensures TransposedChord("C", -0) == Ok("C")
  {
    GuitarKeyIs("C", 0, "C");
  }

  /** The other lines hold no field. */
  lemma ChorusPlain(l1: string, l2: string, l3: string, l4: string)
    requires NoNewline(l1) && PairFree(l1, 'K', 'E') && PairFree(l1, 'C', 'A')
    requires NoNewline(l2) && PairFree(l2, 'K', 'E') && PairFree(l2, 'C', 'A')
    requires NoNewline(l3) && PairFree(l3, 'K', 'E') && PairFree(l3, 'C', 'A')
    requires NoNewline(l4) && PairFree(l4, 'K', 'E') && PairFree(l4, 'C', 'A')
    ensures PlainLines([l1, l2, l3, l4])
  {
  }

  /** The other lines, each transposed on its own. */
  lemma ChorusOthers(l1: string, l2: string, l3: string, l4: string)
    requires l1 == ""
    requires TransposeChordSheet(l2, "G", "C") == "[Chorus]"
    requires TransposeChordSheet(l3, "G", "C") == "      Cmaj7 " + " Dsus4    F "
    requires TransposeChordSheet(l4, "G", "C") == "      Am7  " + "  Em       D"
    ensures LinesTransposed([l1, l2, l3, l4], "G", "C", [l1, "[Chorus]", "      Cmaj7 " + " Dsus4    F ", "      Am7  " + "  Em       D"])
  {
    var ls := [l1, l2, l3, l4];
    var os := [l1, "[Chorus]", "      Cmaj7 " + " Dsus4    F ", "      Am7  " + "  Em       D"];
    forall k | 0 <= k < |ls| ensures TransposeChordSheet(ls[k], "G", "C") == os[k] {
      if k == 0 { } else if k == 1 { } else if k == 2 { } else { }
    }
  }

  /** The whole sheet, its first line spelled one character at a time. */
  lemma ChorusSheet(l0: string, l1: string, l2: string, l3: string, l4: string)
    requires |l0| == 23
    requires l0[0] == 'K' && l0[1] == 'e' && l0[2] == 'y' && l0[3] == ':' && l0[4] == ' ' && l0[5] == 'C' && l0[6] == ' ' && l0[7] == '('
    requires l0[8] == 'A' && l0[9] == 'G' && l0[10] == ':' && l0[11] == 'G' && l0[12] == ')' && l0[13] == ' ' && l0[14] == ' ' && l0[15] == ' '
    requires l0[16] == 'C' && l0[17] == 'a' && l0[18] == 'p' && l0[19] == 'o' && l0[20] == ':' && l0[21] == ' ' && l0[22] == '5'
    requires NoNewline(l1) && PairFree(l1, 'K', 'E') && PairFree(l1, 'C', 'A')
    requires NoNewline(l2) && PairFree(l2, 'K', 'E') && PairFree(l2, 'C', 'A')
    requires NoNewline(l3) && PairFree(l3, 'K', 'E') && PairFree(l3, 'C', 'A')
    requires NoNewline(l4) && PairFree(l4, 'K', 'E') && PairFree(l4, 'C', 'A')
    requires l1 == ""
    requires TransposeChordSheet(l2, "G", "C") == "[Chorus]"
    requires TransposeChordSheet(l3, "G", "C") == "      Cmaj7 " + " Dsus4    F "
    requires TransposeChordSheet(l4, "G", "C") == "      Am7  " + "  Em       D"
    ensures SimulateCapoChange(Join([l0] + [l1, l2, l3, l4]), "C", "G", 0) == Ok(Join(["Key: C (AG:" + "C)   Capo: 0"] + [l1, "[Chorus]", "      Cmaj7 " + " Dsus4    F ", "      Am7  " + "  Em       D"]))
  {
    ChorusPlain(l1, l2, l3, l4);
    ChorusOthers(l1, l2, l3, l4);
    RestIsPlain(l0, [l1, l2, l3, l4]);
    ChorusFirstLine(l0, RestOfSheet([l0] + [l1, l2, l3, l4]));
    SheetOfLines(l0, [l1, l2, l3, l4], "C", "G", 0, "C", "Key: " + "C" + " (AG:" + "C" + ")" + "   Capo:" + " " + "5", "Key: C (AG:" + "C)   Capo: 0", [l1, "[Chorus]", "      Cmaj7 " + " Dsus4    F ", "      Am7  " + "  Em       D"]);
  }

  /** Line 2 of the sheet holds no line break and no Key or Capo label. */
  lemma ChorusFacts2()
    ensures var t := "[Chorus]";
      NoNewline(t) && PairFree(t, 'K', 'E') && PairFree(t, 'C', 'A')
  {
  }

  /** Line 2 of the sheet, transposed on its own. */
  lemma ChorusL2Lit()
    ensures TransposeChordSheet("[Chorus]", "G", "C") == "[Chorus]"
  {
    assert var t := "[Chorus]";
      |t| == 8
      && t[0] == '[' && t[1] == 'C' && t[2] == 'h' && t[3] == 'o' && t[4] == 'r' && t[5] == 'u' && t[6] == 's' && t[7] == ']';
    ChorusL2Line("[Chorus]");
  }

  /** Line 3 of the sheet holds no line break and no Key or Capo label. */
  lemma ChorusFacts3()
    ensures var t := "      Gmaj7 " + " Asus4    C ";
      NoNewline(t) && PairFree(t, 'K', 'E') && PairFree(t, 'C', 'A')
  {
  }

  /** Line 3 of the sheet, transposed on its own. */
  lemma ChorusL3Lit()
    ensures TransposeChordSheet("      Gmaj7 " + " Asus4    C ", "G", "C") == "      Cmaj7 " + " Dsus4    F "
  {
    assert var t := "      Gmaj7 " + " Asus4    C ";
      |t| == 24
      && t[0] == ' ' && t[1] == ' ' && t[2] == ' ' && t[3] == ' ' && t[4] == ' ' && t[5] == ' ' && t[6] == 'G' && t[7] == 'm'
      && t[8] == 'a' && t[9] == 'j' && t[10] == '7' && t[11] == ' ' && t[12] == ' ' && t[13] == 'A' && t[14] == 's' && t[15] == 'u'
      && t[16] == 's' && t[17] == '4' && t[18] == ' ' && t[19] == ' ' && t[20] == ' ' && t[21] == ' ' && t[22] == 'C' && t[23] == ' ';
    ChorusL3Line("      Gmaj7 " + " Asus4    C ");
  }

  /** Line 4 of the sheet holds no line break and no Key or Capo label. */
  lemma ChorusFacts4()
    ensures var t := "      Em7  " + "  Bm       A";
      NoNewline(t) && PairFree(t, 'K', 'E') && PairFree(t, 'C', 'A')
  {
  }

  /** Line 4 of the sheet, transposed on its own. */
  lemma ChorusL4Lit()
    ensures TransposeChordSheet("      Em7  " + "  Bm       A", "G", "C") == "      Am7  " + "  Em       D"
  {
    assert var t := "      Em7  " + "  Bm       A";
      |t| == 23
      && t[0] == ' ' && t[1] == ' ' && t[2] == ' ' && t[3] == ' ' && t[4] == ' ' && t[5] == ' ' && t[6] == 'E' && t[7] == 'm'
      && t[8] == '7' && t[9] == ' ' && t[10] == ' ' && t[11] == ' ' && t[12] == ' ' && t[13] == 'B' && t[14] == 'm' && t[15] == ' '
      && t[16] == ' ' && t[17] == ' ' && t[18] == ' ' && t[19] == ' ' && t[20] == ' ' && t[21] == ' ' && t[22] == 'A';
    ChorusL4Line("      Em7  " + "  Bm       A");
  }

  /** capo_test.js:234-252: qualities and digits stay with their roots when the chords move from G to C. */
  lemma ChorusCase()
    ensures SimulateCapoChange(Join(["Key: C (AG:" + "G)   Capo: 5", "", "[Chorus]", "      Gmaj7 " + " Asus4    C ", "      Em7  " + "  Bm       A"]), "C", "G", 0)
            == Ok(Join(["Key: C (AG:" + "C)   Capo: 0", "", "[Chorus]", "      Cmaj7 " + " Dsus4    F ", "      Am7  " + "  Em       D"]))
  {
    assert var t := "Key: C (AG:" + "G)   Capo: 5";
      |t| == 23
      && t[0] == 'K' && t[1] == 'e' && t[2] == 'y' && t[3] == ':' && t[4] == ' ' && t[5] == 'C' && t[6] == ' ' && t[7] == '('
      && t[8] == 'A' && t[9] == 'G' && t[10] == ':' && t[11] == 'G' && t[12] == ')' && t[13] == ' ' && t[14] == ' ' && t[15] == ' '
      && t[16] == 'C' && t[17] == 'a' && t[18] == 'p' && t[19] == 'o' && t[20] == ':' && t[21] == ' ' && t[22] == '5';
    ChorusFacts2();
    ChorusL2Lit();
    ChorusFacts3();
    ChorusL3Lit();
    ChorusFacts4();
    ChorusL4Lit();
    ChorusSheet("Key: C (AG:" + "G)   Capo: 5", "", "[Chorus]", "      Gmaj7 " + " Asus4    C ", "      Em7  " + "  Bm       A");
  }

  /** capo_test.js:255-271: no capo leaves the guitar key Bb as it is, so on
      the header `Key: Bb (AG:G)   Capo: 3` the AG field changes from G to Bb. */
  lemma GuitarKeyCase()
    ensures TransposedChord("Bb", -0) == Ok("Bb")
    ensures SimulateCapoChange(Join(["Key: Bb (AG:" + "G)   Capo: 3"]), "Bb", "Bb", 0)
            == Ok(Join(["Key: Bb (AG:" + "Bb)   Capo: 0"]))
  {
    assert var t := "Key: Bb (AG:" + "G)   Capo: 3";
      |t| == 24
      && t[0] == 'K' && t[1] == 'e' && t[2] == 'y' && t[3] == ':' && t[4] == ' ' && t[5] == 'B' && t[6] == 'b' && t[7] == ' '
      && t[8] == '(' && t[9] == 'A' && t[10] == 'G' && t[11] == ':' && t[12] == 'G' && t[13] == ')' && t[14] == ' ' && t[15] == ' '
      && t[16] == ' ' && t[17] == 'C' && t[18] == 'a' && t[19] == 'p' && t[20] == 'o' && t[21] == ':' && t[22] == ' ' && t[23] == '3';
    LowerGuitar();
    GuitarKeySheet("Key: Bb (AG:" + "G)   Capo: 3");
  }

  /** The whole sheet, its first line spelled one character at a time. */
  lemma GuitarKeySheet(l0: string)
    requires |l0| == 24
    requires l0[0] == 'K' && l0[1] == 'e' && l0[2] == 'y' && l0[3] == ':' && l0[4] == ' ' && l0[5] == 'B' && l0[6] == 'b' && l0[7] == ' '
    requires l0[8] == '(' && l0[9] == 'A' && l0[10] == 'G' && l0[11] == ':' && l0[12] == 'G' && l0[13] == ')' && l0[14] == ' ' && l0[15] == ' '
    requires l0[16] == ' ' && l0[17] == 'C' && l0[18] == 'a' && l0[19] == 'p' && l0[20] == 'o' && l0[21] == ':' && l0[22] == ' ' && l0[23] == '3'
    ensures SimulateCapoChange(Join([l0] + []), "Bb", "Bb", 0) == Ok(Join(["Key: Bb (AG:" + "Bb)   Capo: 0"] + []))
  {
    RestIsPlain(l0, []);
    LowerFirstLine(l0, RestOfSheet([l0] + []));
    SheetOfLines(l0, [], "Bb", "Bb", 0, "Bb", "Key: " + "Bb" + " (AG:" + "Bb" + ")" + "   Capo:" + " " + "3", "Key: Bb (AG:" + "Bb)   Capo: 0", []);
  }
}
