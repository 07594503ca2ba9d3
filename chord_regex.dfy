/** An explicit scanner for the chord pattern of assets/js/modules/transpose.js:81
    (also test/validate_fix.mjs:49)

      \b([A-G][b#]?)((?:maj|min|m|dim|aug|sus|add|dom|alt)?(?:\d+)?(?:[b#]\d+)?(?:\/([A-G][b#]?))?)\b

    and of its slash-less form at test/capo_test.js:42 (the same pattern without
    the `(?:\/([A-G][b#]?))?` group), used with the `g` flag by
    `String.prototype.replace`.

    A match attempt at one position follows JavaScript's backtracking matcher:
    each group tries its choices in order (the root accidental before none,
    quality words in the order of the alternation and then none, digit runs
    longest first and then none, the `[b#]\d+` alteration longest first before
    none, the slash bass with an accidental, without, then none) and the first
    complete choice whose end satisfies the closing `\b` is the match. Each
    `Try` function below is one group: it tries its own choices in order and,
    for each, the rest of the pattern. */
module ChordRegex {
  import opened Wrappers
  import opened Js
  import opened PitchTable

  /** The alternatives of `(?:maj|min|m|dim|aug|sus|add|dom|alt)`, in order. */
  const Qualities: seq<string> := ["maj", "min", "m", "dim", "aug", "sus", "add", "dom", "alt"]

  /** `\b` at index `i` of `s`: exactly one of the characters on either side is
      a word character (outside the text counts as non-word). */
  predicate Boundary(s: string, i: nat) {
    (0 < i <= |s| && IsWordChar(s[i - 1])) != (i < |s| && IsWordChar(s[i]))
  }

  /** A match found from a fixed start: where the root ends, where the whole
      match ends, and where the bass note starts (just after the `/`) when the
      slash group took part. The bass always runs to the end of the match. */
  datatype Candidate = Candidate(rootEnd: nat, end: nat, bassStart: Option<nat>)

  /** The shape every match has: a root `[A-G][b#]?`, then a suffix made of word
      characters and `#` only, with the bass, when present, after a `/` and
      running to the end of the match. */
  predicate WellFormed(s: string, p: nat, c: Candidate, slash: bool) {
    p < c.rootEnd <= c.end <= |s|
    && IsNoteShape(s[p..c.rootEnd])
    && match c.bassStart {
      case None => SuffixChars(s, c.rootEnd, c.end)
      case Some(b) =>
        slash && c.rootEnd < b <= c.end && s[b - 1] == '/' && SuffixChars(s, c.rootEnd, b - 1)
        && IsNoteShape(s[b..c.end])
    }
  }

  /** All of `s[i..j]` is word characters or `#`: in particular no `/`. */
  predicate SuffixChars(s: string, i: nat, j: nat)
    requires i <= j <= |s|
  {
    forall k :: i <= k < j ==> IsWordChar(s[k]) || s[k] == '#'
  }

  /** What a group's matcher returns: nothing, or a well-formed match from `p`
      with the root ending at `r` that ends at a `\b`. */
  predicate Found(s: string, p: nat, r: nat, m: Option<Candidate>, slash: bool) {
    m.Some? ==> WellFormed(s, p, m.value, slash) && m.value.rootEnd == r && Boundary(s, m.value.end)
  }

  /** Backtracking: the first alternative if it succeeded, otherwise the second. */
  function OrElse(a: Option<Candidate>, b: Option<Candidate>): Option<Candidate> {
    if a.Some? then a else b
  }

  /** The closing `\b`, tried once every group has made its choice. */
  function Close(s: string, c: Candidate): (r: Option<Candidate>)
    ensures r.Some? <==> Boundary(s, c.end)
    ensures r.Some? ==> r.value == c
  {
    if Boundary(s, c.end) then Some(c) else None
  }

  /** `(?:\/([A-G][b#]?))?` at `t`, then `\b`; without the group only `\b`. */
  function TrySlash(s: string, r: nat, t: nat, slash: bool): Option<Candidate> {
    if slash && t + 1 < |s| && s[t] == '/' && IsNoteLetter(s[t + 1]) then
      OrElse(if t + 2 < |s| && IsAccidental(s[t + 2]) then Close(s, Candidate(r, t + 3, Some(t + 1))) else None,
      OrElse(Close(s, Candidate(r, t + 2, Some(t + 1))),
             Close(s, Candidate(r, t, None))))
    else Close(s, Candidate(r, t, None))
  }

  /** `(?:[b#]\d+)?` at `d`: the alteration with all its digits, one fewer, ...,
      one digit, then without the alteration. */
  function TryAlteration(s: string, r: nat, d: nat, slash: bool): Option<Candidate> {
    if d < |s| && IsAccidental(s[d]) && DigitRun(s, d + 1) > 0
    then OrElse(TryAlterationDigits(s, r, d, DigitRun(s, d + 1), slash), TrySlash(s, r, d, slash))
    else TrySlash(s, r, d, slash)
  }

  /** The alteration at `d` with `n`, `n`-1, ..., 1 digits. */
  function TryAlterationDigits(s: string, r: nat, d: nat, n: nat, slash: bool): Option<Candidate>
    decreases n
  {
    OrElse(TrySlash(s, r, d + 1 + n, slash),
           if n > 1 then TryAlterationDigits(s, r, d, n - 1, slash) else None)
  }

  /** `(?:\d+)?` at `a`: runs of `n`, `n`-1, ..., 1 digits, then none. */
  function TryDigits(s: string, r: nat, a: nat, n: nat, slash: bool): Option<Candidate>
    decreases n
  {
    OrElse(TryAlteration(s, r, a + n, slash),
           if n > 0 then TryDigits(s, r, a, n - 1, slash) else None)
  }

  /** `(?:maj|min|m|dim|aug|sus|add|dom|alt)?` at `r`, for the alternatives
      `qs` still to try: those words that occur there, in order, then none. */
  function TryQuality(s: string, r: nat, qs: seq<string>, slash: bool): Option<Candidate>
    decreases |qs|
  {
    if qs != [] then OrElse(TryWord(s, r, qs[0], slash), TryQuality(s, r, qs[1..], slash))
    else TryDigits(s, r, r, DigitRun(s, r), slash)
  }

  /** One alternative of the quality group: the word `w` at `r`, then the rest. */
  function TryWord(s: string, r: nat, w: string, slash: bool): Option<Candidate> {
    if WordAt(s, w, r) then TryDigits(s, r, r + |w|, DigitRun(s, r + |w|), slash) else None
  }

  /** `w` occurs in `s` at index `i` (checked from its `k`-th character on). */
  predicate WordAt(s: string, w: string, i: nat, k: nat := 0)
    decreases |w| - k
  {
    k >= |w| || (i + k < |s| && s[i + k] == w[k] && WordAt(s, w, i, k + 1))
  }

  /** The JavaScript match attempt at index `p`: `\b`, then `([A-G][b#]?)` with
      the accidental tried first, then the rest of the pattern. */
  function MatchAt(s: string, p: nat, slash: bool): Option<Candidate> {
    if p < |s| && IsNoteLetter(s[p]) && Boundary(s, p) then
      if p + 1 < |s| && IsAccidental(s[p + 1])
      then OrElse(TryQuality(s, p + 2, Qualities, slash), TryQuality(s, p + 1, Qualities, slash))
      else TryQuality(s, p + 1, Qualities, slash)
    else None
  }

  // ----- every match is well formed -----

  lemma TrySlashFound(s: string, p: nat, r: nat, t: nat, slash: bool)
    requires p < r <= t <= |s| && IsNoteShape(s[p..r]) && SuffixChars(s, r, t)
    ensures Found(s, p, r, TrySlash(s, r, t, slash), slash)
  {
  }

  lemma TryAlterationFound(s: string, p: nat, r: nat, d: nat, slash: bool)
    requires p < r <= d <= |s| && IsNoteShape(s[p..r]) && SuffixChars(s, r, d)
    ensures Found(s, p, r, TryAlteration(s, r, d, slash), slash)
  {
    TrySlashFound(s, p, r, d, slash);
    if d < |s| && IsAccidental(s[d]) && DigitRun(s, d + 1) > 0 {
      TryAlterationDigitsFound(s, p, r, d, DigitRun(s, d + 1), slash);
    }
  }

  lemma {:induction false} TryAlterationDigitsFound(s: string, p: nat, r: nat, d: nat, n: nat, slash: bool)
    requires p < r <= d < |s| && IsNoteShape(s[p..r]) && SuffixChars(s, r, d) && IsAccidental(s[d])
    requires 1 <= n <= DigitRun(s, d + 1)
    ensures Found(s, p, r, TryAlterationDigits(s, r, d, n, slash), slash)
    decreases n
  {
    assert SuffixChars(s, r, d + 1 + n);
    TrySlashFound(s, p, r, d + 1 + n, slash);
    if n > 1 {
      TryAlterationDigitsFound(s, p, r, d, n - 1, slash);
    }
  }

  lemma {:induction false} TryDigitsFound(s: string, p: nat, r: nat, a: nat, n: nat, slash: bool)
    requires p < r <= a <= |s| && IsNoteShape(s[p..r]) && SuffixChars(s, r, a)
    requires n <= DigitRun(s, a)
    ensures Found(s, p, r, TryDigits(s, r, a, n, slash), slash)
    decreases n
  {
    assert a + n <= |s| && SuffixChars(s, r, a + n);
    TryAlterationFound(s, p, r, a + n, slash);
    if n > 0 {
      TryDigitsFound(s, p, r, a, n - 1, slash);
    }
  }

  lemma {:induction false} TryQualityFound(s: string, p: nat, r: nat, qs: seq<string>, slash: bool)
    requires p < r <= |s| && IsNoteShape(s[p..r])
    requires forall k :: 0 <= k < |qs| ==> WordChars(qs[k])
    ensures Found(s, p, r, TryQuality(s, r, qs, slash), slash)
    decreases |qs|
  {
    if qs != [] {
      TryWordFound(s, p, r, qs[0], slash);
      TryQualityFound(s, p, r, qs[1..], slash);
      OrElseFound(s, p, r, TryWord(s, r, qs[0], slash), TryQuality(s, r, qs[1..], slash), slash);
    } else {
      TryDigitsFound(s, p, r, r, DigitRun(s, r), slash);
    }
  }

  lemma TryWordFound(s: string, p: nat, r: nat, w: string, slash: bool)
    requires p < r <= |s| && IsNoteShape(s[p..r]) && WordChars(w)
    ensures Found(s, p, r, TryWord(s, r, w, slash), slash)
  {
    if WordAt(s, w, r) {
      QualityWordChars(s, r, w);
      TryDigitsFound(s, p, r, r + |w|, DigitRun(s, r + |w|), slash);
    }
  }

  lemma OrElseFound(s: string, p: nat, r: nat, a: Option<Candidate>, b: Option<Candidate>, slash: bool)
    requires Found(s, p, r, a, slash) && Found(s, p, r, b, slash)
    ensures Found(s, p, r, OrElse(a, b), slash)
  {
  }

  /** A match found at `p` starts at a `\b` on a note letter, is well formed and
      ends at a `\b`; without the slash group it has no bass. */
  lemma MatchAtFound(s: string, p: nat, slash: bool)
    ensures MatchAt(s, p, slash).Some? ==>
      p < |s| && IsNoteLetter(s[p]) && Boundary(s, p)
      && WellFormed(s, p, MatchAt(s, p, slash).value, slash)
      && Boundary(s, MatchAt(s, p, slash).value.end)
  {
    if p < |s| && IsNoteLetter(s[p]) && Boundary(s, p) {
      QualitiesAreWords();
      var natural := TryQuality(s, p + 1, Qualities, slash);
      TryQualityFound(s, p, p + 1, Qualities, slash);
      if p + 1 < |s| && IsAccidental(s[p + 1]) {
        var sharp := TryQuality(s, p + 2, Qualities, slash);
        TryQualityFound(s, p, p + 2, Qualities, slash);
        assert MatchAt(s, p, slash) == OrElse(sharp, natural);
      } else {
        assert MatchAt(s, p, slash) == natural;
      }
    }
  }

  lemma {:induction false} WordAtChars(s: string, w: string, i: nat, k: nat)
    requires WordAt(s, w, i, k) && k < |w|
    ensures i + |w| <= |s|
    ensures forall m :: k <= m < |w| ==> s[i + m] == w[m]
    decreases |w| - k
  {
    if k + 1 < |w| {
      WordAtChars(s, w, i, k + 1);
    }
  }

  /** Every character of `w` is a word character. */
  predicate WordChars(w: string) {
    forall k :: 0 <= k < |w| ==> IsWordChar(w[k])
  }

  /** The quality words of the pattern are made of word characters. */
  lemma QualitiesAreWords()
    ensures forall k :: 0 <= k < |Qualities| ==> WordChars(Qualities[k])
  {
  }

  /** A word of word characters found at `r` fits in `s` and is made of suffix
      characters there. */
  lemma QualityWordChars(s: string, r: nat, w: string)
    requires r <= |s| && WordChars(w) && WordAt(s, w, r)
    ensures r + |w| <= |s| && SuffixChars(s, r, r + |w|)
  {
    if |w| > 0 {
      WordAtChars(s, w, r, 0);
      forall k | r <= k < r + |w| ensures IsWordChar(s[k]) {
        assert s[r + (k - r)] == w[k - r];
      }
    }
  }

  // ----- the match the greedy choices give -----

  /** Where the root group ends when it takes its accidental. */
  function RootEnd(s: string, p: nat): nat {
    if p + 1 < |s| && IsAccidental(s[p + 1]) then p + 2 else p + 1
  }

  /** Where the quality group ends on its first choice: after the first word
      of `qs` that occurs at `r`, or at `r` when none does. */
  function QualityEnd(s: string, r: nat, qs: seq<string>): nat
    decreases |qs|
  {
    if qs == [] then r
    else if WordAt(s, qs[0], r) then r + |qs[0]|
    else QualityEnd(s, r, qs[1..])
  }

  /** Where `(?:[b#]\d+)?` ends on its first choice: after the accidental and
      all its digits, or at `d` when there is no such alteration. */
  function AlterationEnd(s: string, d: nat): nat {
    if d < |s| && IsAccidental(s[d]) && DigitRun(s, d + 1) > 0 then d + 1 + DigitRun(s, d + 1) else d
  }

  lemma TryAlterationGreedy(s: string, r: nat, d: nat, slash: bool, t: nat, c: Candidate)
    requires t == AlterationEnd(s, d) && TrySlash(s, r, t, slash) == Some(c)
    ensures TryAlteration(s, r, d, slash) == Some(c)
  {
  }

  lemma TryDigitsGreedy(s: string, r: nat, a: nat, slash: bool, d: nat, c: Candidate)
    requires d == a + DigitRun(s, a) && TryAlteration(s, r, d, slash) == Some(c)
    ensures TryDigits(s, r, a, DigitRun(s, a), slash) == Some(c)
  {
  }

  lemma TryWordGreedy(s: string, r: nat, w: string, slash: bool, q: nat, c: Candidate)
    requires WordAt(s, w, r) && q == r + |w| && TryDigits(s, r, q, DigitRun(s, q), slash) == Some(c)
    ensures TryWord(s, r, w, slash) == Some(c)
  {
  }

  lemma {:induction false} TryQualityGreedy(s: string, r: nat, qs: seq<string>, slash: bool, q: nat, c: Candidate)
    requires q == QualityEnd(s, r, qs) && TryDigits(s, r, q, DigitRun(s, q), slash) == Some(c)
    ensures TryQuality(s, r, qs, slash) == Some(c)
    decreases |qs|
  {
    if qs != [] {
      if WordAt(s, qs[0], r) {
        TryWordGreedy(s, r, qs[0], slash, q, c);
        OrElseFirst(TryWord(s, r, qs[0], slash), TryQuality(s, r, qs[1..], slash));
      } else {
        TryQualitySkip(s, r, qs, slash);
        TryQualityGreedy(s, r, qs[1..], slash, q, c);
      }
    }
  }

  lemma OrElseFirst(a: Option<Candidate>, b: Option<Candidate>)
    requires a.Some?
    ensures OrElse(a, b) == a
  {
  }

  /** A word that does not occur is passed over. */
  lemma TryQualitySkip(s: string, r: nat, qs: seq<string>, slash: bool)
    requires qs != [] && !WordAt(s, qs[0], r)
    ensures TryQuality(s, r, qs, slash) == TryQuality(s, r, qs[1..], slash)
    ensures QualityEnd(s, r, qs) == QualityEnd(s, r, qs[1..])
  {
    assert TryWord(s, r, qs[0], slash) == None;
  }

  /** Backtracking never has to start: at a note letter at a `\b`, where every
      group makes its first choice (the root `r` with its accidental, the
      quality word ending at `q`, all the digits up to `d`, the alteration up
      to `t`) and the slash group then finds its match `c`, that is the match. */
  lemma MatchGreedy(s: string, p: nat, slash: bool, r: nat, q: nat, d: nat, t: nat, c: Candidate)
    requires p < |s| && IsNoteLetter(s[p]) && Boundary(s, p)
    requires r == RootEnd(s, p) && q == QualityEnd(s, r, Qualities) && d == q + DigitRun(s, q)
    requires t == AlterationEnd(s, d) && TrySlash(s, r, t, slash) == Some(c)
    ensures MatchAt(s, p, slash) == Some(c)
  {
    TryAlterationGreedy(s, r, d, slash, t, c);
    TryDigitsGreedy(s, r, q, slash, d, c);
    TryQualityGreedy(s, r, Qualities, slash, q, c);
  }

  /** The first choice of the quality group, written out word by word in the
      order of the alternation: `m` is only reached when neither `maj` nor
      `min` occurs. */
  lemma QualityEndFirst(s: string, r: nat)
    ensures QualityEnd(s, r, Qualities) ==
      if WordAt(s, "maj", r) then r + 3
      else if WordAt(s, "min", r) then r + 3
      else if WordAt(s, "m", r) then r + 1
      else if WordAt(s, "dim", r) then r + 3
      else if WordAt(s, "aug", r) then r + 3
      else if WordAt(s, "sus", r) then r + 3
      else if WordAt(s, "add", r) then r + 3
      else if WordAt(s, "dom", r) then r + 3
      else if WordAt(s, "alt", r) then r + 3
      else r
  {
    var qs := Qualities;
    assert qs[1..][1..][1..][1..][1..][1..][1..][1..][1..] == [];
  }

  lemma {:induction false} TryQualityNoWord(s: string, r: nat, qs: seq<string>, slash: bool)
    requires forall k :: 0 <= k < |qs| ==> !WordAt(s, qs[k], r)
    ensures TryQuality(s, r, qs, slash) == TryDigits(s, r, r, DigitRun(s, r), slash)
    decreases |qs|
  {
    if qs != [] {
      assert !WordAt(s, qs[0], r);
      TryQualityNoWord(s, r, qs[1..], slash);
    }
  }

  /** A note letter followed by a word character that starts no quality word,
      no digit and no accidental (as the `C` of `Chorus`) starts no match: the
      root cannot end between two word characters. */
  lemma NoMatchInWord(s: string, p: nat, slash: bool)
    requires p + 1 < |s| && IsWordChar(s[p + 1]) && !IsDigit(s[p + 1]) && !IsAccidental(s[p + 1])
    requires s[p + 1] !in {'m', 'd', 'a', 's'}
    ensures MatchAt(s, p, slash) == None
  {
    if p < |s| && IsNoteLetter(s[p]) && Boundary(s, p) {
      forall k | 0 <= k < |Qualities| ensures !WordAt(s, Qualities[k], p + 1) {
        assert Qualities[k][0] in {'m', 'd', 'a', 's'};
      }
      TryQualityNoWord(s, p + 1, Qualities, slash);
    }
  }

  /** A sharp root at the end of a word is read without its sharp: after `#`
      the closing `\b` needs a word character, so when none follows (and no
      alteration digits or slash bass does), the matcher backtracks to the
      bare letter, whose `\b` the `#` itself provides, and the `#` is left
      as text after the match. */
  lemma SharpLeftBehind(s: string, p: nat, slash: bool)
    requires p + 1 < |s| && IsNoteLetter(s[p]) && Boundary(s, p) && s[p + 1] == '#'
    requires p + 2 == |s| || (!IsWordChar(s[p + 2]) && s[p + 2] != '#' && s[p + 2] != '/')
    ensures MatchAt(s, p, slash) == Some(Candidate(p + 1, p + 1, None))
  {
    SharpRootFails(s, p, slash);
    BareRootMatches(s, p, slash);
  }

  /** With the sharp taken, nothing can follow and no `\b` closes the match. */
  lemma SharpRootFails(s: string, p: nat, slash: bool)
    requires p + 1 < |s| && s[p + 1] == '#'
    requires p + 2 == |s| || (!IsWordChar(s[p + 2]) && s[p + 2] != '#' && s[p + 2] != '/')
    ensures TryQuality(s, p + 2, Qualities, slash) == None
  {
    forall k | 0 <= k < |Qualities| ensures !WordAt(s, Qualities[k], p + 2) {
      assert Qualities[k][0] in {'m', 'd', 'a', 's'};
    }
    TryQualityNoWord(s, p + 2, Qualities, slash);
    assert DigitRun(s, p + 2) == 0;
  }

  /** The bare letter, closed by the `\b` between it and the `#`. */
  lemma BareRootMatches(s: string, p: nat, slash: bool)
    requires p + 1 < |s| && IsNoteLetter(s[p]) && s[p + 1] == '#'
    requires p + 2 == |s| || !IsWordChar(s[p + 2])
    ensures TryQuality(s, p + 1, Qualities, slash) == Some(Candidate(p + 1, p + 1, None))
  {
    forall k | 0 <= k < |Qualities| ensures !WordAt(s, Qualities[k], p + 1) {
      assert Qualities[k][0] in {'m', 'd', 'a', 's'};
    }
    TryQualityNoWord(s, p + 1, Qualities, slash);
    BareRootCloses(s, p, slash);
    assert DigitRun(s, p + 1) == 0;
  }

  lemma BareRootCloses(s: string, p: nat, slash: bool)
    requires p + 1 < |s| && IsNoteLetter(s[p]) && s[p + 1] == '#'
    requires p + 2 == |s| || !IsWordChar(s[p + 2])
    ensures TryAlteration(s, p + 1, p + 1, slash) == Some(Candidate(p + 1, p + 1, None))
  {
    var c := Candidate(p + 1, p + 1, None);
    assert DigitRun(s, p + 2) == 0;
    assert IsWordChar(s[p]) && !IsWordChar(s[p + 1]) && s[p + 1] != '/';
    assert Boundary(s, p + 1);
    assert TrySlash(s, p + 1, p + 1, slash) == Some(c);
  }

  /** No match starts anywhere in `s[i..j]`. */
  predicate NoMatchFrom(s: string, i: nat, j: nat, slash: bool)
    decreases j - i
  {
    i >= j || (MatchAt(s, i, slash).None? && NoMatchFrom(s, i + 1, j, slash))
  }

  lemma {:induction false} NoMatchFromAt(s: string, i: nat, j: nat, k: nat, slash: bool)
    requires NoMatchFrom(s, i, j, slash) && i <= k < j
    ensures MatchAt(s, k, slash).None?
    decreases k - i
  {
    if i < k {
      NoMatchFromAt(s, i + 1, j, k, slash);
    }
  }

  // ----- the global replace -----

  /** What `replace` with the `g` flag sees: single characters that no match
      covers, and matches split into the pattern's groups (the whole match is
      `root + suffix`; `bass` is group 3, `undefined` when the slash group did
      not take part). */
  datatype Piece = Plain(c: char) | Chord(root: string, suffix: string, bass: Option<string>)

  /** Scan from index `i`: a match is taken whole and the scan resumes at its end;
      where no match starts, one character is passed over. */
  function Tokenize(s: string, i: nat, slash: bool): seq<Piece>
    decreases |s| - i
  {
    if i >= |s| then []
    else match MatchAt(s, i, slash)
      case Some(c) =>
        MatchAtFound(s, i, slash);
        [Chord(s[i..c.rootEnd], s[c.rootEnd..c.end],
               if c.bassStart.Some? then Some(s[c.bassStart.value..c.end]) else None)]
        + Tokenize(s, c.end, slash)
      case None => [Plain(s[i])] + Tokenize(s, i + 1, slash)
  }

  /** The text a piece stands for. */
  function PieceText(p: Piece): string {
    match p
    case Plain(c) => [c]
    case Chord(root, suffix, _) => root + suffix
  }

  function Text(ps: seq<Piece>): string {
    if ps == [] then [] else PieceText(ps[0]) + Text(ps[1..])
  }

  /** `String.prototype.replace` with a callback: each match is replaced by what
      the callback returns for it; every other character is copied. */
  function Rewrite(ps: seq<Piece>, f: Piece -> string): string {
    if ps == [] then []
    else (match ps[0] case Plain(c) => [c] case Chord(_, _, _) => f(ps[0])) + Rewrite(ps[1..], f)
  }

  // ----- properties of the scan -----

  /** One step of the scan where a match starts. */
  lemma TokenizeMatch(s: string, i: nat, slash: bool)
    requires i < |s| && MatchAt(s, i, slash).Some?
    ensures var c := MatchAt(s, i, slash).value;
      WellFormed(s, i, c, slash)
      && Tokenize(s, i, slash)
         == [Chord(s[i..c.rootEnd], s[c.rootEnd..c.end],
                   if c.bassStart.Some? then Some(s[c.bassStart.value..c.end]) else None)]
            + Tokenize(s, c.end, slash)
  {
    MatchAtFound(s, i, slash);
  }

  /** One step of the scan where no match starts. */
  lemma TokenizeNoMatch(s: string, i: nat, slash: bool)
    requires i < |s| && MatchAt(s, i, slash).None?
    ensures Tokenize(s, i, slash) == [Plain(s[i])] + Tokenize(s, i + 1, slash)
  {
  }

  /** The pieces cover the scanned text exactly: concatenating their texts
      gives back `s[i..]`. */
  lemma {:induction false} TokenizeCovers(s: string, i: nat, slash: bool)
    requires i <= |s|
    ensures Text(Tokenize(s, i, slash)) == s[i..]
    decreases |s| - i
  {
    if i < |s| {
      MatchAtFound(s, i, slash);
      var m := MatchAt(s, i, slash);
      if m.Some? {
        var c := m.value;
        var rest := Tokenize(s, c.end, slash);
        TokenizeCovers(s, c.end, slash);
        CoversMatchStep(s, i, slash, c, rest);
      } else {
        var rest := Tokenize(s, i + 1, slash);
        TokenizeCovers(s, i + 1, slash);
        CoversPlainStep(s, i, slash, rest);
      }
    }
  }

  lemma CoversMatchStep(s: string, i: nat, slash: bool, c: Candidate, rest: seq<Piece>)
    requires i < |s| && MatchAt(s, i, slash) == Some(c) && WellFormed(s, i, c, slash)
    requires rest == Tokenize(s, c.end, slash) && Text(rest) == s[c.end..]
    ensures Text(Tokenize(s, i, slash)) == s[i..]
  {
    TokenizeMatch(s, i, slash);
    var p := Chord(s[i..c.rootEnd], s[c.rootEnd..c.end],
                   if c.bassStart.Some? then Some(s[c.bassStart.value..c.end]) else None);
    TextCons(p, rest);
    SliceJoin(s, i, c.rootEnd, c.end);
  }

  lemma SliceJoin(s: string, a: nat, b: nat, c: nat)
    requires a <= b <= c <= |s|
    ensures s[a..b] + s[b..c] + s[c..] == s[a..]
  {
  }

  lemma CoversPlainStep(s: string, i: nat, slash: bool, rest: seq<Piece>)
    requires i < |s| && MatchAt(s, i, slash).None?
    requires rest == Tokenize(s, i + 1, slash) && Text(rest) == s[i + 1..]
    ensures Text(Tokenize(s, i, slash)) == s[i..]
  {
    TokenizeNoMatch(s, i, slash);
    TextCons(Plain(s[i]), rest);
    SliceCons(s, i);
  }

  lemma SliceCons(s: string, i: nat)
    requires i < |s|
    ensures [s[i]] + s[i + 1..] == s[i..]
  {
  }

  lemma TextCons(p: Piece, ps: seq<Piece>)
    ensures Text([p] + ps) == PieceText(p) + Text(ps)
  {
    assert ([p] + ps)[1..] == ps;
  }

  /** The shape of a chord piece: root `[A-G][b#]?`; a suffix without `/` unless
      it ends in `/` and the bass, the bass `[A-G][b#]?`. */
  predicate ChordShaped(p: Piece, slash: bool) {
    p.Chord? && IsNoteShape(p.root)
    && match p.bass {
      case None => NoSlash(p.suffix)
      case Some(b) =>
        slash && IsNoteShape(b) && |p.suffix| > |b|
        && p.suffix[..|p.suffix| - |b|] == p.suffix[..|p.suffix| - |b| - 1] + "/"
        && p.suffix[|p.suffix| - |b|..] == b
        && NoSlash(p.suffix[..|p.suffix| - |b| - 1])
    }
  }

  predicate NoSlash(s: string) {
    forall k :: 0 <= k < |s| ==> s[k] != '/'
  }

  /** Every chord piece of a scan has the shape of the pattern. */
  lemma TokenizeShaped(s: string, i: nat, slash: bool, k: nat)
    requires k < |Tokenize(s, i, slash)| && Tokenize(s, i, slash)[k].Chord?
    ensures ChordShaped(Tokenize(s, i, slash)[k], slash)
  {
    TokenizeAllShaped(s, i, slash);
    AllShapedAt(Tokenize(s, i, slash), slash, k);
  }

  /** Every chord piece in `ps` has the shape of the pattern. */
  predicate AllShaped(ps: seq<Piece>, slash: bool) {
    ps == [] || ((ps[0].Chord? ==> ChordShaped(ps[0], slash)) && AllShaped(ps[1..], slash))
  }

  lemma {:induction false} AllShapedAt(ps: seq<Piece>, slash: bool, k: nat)
    requires AllShaped(ps, slash) && k < |ps| && ps[k].Chord?
    ensures ChordShaped(ps[k], slash)
  {
    if k > 0 {
      AllShapedAt(ps[1..], slash, k - 1);
    }
  }

  lemma {:induction false} TokenizeAllShaped(s: string, i: nat, slash: bool)
    ensures AllShaped(Tokenize(s, i, slash), slash)
    decreases |s| - i
  {
    if i < |s| {
      var m := MatchAt(s, i, slash);
      if m.Some? {
        var c := m.value;
        TokenizeMatch(s, i, slash);
        MatchShaped(s, i, c, slash);
        TokenizeAllShaped(s, c.end, slash);
        var head := Chord(s[i..c.rootEnd], s[c.rootEnd..c.end],
                          if c.bassStart.Some? then Some(s[c.bassStart.value..c.end]) else None);
        ShapedCons(head, Tokenize(s, c.end, slash), slash);
      } else {
        TokenizeNoMatch(s, i, slash);
        TokenizeAllShaped(s, i + 1, slash);
        ShapedCons(Plain(s[i]), Tokenize(s, i + 1, slash), slash);
      }
    }
  }

  lemma ShapedCons(p: Piece, ps: seq<Piece>, slash: bool)
    requires (p.Chord? ==> ChordShaped(p, slash)) && AllShaped(ps, slash)
    ensures AllShaped([p] + ps, slash)
  {
    assert ([p] + ps)[1..] == ps;
  }

  lemma MatchShaped(s: string, i: nat, c: Candidate, slash: bool)
    requires WellFormed(s, i, c, slash)
    ensures ChordShaped(Chord(s[i..c.rootEnd], s[c.rootEnd..c.end],
                              if c.bassStart.Some? then Some(s[c.bassStart.value..c.end]) else None), slash)
  {
    var suffix := s[c.rootEnd..c.end];
    if c.bassStart.Some? {
      var b := c.bassStart.value;
      var bass := s[b..c.end];
      assert |suffix| - |bass| == b - c.rootEnd;
      assert suffix[..b - c.rootEnd] == s[c.rootEnd..b];
      assert suffix[..b - c.rootEnd - 1] == s[c.rootEnd..b - 1];
      assert s[c.rootEnd..b] == s[c.rootEnd..b - 1] + "/";
      assert suffix[b - c.rootEnd..] == bass;
      var pre := s[c.rootEnd..b - 1];
      assert forall k :: 0 <= k < |pre| ==> pre[k] == s[c.rootEnd + k];
    } else {
      assert forall k :: 0 <= k < |suffix| ==> suffix[k] == s[c.rootEnd + k];
    }
  }

  /** Replacing each chord by its own text gives the input back: the rewrite
      changes nothing but what its callback changes. */
  lemma {:induction false} RewriteText(ps: seq<Piece>, f: Piece -> string)
    requires forall k :: 0 <= k < |ps| && ps[k].Chord? ==> f(ps[k]) == PieceText(ps[k])
    ensures Rewrite(ps, f) == Text(ps)
  {
    if ps != [] {
      RewriteText(ps[1..], f);
    }
  }

  /** Rewriting distributes over concatenation of piece sequences. */
  lemma {:induction false} RewriteAppend(a: seq<Piece>, b: seq<Piece>, f: Piece -> string)
    ensures Rewrite(a + b, f) == Rewrite(a, f) + Rewrite(b, f)
  {
    if a != [] {
      assert (a + b)[0] == a[0];
      assert (a + b)[1..] == a[1..] + b;
      RewriteAppend(a[1..], b, f);
    } else {
      assert a + b == b;
    }
  }

  /** A rewrite of newline-free text whose callback returns newline-free text
      is itself newline-free: the rewrite keeps one line one line. */
  lemma {:induction false} RewriteNoNewline(ps: seq<Piece>, f: Piece -> string)
    requires NoNewline(Text(ps))
    requires forall k :: 0 <= k < |ps| && ps[k].Chord? ==> NoNewline(f(ps[k]))
    ensures NoNewline(Rewrite(ps, f))
  {
    if ps != [] {
      var head := PieceText(ps[0]);
      assert Text(ps) == head + Text(ps[1..]);
      assert forall k :: 0 <= k < |Text(ps[1..])| ==> Text(ps[1..])[k] == Text(ps)[|head| + k];
      RewriteNoNewline(ps[1..], f);
      if ps[0].Plain? {
        assert Text(ps)[0] == ps[0].c;
      } else {
        assert f(ps[0]) == Rewrite(ps, f)[..|f(ps[0])|];
      }
      var r := Rewrite(ps, f);
      var first := (match ps[0] case Plain(c) => [c] case Chord(_, _, _) => f(ps[0]));
      assert r == first + Rewrite(ps[1..], f);
      forall k | 0 <= k < |r| ensures r[k] != '\n' {
        if k >= |first| {
          assert r[k] == Rewrite(ps[1..], f)[k - |first|];
        }
      }
    }
  }

  /** The text of any one piece is part of the text of the whole. */
  lemma {:induction false} PieceInText(ps: seq<Piece>, k: nat)
    requires k < |ps| && NoNewline(Text(ps))
    ensures NoNewline(PieceText(ps[k]))
  {
    var head := PieceText(ps[0]);
    assert Text(ps) == head + Text(ps[1..]);
    if k == 0 {
      assert forall j :: 0 <= j < |head| ==> head[j] == Text(ps)[j];
    } else {
      assert forall j :: 0 <= j < |Text(ps[1..])| ==> Text(ps[1..])[j] == Text(ps)[|head| + j];
      PieceInText(ps[1..], k - 1);
    }
  }
}
