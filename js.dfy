/** The JavaScript primitives the transposer relies on, with their JavaScript
    meaning written out: the truncating `%`, the regular-expression classes
    `\w`, `\d` and `\s`, `String.prototype.split`/`Array.prototype.join` on
    "\n", `String.prototype.replace` with a string pattern (first occurrence
    only) and the conversion of an integer Number to a decimal string. */
module Js {
  import opened Wrappers

  /** `a % 12` in JavaScript: the remainder of the division truncated toward
      zero, so it takes the sign of `a` (Dafny's `%` is Euclidean). */
  function Rem12(a: int): (r: int)
    ensures -12 < r < 12
    ensures a >= 0 ==> r >= 0
    ensures a <= 0 ==> r <= 0
    ensures (a - r) % 12 == 0
  {
    if a >= 0 then
      RemainderFacts(a);
      a % 12
    else
      RemainderFacts(-a);
      -((-a) % 12)
  }

  lemma RemainderFacts(b: int)
    requires b >= 0
    ensures 0 <= b % 12 < 12
    ensures (b - b % 12) % 12 == 0 && (b % 12 - b) % 12 == 0
  {
    var q := b / 12;
    assert b - b % 12 == 12 * q;
    assert b % 12 - b == 12 * -q;
  }

  /** For a non-negative dividend the truncating and the Euclidean remainder agree. */
  lemma Rem12OfNonNegative(a: int)
    requires a >= 0
    ensures Rem12(a) == a % 12
  {
  }

  /** `\w` without the `u` flag: ASCII letters, digits and underscore. */
  predicate IsWordChar(c: char) {
    ('A' <= c <= 'Z') || ('a' <= c <= 'z') || ('0' <= c <= '9') || c == '_'
  }

  /** `\d` without the `u` flag: the ten ASCII digits. */
  predicate IsDigit(c: char) {
    '0' <= c <= '9'
  }

  /** JavaScript line terminators: what `.` refuses to match. */
  predicate IsLineTerminator(c: char) {
    c == '\n' || c == '\r' || c == '\U{2028}' || c == '\U{2029}'
  }

  /** `\s`: the WhiteSpace and LineTerminator code points of ECMAScript. */
  predicate IsSpace(c: char) {
    c == '\t' || c == '\U{000B}' || c == '\U{000C}' || c == ' ' || c == '\U{00A0}'
    || c == '\U{FEFF}' || c == '\U{1680}' || ('\U{2000}' <= c <= '\U{200A}')
    || c == '\U{202F}' || c == '\U{205F}' || c == '\U{3000}'
    || IsLineTerminator(c)
  }

  /** Length of the run of characters satisfying `\d` that starts at `i`. */
  function DigitRun(s: string, i: nat): (n: nat)
    ensures i + n <= |s| || n == 0
    ensures forall k :: i <= k < i + n ==> IsDigit(s[k])
    ensures i + n < |s| ==> !IsDigit(s[i + n])
    decreases |s| - i
  {
    if i < |s| && IsDigit(s[i]) then 1 + DigitRun(s, i + 1) else 0
  }

  /** Index just past the run of `\s` characters that starts at `i`
      (what a greedy `\s*` consumes). */
  function SpaceEnd(s: string, i: nat): (j: nat)
    requires i <= |s|
    ensures i <= j <= |s|
    decreases |s| - i
  {
    if i < |s| && IsSpace(s[i]) then SpaceEnd(s, i + 1) else i
  }

  /** What the greedy `\s*` consumed is all spaces, and it stopped at a
      non-space or at the end. */
  lemma {:induction false} SpaceEndShape(s: string, i: nat)
    requires i <= |s|
    ensures forall k :: i <= k < SpaceEnd(s, i) ==> IsSpace(s[k])
    ensures SpaceEnd(s, i) < |s| ==> !IsSpace(s[SpaceEnd(s, i)])
    decreases |s| - i
  {
    if i < |s| && IsSpace(s[i]) {
      SpaceEndShape(s, i + 1);
    }
  }

  /** `s.split('\n')`: the pieces between the newline characters, one more
      than there are newlines. */
  function Split(s: string): (lines: seq<string>)
    ensures |lines| >= 1
  {
    if s == [] then [""]
    else
      var rest := Split(s[1..]);
      if s[0] == '\n' then [""] + rest
      else [[s[0]] + rest[0]] + rest[1..]
  }

  /** `lines.join('\n')`. */
  function Join(lines: seq<string>): string
    requires |lines| >= 1
  {
    if |lines| == 1 then lines[0] else lines[0] + "\n" + Join(lines[1..])
  }

  /** Number of newline characters in `s`. */
  function NewlineCount(s: string): nat {
    if s == [] then 0 else (if s[0] == '\n' then 1 else 0) + NewlineCount(s[1..])
  }

  /** No line produced by `Split` holds a newline. */
  predicate NoNewline(s: string) {
    forall k :: 0 <= k < |s| ==> s[k] != '\n'
  }

  lemma NoNewlineAppend(a: string, b: string)
    ensures NoNewline(a + b) <==> NoNewline(a) && NoNewline(b)
  {
    if NoNewline(a + b) {
      forall k | 0 <= k < |a| ensures a[k] != '\n' {
        assert a[k] == (a + b)[k];
      }
      forall k | 0 <= k < |b| ensures b[k] != '\n' {
        assert b[k] == (a + b)[|a| + k];
      }
    }
    if NoNewline(a) && NoNewline(b) {
      forall k | 0 <= k < |a + b| ensures (a + b)[k] != '\n' {
        if k >= |a| {
          assert (a + b)[k] == b[k - |a|];
        }
      }
    }
  }

  lemma {:induction false} JoinSplit(s: string)
    ensures Join(Split(s)) == s
    ensures |Split(s)| == NewlineCount(s) + 1
    ensures forall k :: 0 <= k < |Split(s)| ==> NoNewline(Split(s)[k])
  {
    if s != [] {
      JoinSplit(s[1..]);
      var rest := Split(s[1..]);
      if s[0] == '\n' {
        assert Split(s)[1..] == rest;
      } else {
        var lines := Split(s);
        if |rest| > 1 {
          assert lines[1..] == rest[1..];
          assert Join(lines) == [s[0]] + rest[0] + "\n" + Join(rest[1..]);
        }
        forall k | 0 <= k < |lines| ensures NoNewline(lines[k]) {
          if k > 0 { assert lines[k] == rest[k]; }
        }
      }
    }
  }

  /** Splitting a join of newline-free lines gives the lines back. */
  lemma {:induction false} SplitJoin(lines: seq<string>)
    requires |lines| >= 1
    requires forall k :: 0 <= k < |lines| ==> NoNewline(lines[k])
    ensures Split(Join(lines)) == lines
  {
    if |lines| == 1 {
      SplitNoNewline(lines[0]);
    } else {
      SplitJoin(lines[1..]);
      SplitPrefix(lines[0], Join(lines[1..]));
      assert [lines[0]] + lines[1..] == lines;
    }
  }

  lemma {:induction false} SplitNoNewline(s: string)
    requires NoNewline(s)
    ensures Split(s) == [s]
  {
    if s != [] {
      SplitNoNewline(s[1..]);
      assert s[0] != '\n';
      assert [s[0]] + s[1..] == s;
    }
  }

  /** A newline-free prefix followed by a newline is the first line. */
  lemma {:induction false} SplitPrefix(a: string, b: string)
    requires NoNewline(a)
    ensures Split(a + "\n" + b) == [a] + Split(b)
  {
    if a == [] {
      assert a + "\n" + b == ['\n'] + b;
      assert (a + "\n" + b)[1..] == b;
    } else {
      assert (a + "\n" + b)[1..] == a[1..] + "\n" + b;
      SplitPrefix(a[1..], b);
      assert [a[0]] + a[1..] == a;
    }
  }

  /** `s.startsWith(w, i)`: `w` occurs in `s` at index `i`. */
  predicate OccursAt(s: string, w: string, i: nat) {
    i + |w| <= |s| && s[i..i + |w|] == w
  }

  /** Index of the first occurrence of `w` in `s` at or after `i`, if any
      (`s.indexOf(w, i)`). */
  function IndexOf(s: string, w: string, i: nat): (r: Option<nat>)
    ensures r.Some? ==> i <= r.value && OccursAt(s, w, r.value)
    ensures r.Some? ==> forall k :: i <= k < r.value ==> !OccursAt(s, w, k)
    ensures r.None? ==> forall k :: i <= k <= |s| ==> !OccursAt(s, w, k)
    decreases |s| - i
  {
    if i + |w| > |s| then None
    else if OccursAt(s, w, i) then Some(i)
    else IndexOf(s, w, i + 1)
  }

  /** A string with no `a` followed by `b` does not include the pair. */
  lemma IndexOfPairFree(s: string, a: char, b: char)
    requires forall k :: 0 <= k < |s| - 1 ==> !(s[k] == a && s[k + 1] == b)
    ensures IndexOf(s, [a, b], 0) == None
  {
    forall v: nat | v + 2 <= |s| ensures !OccursAt(s, [a, b], v) {
      assert s[v..v + 2][0] == s[v] && s[v..v + 2][1] == s[v + 1];
    }
  }

  /** `s.replace(pat, rep)` with a string pattern: only the first occurrence is
      replaced; `rep` is assumed free of `$` patterns. */
  function ReplaceFirst(s: string, pat: string, rep: string): string {
    match IndexOf(s, pat, 0)
    case None => s
    case Some(k) => s[..k] + rep + s[k + |pat|..]
  }

  /** `String(n)` for an integer Number. */
  function Decimal(n: int): (r: string)
    ensures |r| >= 1
  {
    if n < 0 then "-" + Natural(-n) else Natural(n)
  }

  /** Decimal digits of `n`, most significant first, no leading zero. */
  function Natural(n: nat): (r: string)
    ensures |r| >= 1
    ensures forall k :: 0 <= k < |r| ==> IsDigit(r[k])
    decreases n
  {
    if n < 10 then [DigitChar(n)] else Natural(n / 10) + [DigitChar(n % 10)]
  }

  function DigitChar(d: nat): (c: char)
    requires d < 10
    ensures IsDigit(c)
  {
    "0123456789"[d]
  }

  /** Reading the digits back gives `n`: the conversion is faithful. */
  function DigitsValue(s: string): nat
    requires forall k :: 0 <= k < |s| ==> IsDigit(s[k])
  {
    if s == [] then 0
    else
      assert IsDigit(s[|s| - 1]);
      DigitsValue(s[..|s| - 1]) * 10 + (s[|s| - 1] as int - '0' as int)
  }

  lemma {:induction false} NaturalRoundTrip(n: nat)
    ensures DigitsValue(Natural(n)) == n
  {
    DigitCharValue(n % 10);
    if n >= 10 {
      NaturalRoundTrip(n / 10);
      var r := Natural(n);
      assert r[..|r| - 1] == Natural(n / 10);
    }
  }

  lemma DigitCharValue(d: nat)
    requires d < 10
    ensures DigitChar(d) as int - '0' as int == d
  {
  }

  /** The parts of a three-way concatenation sit where they should. */
  lemma Concat3(a: string, b: string, c: string)
    ensures var t := a + b + c;
      t[..|a|] == a && t[|a|..|a| + |b|] == b && t[|a| + |b|..] == c
      && (forall k :: |a| <= k < |a| + |b| ==> t[k] == b[k - |a|])
  {
  }
}
