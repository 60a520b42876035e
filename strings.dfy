// String operations of JavaScript used by the modelled code: `startsWith`,
// `split` with a non-empty separator, `join`, `trim` (as a blankness test),
// decimal rendering of numbers and ASCII `toLowerCase`.

module Strings {

  predicate StartsWith(s: string, prefix: string)
  {
    |prefix| <= |s| && s[..|prefix|] == prefix
  }

  /** `sep` occurs in `s` at index `i`. */
  predicate OccursAt(s: string, sep: string, i: int)
  {
    0 <= i && i + |sep| <= |s| && s[i..i + |sep|] == sep
  }

  predicate Contains(s: string, sep: string)
  {
    exists i :: 0 <= i <= |s| && OccursAt(s, sep, i)
  }

  /** A string contains each of its middle parts. */
  lemma ContainsMiddle(a: string, b: string, c: string)
    ensures Contains(a + b + c, b)
  {
    var s := a + b + c;
    assert s[|a|..|a| + |b|] == b;
    assert OccursAt(s, b, |a|);
  }

  /** The first index at or after `from` where `sep` occurs, or -1 (`indexOf`). */
  function IndexFrom(s: string, sep: string, from: nat): (r: int)
    requires |sep| > 0
    ensures r == -1 || (from <= r && OccursAt(s, sep, r))
    decreases |s| - from
  {
    if from + |sep| > |s| then -1
    else if s[from..from + |sep|] == sep then from
    else IndexFrom(s, sep, from + 1)
  }

  /** `indexOf` finds the first occurrence: none before its result, and none at all when it gives -1. */
  lemma {:induction false} IndexFromFirst(s: string, sep: string, from: nat)
    requires |sep| > 0
    ensures IndexFrom(s, sep, from) == -1 ==> forall j :: from <= j ==> !OccursAt(s, sep, j)
    ensures IndexFrom(s, sep, from) != -1 ==> forall j :: from <= j < IndexFrom(s, sep, from) ==> !OccursAt(s, sep, j)
    decreases |s| - from
  {
    if from + |sep| <= |s| && s[from..from + |sep|] != sep {
      IndexFromFirst(s, sep, from + 1);
    }
  }

  /** `s.split(sep)` for a non-empty separator: the pieces between the leftmost non-overlapping occurrences. */
  function Split(s: string, sep: string): (parts: seq<string>)
    requires |sep| > 0
    ensures |parts| >= 1
    decreases |s|
  {
    var i := IndexFrom(s, sep, 0);
    if i == -1 then [s] else [s[..i]] + Split(s[i + |sep|..], sep)
  }

  /** `parts.join(sep)` */
  function Join(parts: seq<string>, sep: string): string
  {
    if |parts| == 0 then ""
    else if |parts| == 1 then parts[0]
    else parts[0] + sep + Join(parts[1..], sep)
  }

  /** Splitting and joining again with the same separator gives the original text back. */
  lemma {:induction false} SplitJoin(s: string, sep: string)
    requires |sep| > 0
    ensures Join(Split(s, sep), sep) == s
    decreases |s|
  {
    var i := IndexFrom(s, sep, 0);
    if i != -1 {
      var rest := s[i + |sep|..];
      SplitJoin(rest, sep);
      SplitStep(s, sep, i);
    }
  }

  /** One step of SplitJoin: the piece before the first separator, the separator, and the rest. */
  lemma SplitStep(s: string, sep: string, i: int)
    requires |sep| > 0 && OccursAt(s, sep, i) && i == IndexFrom(s, sep, 0)
    requires Join(Split(s[i + |sep|..], sep), sep) == s[i + |sep|..]
    ensures Join(Split(s, sep), sep) == s
  {
    var tail := Split(s[i + |sep|..], sep);
    assert Split(s, sep) == [s[..i]] + tail;
    assert ([s[..i]] + tail)[1..] == tail;
    assert s == s[..i] + sep + s[i + |sep|..];
  }

  /** No piece of a split contains the separator. */
  lemma {:induction false} SplitPiecesFree(s: string, sep: string)
    requires |sep| > 0
    ensures forall p :: p in Split(s, sep) ==> !Contains(p, sep)
    decreases |s|
  {
    var i := IndexFrom(s, sep, 0);
    IndexFromFirst(s, sep, 0);
    if i != -1 {
      var rest := s[i + |sep|..];
      SplitPiecesFree(rest, sep);
      var head := s[..i];
      forall j | OccursAt(head, sep, j) ensures false {
        assert head[j..j + |sep|] == s[j..j + |sep|];
        assert OccursAt(s, sep, j);
      }
    }
  }

  /** A text without the separator splits into itself alone. */
  lemma SplitWithoutSep(s: string, sep: string)
    requires |sep| > 0 && !Contains(s, sep)
    ensures Split(s, sep) == [s]
  {
    var i := IndexFrom(s, sep, 0);
    assert i != -1 ==> 0 <= i <= |s| && OccursAt(s, sep, i);
  }

  /** `s` with every `c` replaced by `d`. */
  function ReplaceChar(s: string, c: char, d: char): (r: string)
    ensures |r| == |s|
    ensures forall i :: 0 <= i < |s| ==> r[i] == if s[i] == c then d else s[i]
  {
    seq(|s|, i requires 0 <= i < |s| => if s[i] == c then d else s[i])
  }

  /** Splitting at one character and joining with another replaces that character. */
  lemma {:induction false} SplitJoinReplaces(s: string, c: char, d: char)
    ensures Join(Split(s, [c]), [d]) == ReplaceChar(s, c, d)
    decreases |s|
  {
    var i := IndexFrom(s, [c], 0);
    IndexFromFirst(s, [c], 0);
    if i == -1 {
      forall k | 0 <= k < |s| ensures s[k] != c {
        assert !OccursAt(s, [c], k);
      }
      assert ReplaceChar(s, c, d) == s;
    } else {
      SplitJoinReplaces(s[i + 1..], c, d);
      ReplaceStep(s, c, d, i);
    }
  }

  /** One step of SplitJoinReplaces: the piece before the first `c`, then the rest. */
  lemma ReplaceStep(s: string, c: char, d: char, i: int)
    requires OccursAt(s, [c], i) && i == IndexFrom(s, [c], 0)
    requires Join(Split(s[i + 1..], [c]), [d]) == ReplaceChar(s[i + 1..], c, d)
    ensures Join(Split(s, [c]), [d]) == ReplaceChar(s, c, d)
  {
    var rest := s[i + 1..];
    var tail := Split(rest, [c]);
    assert Split(s, [c]) == [s[..i]] + tail;
    assert ([s[..i]] + tail)[1..] == tail;
    assert Join(Split(s, [c]), [d]) == s[..i] + [d] + Join(tail, [d]);
    ReplaceAround(s, c, d, i);
  }

  /** Replacing in a text whose first `c` is at `i`: the part before it stays, the `c` becomes `d`. */
  lemma ReplaceAround(s: string, c: char, d: char, i: int)
    requires OccursAt(s, [c], i) && i == IndexFrom(s, [c], 0)
    ensures ReplaceChar(s, c, d) == s[..i] + [d] + ReplaceChar(s[i + 1..], c, d)
  {
    IndexFromFirst(s, [c], 0);
    forall k | 0 <= k < i ensures s[k] != c {
      assert !OccursAt(s, [c], k);
    }
    assert s[i] == c;
  }

  /** A text without the character `c` contains no occurrence of `[c]`. */
  lemma NoCharNoContains(s: string, c: char)
    requires c !in s
    ensures !Contains(s, [c])
  {
    assert forall i :: 0 <= i <= |s| && OccursAt(s, [c], i) ==> s[i] == c;
  }

  /** The first `c` of `a + [c] + b`, when `a` has none, is the one after `a`. */
  lemma FirstSeparatorAfter(a: string, c: char, b: string)
    requires c !in a
    ensures IndexFrom(a + [c] + b, [c], 0) == |a|
  {
    var s := a + [c] + b;
    IndexFromFirst(s, [c], 0);
    assert OccursAt(s, [c], |a|);
    forall j | 0 <= j < |a| ensures !OccursAt(s, [c], j) {
      assert s[j] == a[j];
    }
  }

  /** A text with exactly one `c` splits at `c` into the text before and after it. */
  lemma SplitAtOnlySeparator(a: string, c: char, b: string)
    requires c !in a && c !in b
    ensures Split(a + [c] + b, [c]) == [a, b]
  {
    var s := a + [c] + b;
    FirstSeparatorAfter(a, c, b);
    assert s[..|a|] == a;
    assert s[|a| + 1..] == b;
    NoCharNoContains(b, c);
    SplitWithoutSep(b, [c]);
  }

  function DigitChar(d: nat): (c: char)
    requires d < 10
    ensures '0' <= c <= '9'
  {
    ['0', '1', '2', '3', '4', '5', '6', '7', '8', '9'][d]
  }

  /** Decimal rendering of a natural number: non-empty, digits only, no leading zero. */
  function NatToString(n: nat): (s: string)
    ensures |s| >= 1
    ensures forall i :: 0 <= i < |s| ==> '0' <= s[i] <= '9'
    ensures (s[0] == '0') <==> n == 0
  {
    if n < 10 then [DigitChar(n)] else NatToString(n / 10) + [DigitChar(n % 10)]
  }

  /** The characters removed by `String.prototype.trim`: WhiteSpace and LineTerminator of ECMAScript. */
  predicate IsJsWhitespace(c: char)
  {
    c == '\t' || c == '\n' || c == '\U{B}' || c == '\U{C}' || c == '\r' || c == ' '
    || c == '\U{A0}' || c == '\U{1680}' || ('\U{2000}' <= c <= '\U{200A}')
    || c == '\U{2028}' || c == '\U{2029}' || c == '\U{202F}' || c == '\U{205F}'
    || c == '\U{3000}' || c == '\U{FEFF}'
  }

  /** `s.trim() === ""` */
  predicate IsBlank(s: string)
  {
    forall i :: 0 <= i < |s| ==> IsJsWhitespace(s[i])
  }

  function LowerAsciiChar(c: char): char
  {
    if 'A' <= c <= 'Z' then (c as int + 32) as char else c
  }

  /**
   * `s.toLowerCase()` on ASCII letters. No other character lower-cases to one
   * of the letters of "post", so the comparison with "post" is exact.
   */
  function LowerAscii(s: string): (r: string)
    ensures |r| == |s|
    ensures forall i :: 0 <= i < |s| ==> r[i] == LowerAsciiChar(s[i])
  {
    if |s| == 0 then "" else [LowerAsciiChar(s[0])] + LowerAscii(s[1..])
  }
}
