/**
 * Models of the Python string operations that the configuration code of
 * bpytop relies on: `strip`, `find`, `split()`, `int()`, `str()` and
 * distutils' `strtobool`.
 */
module Text {

  datatype Option<T> = None | Some(value: T)

  /** Python's `str.isspace` on a single character. */
  predicate IsSpace(c: char) {
    ('\t' <= c <= '\r') || ('\U{1C}' <= c <= '\U{1F}') || c == ' '
    || c == '\U{85}' || c == '\U{A0}' || c == '\U{1680}'
    || ('\U{2000}' <= c <= '\U{200A}') || c == '\U{2028}' || c == '\U{2029}'
    || c == '\U{202F}' || c == '\U{205F}' || c == '\U{3000}'
  }

  predicate NotSpace(c: char) {
    !IsSpace(c)
  }

  predicate IsQuote(c: char) {
    c == '"'
  }

  // ---------------------------------------------------------------------
  // strip
  // ---------------------------------------------------------------------

  /** The number of leading characters of `s` that `drop` accepts. */
  function LeadLen(s: string, drop: char -> bool): (n: nat)
    ensures n <= |s|
    ensures forall i :: 0 <= i < n ==> drop(s[i])
    ensures n == |s| || !drop(s[n])
  {
    if |s| > 0 && drop(s[0]) then 1 + LeadLen(s[1..], drop) else 0
  }

  /** The number of trailing characters of `s` that `drop` accepts. */
  function TrailLen(s: string, drop: char -> bool): (n: nat)
    ensures n <= |s|
    ensures forall i :: |s| - n <= i < |s| ==> drop(s[i])
    ensures n == |s| || !drop(s[|s| - 1 - n])
  {
    if |s| > 0 && drop(s[|s| - 1]) then 1 + TrailLen(s[..|s| - 1], drop) else 0
  }

  /** `s` without its leading and trailing characters accepted by `drop`. */
  function StripBy(s: string, drop: char -> bool): (r: string)
    ensures |r| <= |s|
    ensures |r| == 0 || (!drop(r[0]) && !drop(r[|r| - 1]))
    ensures |r| == 0 <==> forall i :: 0 <= i < |s| ==> drop(s[i])
  {
    var t := s[LeadLen(s, drop)..];
    var r := t[..|t| - TrailLen(t, drop)];
    assert |r| > 0 ==> r[0] == s[LeadLen(s, drop)];
    r
  }

  /** Python's `s.strip()`. */
  function Strip(s: string): string {
    StripBy(s, IsSpace)
  }

  /** Python's `s.strip('"')`. */
  function StripQuotes(s: string): string {
    StripBy(s, IsQuote)
  }

  lemma LeadLenIs(s: string, drop: char -> bool, k: nat)
    requires k <= |s|
    requires forall i :: 0 <= i < k ==> drop(s[i])
    requires k == |s| || !drop(s[k])
    ensures LeadLen(s, drop) == k
  {
  }

  lemma TrailLenIs(s: string, drop: char -> bool, k: nat)
    requires k <= |s|
    requires forall i :: |s| - k <= i < |s| ==> drop(s[i])
    requires k == |s| || !drop(s[|s| - 1 - k])
    ensures TrailLen(s, drop) == k
  {
  }

  /**
   * Stripping removes exactly the droppable frame around a core whose
   * first and last characters are kept.
   */
  lemma StripByFrame(a: string, core: string, b: string, drop: char -> bool)
    requires forall i :: 0 <= i < |a| ==> drop(a[i])
    requires forall i :: 0 <= i < |b| ==> drop(b[i])
    requires |core| > 0 && !drop(core[0]) && !drop(core[|core| - 1])
    ensures StripBy(a + core + b, drop) == core
  {
    var s := a + core + b;
    LeadLenIs(s, drop, |a|);
    var t := s[|a|..];
    assert t == core + b;
    TrailLenIs(t, drop, |b|);
    assert t[..|t| - |b|] == core;
  }

  /** A string whose own ends are kept is left alone. */
  lemma StripByKeeps(s: string, drop: char -> bool)
    requires |s| > 0 && !drop(s[0]) && !drop(s[|s| - 1])
    ensures StripBy(s, drop) == s
  {
    StripByFrame("", s, "", drop);
    assert "" + s + "" == s;
  }

  /** A leading run of kept characters survives stripping at the front. */
  lemma StripKeepsHead(s: string, k: nat)
    requires 0 < k <= |s|
    requires forall i :: 0 <= i < k ==> !IsSpace(s[i])
    ensures k <= |Strip(s)| && Strip(s)[..k] == s[..k]
  {
    LeadLenIs(s, IsSpace, 0);
    var t := s[0..];
    assert t == s;
    assert !IsSpace(s[k - 1]);
  }

  // ---------------------------------------------------------------------
  // startswith, find, index
  // ---------------------------------------------------------------------

  /** Python's `s.startswith(p)`. */
  predicate StartsWith(s: string, p: string) {
    |p| <= |s| && s[..|p|] == p
  }

  /** `sub` occurs in `s` at index `j`. */
  predicate OccursAt(s: string, sub: string, j: nat) {
    j + |sub| <= |s| && s[j..j + |sub|] == sub
  }

  /** The lowest index `j >= i` at which `sub` occurs in `s`, or -1. */
  function FindFrom(s: string, sub: string, i: nat): (r: int)
    requires i <= |s|
    ensures r == -1 || (i <= r && OccursAt(s, sub, r as nat))
    ensures r >= 0 ==> forall j :: i <= j < r ==> !OccursAt(s, sub, j)
    ensures r == -1 ==> forall j :: i <= j ==> !OccursAt(s, sub, j)
    decreases |s| - i
  {
    if i + |sub| > |s| then -1
    else if s[i..i + |sub|] == sub then i
    else FindFrom(s, sub, i + 1)
  }

  /** Python's `s.find(sub)`: the lowest index of `sub` in `s`, or -1. */
  function Find(s: string, sub: string): (r: int)
    ensures r == -1 || (r >= 0 && OccursAt(s, sub, r as nat))
    ensures r >= 0 ==> forall j :: 0 <= j < r ==> !OccursAt(s, sub, j)
    ensures r == -1 ==> forall j: nat :: !OccursAt(s, sub, j)
  {
    FindFrom(s, sub, 0)
  }

  /** Python's `sub in s` on strings. */
  predicate Contains(s: string, sub: string) {
    Find(s, sub) >= 0
  }

  lemma ContainsIsOccurrence(s: string, sub: string)
    ensures Contains(s, sub) <==> exists j: nat :: OccursAt(s, sub, j)
  {
    if Contains(s, sub) {
      var j: nat := Find(s, sub) as nat;
      assert OccursAt(s, sub, j);
    }
  }

  /** `sub` is found right after a prefix that does not hold its first character. */
  lemma FindAfter(a: string, sub: string, b: string)
    requires |sub| > 0 && sub[0] !in a
    ensures Find(a + sub + b, sub) == |a|
  {
    var s := a + sub + b;
    assert OccursAt(s, sub, |a|) by {
      assert s[|a|..|a| + |sub|] == sub;
    }
    forall j: nat | j < |a|
      ensures !OccursAt(s, sub, j)
    {
      assert s[j] == a[j];
      if j + |sub| <= |s| {
        assert s[j..j + |sub|][0] == a[j];
      }
    }
  }

  /** The index of the first occurrence of `c` in `s`; `c` must occur. */
  function IndexOf(s: string, c: char): (r: nat)
    requires c in s
    ensures r < |s| && s[r] == c && c !in s[..r]
  {
    if s[0] == c then 0
    else
      assert c in s[1..] by {
        var j :| 0 <= j < |s| && s[j] == c;
        assert s[1..][j - 1] == c;
      }
      var r := 1 + IndexOf(s[1..], c);
      assert s[..r] == [s[0]] + s[1..][..r - 1];
      r
  }

  lemma IndexOfAfter(a: string, c: char, b: string)
    requires c !in a
    ensures c in a + [c] + b && IndexOf(a + [c] + b, c) == |a|
  {
    var s := a + [c] + b;
    assert s[|a|] == c;
    forall j | |a| < j <= |s|
      ensures c in s[..j]
    {
      assert s[..j][|a|] == c;
    }
    assert forall j :: 0 <= j < |a| ==> s[j] == a[j];
  }

  // ---------------------------------------------------------------------
  // split() on whitespace
  // ---------------------------------------------------------------------

  predicate IsWord(w: string) {
    |w| > 0 && forall j :: 0 <= j < |w| ==> !IsSpace(w[j])
  }

  /** Python's `s.split()`: the maximal runs of non-whitespace characters. */
  function Words(s: string): (ws: seq<string>)
    ensures forall i :: 0 <= i < |ws| ==> IsWord(ws[i])
    ensures |ws| == 0 <==> forall i :: 0 <= i < |s| ==> IsSpace(s[i])
    decreases |s|
  {
    var t := s[LeadLen(s, IsSpace)..];
    if |t| == 0 then []
    else
      var n := LeadLen(t, NotSpace);
      assert t[0] == s[LeadLen(s, IsSpace)];
      LeadWord(t);
      [t[..n]] + Words(t[n..])
  }

  /** The leading run of non-space characters of a string that starts with one is a word. */
  lemma LeadWord(t: string)
    requires |t| > 0 && NotSpace(t[0])
    ensures IsWord(t[..LeadLen(t, NotSpace)])
  {
    var w := t[..LeadLen(t, NotSpace)];
    forall j | 0 <= j < |w| ensures !IsSpace(w[j]) {
      assert NotSpace(t[j]);
    }
  }

  /** The words joined by single spaces. */
  function Join(ws: seq<string>): string {
    if |ws| == 0 then ""
    else if |ws| == 1 then ws[0]
    else ws[0] + " " + Join(ws[1..])
  }

  lemma WordsSkipsSpace(s: string)
    requires |s| > 0 && IsSpace(s[0])
    ensures Words(s) == Words(s[1..])
  {
    var k := LeadLen(s[1..], IsSpace);
    assert LeadLen(s, IsSpace) == 1 + k;
    assert s[1 + k..] == s[1..][k..];
  }

  lemma WordsOfWord(w: string, rest: string)
    requires IsWord(w)
    requires |rest| == 0 || IsSpace(rest[0])
    ensures Words(w + rest) == [w] + Words(rest)
  {
    var s := w + rest;
    LeadLenIs(s, IsSpace, 0);
    assert s[0..] == s;
    LeadLenIs(s, NotSpace, |w|);
    assert s[..|w|] == w;
    assert s[|w|..] == rest;
  }

  /** Splitting words joined by single spaces gives the words back. */
  lemma {:induction false} WordsOfJoin(ws: seq<string>)
    requires forall i :: 0 <= i < |ws| ==> IsWord(ws[i])
    ensures Words(Join(ws)) == ws
    decreases |ws|
  {
    if |ws| == 0 {
    } else if |ws| == 1 {
      WordsOfWord(ws[0], "");
      assert ws[0] + "" == ws[0];
    } else {
      var tail := ws[1..];
      assert Join(ws) == ws[0] + " " + Join(tail);
      WordsOfWordSpace(ws[0], Join(tail));
      WordsOfJoin(tail);
      assert ws == [ws[0]] + ws[1..];
    }
  }

  /** A word followed by a space splits into that word and the split of the rest. */
  lemma WordsOfWordSpace(w: string, tail: string)
    requires IsWord(w)
    ensures Words(w + " " + tail) == [w] + Words(tail)
  {
    var rest := " " + tail;
    assert w + " " + tail == w + rest;
    WordsOfWord(w, rest);
    WordsSkipsSpace(rest);
    assert rest[1..] == tail;
  }

  // ---------------------------------------------------------------------
  // Integers: str(int) and int(str)
  // ---------------------------------------------------------------------

  predicate IsDigit(c: char) {
    '0' <= c <= '9'
  }

  predicate AllDigits(s: string) {
    forall i :: 0 <= i < |s| ==> IsDigit(s[i])
  }

  function DigitChar(d: nat): (c: char)
    requires d < 10
  {
    (('0' as int) + d) as char
  }

  function DigitValue(c: char): nat
    requires IsDigit(c)
  {
    (c as int) - ('0' as int)
  }

  /** The decimal digits of `n`, without leading zeros. */
  function NatToStr(n: nat): (s: string)
    ensures |s| > 0 && AllDigits(s)
  {
    if n < 10 then [DigitChar(n)] else NatToStr(n / 10) + [DigitChar(n % 10)]
  }

  /** Python's `str(i)`. */
  function IntToStr(i: int): string {
    if i < 0 then "-" + NatToStr(-i) else NatToStr(i)
  }

  /** The value of a string of decimal digits. */
  function DigitsToNat(s: string): nat
    requires AllDigits(s)
  {
    if |s| == 0 then 0 else 10 * DigitsToNat(s[..|s| - 1]) + DigitValue(s[|s| - 1])
  }

  /** Python's `int(s)` on ASCII decimal literals: optional whitespace and sign. */
  function PyInt(s: string): Option<int> {
    var t := Strip(s);
    if |t| > 0 && (t[0] == '+' || t[0] == '-') then
      var d := t[1..];
      if |d| > 0 && AllDigits(d) then
        var n: int := DigitsToNat(d);
        Some(if t[0] == '-' then -n else n)
      else None
    else if |t| > 0 && AllDigits(t) then Some(DigitsToNat(t))
    else None
  }

  lemma {:induction false} DigitsOfNat(n: nat)
    ensures DigitsToNat(NatToStr(n)) == n
  {
    var s := NatToStr(n);
    if n >= 10 {
      assert s[..|s| - 1] == NatToStr(n / 10);
      DigitsOfNat(n / 10);
    }
  }

  /** `int(str(i)) == i`. */
  lemma PyIntOfIntToStr(i: int)
    ensures PyInt(IntToStr(i)) == Some(i)
  {
    var s := IntToStr(i);
    var n: nat := if i < 0 then -i else i;
    DigitsOfNat(n);
    assert !IsSpace(s[0]) && !IsSpace(s[|s| - 1]);
    StripByKeeps(s, IsSpace);
    if i < 0 {
      assert s[1..] == NatToStr(n);
    }
  }

  // ---------------------------------------------------------------------
  // Booleans: str(bool) and strtobool
  // ---------------------------------------------------------------------

  function LowerChar(c: char): char {
    if 'A' <= c <= 'Z' then ((c as int) + 32) as char else c
  }

  /** `s.lower()` on the ASCII letters. */
  function Lower(s: string): (r: string)
    ensures |r| == |s| && forall i :: 0 <= i < |s| ==> r[i] == LowerChar(s[i])
  {
    seq(|s|, i requires 0 <= i < |s| => LowerChar(s[i]))
  }

  const TrueWords: set<string> := {"y", "yes", "t", "true", "on", "1"}
  const FalseWords: set<string> := {"n", "no", "f", "false", "off", "0"}

  /** distutils' `strtobool`: None where it raises ValueError. */
  function StrToBool(s: string): Option<bool> {
    var l := Lower(s);
    if l in TrueWords then Some(true)
    else if l in FalseWords then Some(false)
    else None
  }

  /** Python's `str(b)` for a bool. */
  function BoolToStr(b: bool): string {
    if b then "True" else "False"
  }

  /** `strtobool(str(b)) == b`. */
  lemma StrToBoolOfBoolToStr(b: bool)
    ensures StrToBool(BoolToStr(b)) == Some(b)
  {
    if b {
      assert Lower("True") == "true";
    } else {
      assert Lower("False") == "false";
    }
  }

  /** The two word sets share no word, so `strtobool` is a function of the lowered text. */
  lemma StrToBoolWords(s: string)
    ensures StrToBool(s) == Some(true) <==> Lower(s) in TrueWords
    ensures StrToBool(s) == Some(false) <==> Lower(s) in FalseWords
    ensures StrToBool(s) == None <==> Lower(s) !in TrueWords + FalseWords
  {
    assert TrueWords !! FalseWords;
  }

  // ---------------------------------------------------------------------
  // Sequences without repetition
  // ---------------------------------------------------------------------

  function Elements<T>(s: seq<T>): set<T> {
    set x | x in s
  }

  predicate Distinct<T(==)>(s: seq<T>) {
    forall i, j :: 0 <= i < j < |s| ==> s[i] != s[j]
  }

  /** A sequence has at least as many positions as distinct elements, and exactly as many only without repetition. */
  lemma {:induction false} ElementsCard<T>(s: seq<T>)
    ensures |Elements(s)| <= |s|
    ensures |Elements(s)| == |s| ==> Distinct(s)
  {
    if |s| > 0 {
      var t := s[1..];
      ElementsCard(t);
      assert Elements(s) == {s[0]} + Elements(t) by {
        forall x | x in Elements(s) ensures x in {s[0]} + Elements(t) {
          var i :| 0 <= i < |s| && s[i] == x;
          if i > 0 {
            assert t[i - 1] == x;
          }
        }
        assert forall x :: x in t ==> x in s;
      }
      if s[0] !in Elements(t) && |Elements(s)| == |s| {
        assert |Elements(t)| == |t|;
        forall i, j | 0 <= i < j < |s| ensures s[i] != s[j] {
          if i > 0 {
            assert s[i] == t[i - 1] && s[j] == t[j - 1];
          } else {
            assert s[j] == t[j - 1];
            assert s[j] in Elements(t);
          }
        }
      }
    }
  }

  lemma ElementsOfConcat<T>(a: seq<T>, b: seq<T>)
    ensures Elements(a + b) == Elements(a) + Elements(b)
  {
    assert forall x :: x in a + b <==> x in a || x in b;
  }

  /** Removing two disjoint subsets removes their sizes. */
  lemma SubsetCard<T>(all: set<T>, a: set<T>, b: set<T>)
    requires a <= all && b <= all && a !! b
    ensures |all - a - b| == |all| - |a| - |b|
  {
    assert all - a - b == all - (a + b);
    assert |all| == |all - (a + b)| + |a + b| by {
      assert all == (all - (a + b)) + (a + b);
    }
  }
}
