/**
 * The few Python `str` and `int` built-ins the translator and the assembler
 * rely on, written out over `seq<char>`: `strip`, `split()`, `split(sep)[k]`,
 * `startswith`, `replace`, `str(int)`, `int(str)`, `bin` and `zfill`.
 */
module PyStrings {
  import opened Results

  // ---------------------------------------------------------------------------
  // Whitespace, strip and split()
  // ---------------------------------------------------------------------------

  /** The characters for which Python's `str.isspace()` holds. */
  predicate IsSpace(c: char) {
    || ('\U{0009}' <= c <= '\U{000D}')
    || ('\U{001C}' <= c <= '\U{0020}')
    || c == '\U{0085}' || c == '\U{00A0}' || c == '\U{1680}'
    || ('\U{2000}' <= c <= '\U{200A}')
    || c == '\U{2028}' || c == '\U{2029}' || c == '\U{202F}' || c == '\U{205F}' || c == '\U{3000}'
  }

  predicate NoSpace(s: string) {
    forall i :: 0 <= i < |s| ==> !IsSpace(s[i])
  }

  /** `s.lstrip()`: drops the leading whitespace. */
  function TrimLeft(s: string): (r: string)
    ensures |r| <= |s|
    ensures r == [] || !IsSpace(r[0])
  {
    if |s| > 0 && IsSpace(s[0]) then TrimLeft(s[1..]) else s
  }

  /** `lstrip()` keeps a suffix of `s`, and what it drops is whitespace. */
  lemma {:induction false} TrimLeftSuffix(s: string)
    ensures TrimLeft(s) == s[|s| - |TrimLeft(s)|..]
    ensures forall i :: 0 <= i < |s| - |TrimLeft(s)| ==> IsSpace(s[i])
    decreases |s|
  {
    if |s| > 0 && IsSpace(s[0]) {
      TrimLeftSuffix(s[1..]);
    }
  }

  /** `s.rstrip()`: drops the trailing whitespace. */
  function TrimRight(s: string): (r: string)
    ensures |r| <= |s| && r == s[..|r|]
    ensures forall i :: |r| <= i < |s| ==> IsSpace(s[i])
    ensures r == [] || !IsSpace(r[|r| - 1])
  {
    if |s| > 0 && IsSpace(s[|s| - 1]) then TrimRight(s[..|s| - 1]) else s
  }

  /** `s.strip()`. */
  function Strip(s: string): (r: string)
    ensures |r| <= |s|
    ensures r == [] || (!IsSpace(r[0]) && !IsSpace(r[|r| - 1]))
  {
    TrimRight(TrimLeft(s))
  }

  /**
   * `strip()` keeps a slice of `s`: the `k` characters before it and those
   * after it are all whitespace.
   */
  lemma {:induction false} StripSlice(s: string)
    ensures var k := |s| - |TrimLeft(s)|;
      && k + |Strip(s)| <= |s| && Strip(s) == s[k..k + |Strip(s)|]
      && (forall i :: 0 <= i < k ==> IsSpace(s[i]))
      && (forall i :: k + |Strip(s)| <= i < |s| ==> IsSpace(s[i]))
  {
    var t := TrimLeft(s);
    var k := |s| - |t|;
    TrimLeftSuffix(s);
    assert forall i :: k <= i < |s| ==> s[i] == t[i - k];
  }

  /** Stripping a string that neither starts nor ends with whitespace changes nothing. */
  lemma {:induction false} StripNoop(s: string)
    requires s == [] || (!IsSpace(s[0]) && !IsSpace(s[|s| - 1]))
    ensures Strip(s) == s
  {
  }

  /** The longest prefix of `s` without whitespace. */
  function Word(s: string): (r: string)
    ensures |r| <= |s| && NoSpace(r)
    ensures s != [] && !IsSpace(s[0]) ==> r != []
  {
    if |s| == 0 || IsSpace(s[0]) then [] else [s[0]] + Word(s[1..])
  }

  /** `s.split()`: the maximal runs of non-whitespace characters, in order. */
  function SplitWs(s: string): (r: seq<string>)
    ensures forall w <- r :: w != [] && NoSpace(w)
    decreases |s|
  {
    var t := TrimLeft(s);
    if t == [] then []
    else
      var w := Word(t);
      [w] + SplitWs(t[|w|..])
  }

  lemma {:induction false} WordOfJoin(w: string, rest: string)
    requires w != [] && NoSpace(w)
    requires rest == [] || IsSpace(rest[0])
    ensures Word(w + rest) == w
  {
    if |w| > 1 {
      assert (w + rest)[1..] == w[1..] + rest;
      WordOfJoin(w[1..], rest);
    } else {
      assert (w + rest)[1..] == rest;
    }
  }

  /** A word followed by nothing or by whitespace splits off as the first token. */
  lemma {:induction false} SplitWsCons(w: string, rest: string)
    requires w != [] && NoSpace(w)
    requires rest == [] || IsSpace(rest[0])
    ensures SplitWs(w + rest) == [w] + SplitWs(rest)
  {
    assert TrimLeft(w + rest) == w + rest;
    WordOfJoin(w, rest);
    assert (w + rest)[|w|..] == rest;
  }

  /** A whitespace character in front of a string, whichever it is, adds no token. */
  lemma {:induction false} SplitWsSkip(c: char, t: string)
    requires IsSpace(c)
    ensures SplitWs([c] + t) == SplitWs(t)
  {
    assert ([c] + t)[1..] == t;
    assert TrimLeft([c] + t) == TrimLeft(t);
  }

  lemma {:induction false} SplitWsOfWord(w: string)
    requires w != [] && NoSpace(w)
    ensures SplitWs(w) == [w]
  {
    assert w + [] == w;
    SplitWsCons(w, []);
  }

  /** A word and a single space split off the word. */
  lemma {:induction false} SplitWsWordSpace(w: string, t: string)
    requires w != [] && NoSpace(w)
    ensures SplitWs(w + " " + t) == [w] + SplitWs(t)
  {
    assert w + " " + t == w + (" " + t);
    assert SplitWs(w + (" " + t)) == [w] + SplitWs(" " + t) by {
      SplitWsCons(w, " " + t);
    }
    SplitWsSkip(' ', t);
  }

  /** `"a b c".split()` is `[a, b, c]` for three words. */
  lemma {:induction false} SplitThreeWords(a: string, b: string, c: string)
    requires a != [] && NoSpace(a) && b != [] && NoSpace(b) && c != [] && NoSpace(c)
    ensures SplitWs(a + " " + b + " " + c) == [a, b, c]
  {
    var rest := b + " " + c;
    assert SplitWs(rest) == [b, c] by {
      SplitWsWordSpace(b, c);
      SplitWsOfWord(c);
    }
    assert a + " " + b + " " + c == a + " " + rest;
    SplitWsWordSpace(a, rest);
  }

  // ---------------------------------------------------------------------------
  // Separators: `c in s`, `s.split(c)[0]`, `s.split(c)[1]`, `s.split("//")[0]`
  // ---------------------------------------------------------------------------

  /** `s.split(c)[0]`: the text before the first `c` (all of `s` when there is none). */
  function Before(s: string, c: char): (r: string)
    ensures |r| <= |s| && r == s[..|r|] && c !in r
    ensures |r| == |s| || s[|r|] == c
  {
    if |s| == 0 || s[0] == c then [] else [s[0]] + Before(s[1..], c)
  }

  /** The text after the first `c`; `s.split(c)[1]` is `Before(After(s, c), c)`. */
  function After(s: string, c: char): (r: string)
    requires c in s
    ensures |r| < |s| && r == s[|s| - |r|..]
    ensures s == Before(s, c) + [c] + r
  {
    if s[0] == c then s[1..] else After(s[1..], c)
  }

  /** `s.split(c)[1]`, defined only when `c` occurs (else IndexError, which the callers rule out). */
  function SecondField(s: string, c: char): string
    requires c in s
  {
    Before(After(s, c), c)
  }

  lemma {:induction false} BeforeOfJoin(a: string, c: char, rest: string)
    requires c !in a
    ensures Before(a + [c] + rest, c) == a
    ensures After(a + [c] + rest, c) == rest
  {
    var s := a + [c] + rest;
    if a == [] {
      assert s[0] == c && s[1..] == rest;
    } else {
      assert s[0] == a[0] != c;
      assert s[1..] == a[1..] + [c] + rest;
      BeforeOfJoin(a[1..], c, rest);
      assert a == [a[0]] + a[1..];
    }
  }

  lemma {:induction false} BeforeAbsent(s: string, c: char)
    requires c !in s
    ensures Before(s, c) == s
  {
  }

  /** `s.split("//")[0]`: the text before the first `//` (all of `s` when there is none). */
  function CutComment(s: string): (r: string)
    ensures |r| <= |s| && r == s[..|r|]
    ensures !HasComment(r)
    ensures |r| == |s| || (|r| + 2 <= |s| && s[|r|..|r| + 2] == "//")
    ensures |r| == 0 || |r| == |s| || s[|r| - 1] != '/'
  {
    if |s| < 2 then s
    else if s[..2] == "//" then []
    else [s[0]] + CutComment(s[1..])
  }

  predicate HasComment(s: string) {
    exists i :: 0 <= i < |s| - 1 && s[i] == '/' && s[i + 1] == '/'
  }

  lemma {:induction false} CutCommentNoop(s: string)
    requires !HasComment(s)
    ensures CutComment(s) == s
  {
    if |s| >= 2 {
      assert s[0] != '/' || s[1] != '/';
      CutCommentNoop(s[1..]);
    }
  }

  predicate StartsWith(s: string, prefix: string) {
    |prefix| <= |s| && s[..|prefix|] == prefix
  }

  /** `s.replace(a, b)` for single characters. */
  function ReplaceChar(s: string, a: char, b: char): (r: string)
    ensures |r| == |s|
    ensures a != b ==> a !in r
    ensures forall i :: 0 <= i < |s| ==> r[i] == (if s[i] == a then b else s[i])
  {
    seq(|s|, i requires 0 <= i < |s| => if s[i] == a then b else s[i])
  }

  // ---------------------------------------------------------------------------
  // Decimal numerals: `str(i)` and `int(s)`
  // ---------------------------------------------------------------------------

  predicate IsDigit(c: char) { '0' <= c <= '9' }

  predicate AllDigits(s: string) {
    forall i :: 0 <= i < |s| ==> IsDigit(s[i])
  }

  function DigitChar(d: nat): char
    requires d < 10
  {
    ['0', '1', '2', '3', '4', '5', '6', '7', '8', '9'][d]
  }

  /** The value of a string of decimal digits, most significant first. */
  function DigitsValue(s: string): nat
    requires AllDigits(s)
  {
    if s == [] then 0 else 10 * DigitsValue(s[..|s| - 1]) + (s[|s| - 1] as int - '0' as int)
  }

  /** `str(n)` for a natural number: its decimal digits without leading zeros. */
  function NatToString(n: nat): (r: string)
    ensures r != [] && AllDigits(r)
    ensures r[0] == '0' ==> n == 0 && r == "0"
  {
    if n < 10 then [DigitChar(n)] else NatToString(n / 10) + [DigitChar(n % 10)]
  }

  /** Reading back the digits of `str(n)` gives `n`. */
  lemma {:induction false} NatToStringValue(n: nat)
    ensures DigitsValue(NatToString(n)) == n
  {
    var s := NatToString(n);
    if n >= 10 {
      NatToStringValue(n / 10);
      assert s[..|s| - 1] == NatToString(n / 10);
    }
  }

  /** `str(i)` for any integer. */
  function IntToString(i: int): (r: string)
    ensures r != [] && (r[0] == '-' || IsDigit(r[0]))
  {
    if i < 0 then "-" + NatToString(-i) else NatToString(i)
  }

  /**
   * `int(s)`: Python strips surrounding whitespace and accepts an optional sign
   * followed by decimal digits; anything else raises ValueError (None here).
   */
  function ParseInt(s: string): (r: Option<int>)
    ensures r.Some? ==> Strip(s) != []
  {
    var t := Strip(s);
    if t == [] then None
    else if t[0] == '-' || t[0] == '+' then
      var body := t[1..];
      if body != [] && AllDigits(body) then
        var v := DigitsValue(body) as int; Some(if t[0] == '-' then -v else v)
      else None
    else if AllDigits(t) then Some(DigitsValue(t))
    else None
  }

  lemma {:induction false} NatToStringNoSpace(n: nat)
    ensures NoSpace(NatToString(n))
  {
  }

  /** `int(str(i)) == i`. */
  lemma {:induction false} ParseIntToString(i: int)
    ensures ParseInt(IntToString(i)) == Some(i)
  {
    if i < 0 {
      ParseIntOfNegative(-i);
    } else {
      ParseIntOfNat(i);
    }
  }

  lemma {:induction false} ParseIntOfNegative(n: nat)
    requires n > 0
    ensures ParseInt(IntToString(-(n as int))) == Some(-(n as int))
  {
    var body := NatToString(n);
    assert DigitsValue(body) == n by {
      NatToStringValue(n);
    }
    ParseIntMinus(body, n);
  }


  lemma {:induction false} ParseIntOfNat(n: nat)
    ensures ParseInt(NatToString(n)) == Some(n)
  {
    var s := NatToString(n);
    assert !IsSpace(s[0]) && !IsSpace(s[|s| - 1]);
    StripNoop(s);
    assert s[0] != '-' && s[0] != '+';
    NatToStringValue(n);
  }

  /** A minus sign before decimal digits is a negative literal for `int`. */
  lemma {:induction false} ParseIntMinus(body: string, v: nat)
    requires body != [] && AllDigits(body) && DigitsValue(body) == v
    ensures ParseInt("-" + body) == Some(-(v as int))
  {
    var s := "-" + body;
    assert s[0] == '-' && s[1..] == body;
    assert !IsSpace(s[0]) && !IsSpace(s[|s| - 1]);
    StripNoop(s);
  }

  /** Any non-empty string of decimal digits is an integer literal for `int`. */
  lemma {:induction false} ParseIntDigits(s: string)
    requires s != [] && AllDigits(s)
    ensures ParseInt(s) == Some(DigitsValue(s))
  {
    StripNoop(s);
  }

  /** Two distinct integers print differently. */
  lemma {:induction false} IntToStringInjective(i: int, j: int)
    requires IntToString(i) == IntToString(j)
    ensures i == j
  {
    ParseIntToString(i);
    ParseIntToString(j);
  }

  // ---------------------------------------------------------------------------
  // Binary numerals: `bin(n)[2:]` and `zfill`
  // ---------------------------------------------------------------------------

  predicate AllBits(s: string) {
    forall i :: 0 <= i < |s| ==> s[i] == '0' || s[i] == '1'
  }

  function BitsValue(s: string): nat
    requires AllBits(s)
  {
    if s == [] then 0 else 2 * BitsValue(s[..|s| - 1]) + (if s[|s| - 1] == '1' then 1 else 0)
  }

  function Pow2(k: nat): (r: nat)
    ensures r >= 1
  {
    if k == 0 then 1 else 2 * Pow2(k - 1)
  }

  /** `bin(n)[2:]`: the binary digits of `n` without leading zeros ("0" for 0). */
  function Bin(n: nat): (r: string)
    ensures r != [] && AllBits(r)
  {
    if n < 2 then (if n == 0 then "0" else "1") else Bin(n / 2) + (if n % 2 == 0 then "0" else "1")
  }

  lemma {:induction false} BinValue(n: nat)
    ensures BitsValue(Bin(n)) == n
  {
    if n >= 2 {
      var s := Bin(n);
      BinValue(n / 2);
      assert s[..|s| - 1] == Bin(n / 2);
    }
  }

  /** `bin(n)` has at most `k` digits when `n < 2^k` (for `k >= 1`). */
  lemma {:induction false} BinLength(n: nat, k: nat)
    requires 1 <= k && n < Pow2(k)
    ensures |Bin(n)| <= k
  {
    if n >= 2 {
      assert k >= 2;
      BinLength(n / 2, k - 1);
    }
  }

  function Zeros(k: nat): (r: string)
    ensures |r| == k && AllBits(r) && forall i :: 0 <= i < k ==> r[i] == '0'
  {
    if k == 0 then [] else "0" + Zeros(k - 1)
  }

  /** `s.zfill(width)`: left-pads with zeros after an optional sign character. */
  function ZFill(s: string, width: nat): (r: string)
    ensures |r| == if |s| >= width then |s| else width
  {
    if |s| >= width then s
    else if |s| > 0 && (s[0] == '+' || s[0] == '-') then [s[0]] + Zeros(width - |s|) + s[1..]
    else Zeros(width - |s|) + s
  }

  lemma {:induction false} LeadingZerosValue(k: nat, s: string)
    requires AllBits(s)
    ensures AllBits(Zeros(k) + s) && BitsValue(Zeros(k) + s) == BitsValue(s)
  {
    if s != [] {
      var t := Zeros(k) + s;
      assert t[..|t| - 1] == Zeros(k) + s[..|s| - 1];
      LeadingZerosValue(k, s[..|s| - 1]);
    } else {
      assert Zeros(k) + s == Zeros(k);
      ZerosValue(k);
    }
  }

  lemma {:induction false} ZerosValue(k: nat)
    ensures BitsValue(Zeros(k)) == 0
  {
    if k > 0 {
      var z := Zeros(k);
      assert z[..|z| - 1] == Zeros(k - 1);
      ZerosValue(k - 1);
    }
  }

  // ---------------------------------------------------------------------------
  // The list comprehensions both parsers build their command lists with
  // ---------------------------------------------------------------------------

  /** `filter(lambda x: not x.startswith("//"), lines)`. */
  function DropCommentLines(lines: seq<string>): (r: seq<string>)
    ensures |r| <= |lines|
    ensures forall k :: 0 <= k < |r| ==> !StartsWith(r[k], "//")
  {
    if lines == [] then []
    else (if StartsWith(lines[0], "//") then [] else [lines[0]]) + DropCommentLines(lines[1..])
  }

  /** `[line.strip() for line in lines]`. */
  function StripAll(lines: seq<string>): (r: seq<string>)
    ensures |r| == |lines|
  {
    if lines == [] then [] else [Strip(lines[0])] + StripAll(lines[1..])
  }

  /** `filter(None, lines)`: drops the empty strings. */
  function DropEmpty(lines: seq<string>): (r: seq<string>)
    ensures |r| <= |lines|
    ensures forall k :: 0 <= k < |r| ==> r[k] != []
  {
    if lines == [] then [] else (if lines[0] == [] then [] else [lines[0]]) + DropEmpty(lines[1..])
  }

  /** `map(lambda x: x.split("//")[0], lines)`. */
  function CutCommentAll(lines: seq<string>): (r: seq<string>)
    ensures |r| == |lines|
  {
    if lines == [] then [] else [CutComment(lines[0])] + CutCommentAll(lines[1..])
  }

  lemma {:induction false} DropCommentLinesAppend(a: seq<string>, b: seq<string>)
    ensures DropCommentLines(a + b) == DropCommentLines(a) + DropCommentLines(b)
  {
    if a != [] {
      assert (a + b)[1..] == a[1..] + b;
      DropCommentLinesAppend(a[1..], b);
    } else {
      assert a + b == b;
    }
  }

  lemma {:induction false} StripAllAppend(a: seq<string>, b: seq<string>)
    ensures StripAll(a + b) == StripAll(a) + StripAll(b)
  {
    if a != [] {
      assert (a + b)[1..] == a[1..] + b;
      StripAllAppend(a[1..], b);
    } else {
      assert a + b == b;
    }
  }

  lemma {:induction false} DropEmptyAppend(a: seq<string>, b: seq<string>)
    ensures DropEmpty(a + b) == DropEmpty(a) + DropEmpty(b)
  {
    if a != [] {
      assert (a + b)[1..] == a[1..] + b;
      DropEmptyAppend(a[1..], b);
    } else {
      assert a + b == b;
    }
  }

  /** `line.strip()` is applied to each line in place. */
  lemma {:induction false} StripAllAt(lines: seq<string>, k: nat)
    requires k < |lines|
    ensures StripAll(lines)[k] == Strip(lines[k])
  {
    if k > 0 {
      StripAllAt(lines[1..], k - 1);
    }
  }

  /** `line.split("//")[0]` is applied to each line in place. */
  lemma {:induction false} CutCommentAllAt(lines: seq<string>, k: nat)
    requires k < |lines|
    ensures CutCommentAll(lines)[k] == CutComment(lines[k])
  {
    if k > 0 {
      CutCommentAllAt(lines[1..], k - 1);
    }
  }

  lemma {:induction false} CutCommentAllAppend(a: seq<string>, b: seq<string>)
    ensures CutCommentAll(a + b) == CutCommentAll(a) + CutCommentAll(b)
  {
    if a != [] {
      assert (a + b)[1..] == a[1..] + b;
      CutCommentAllAppend(a[1..], b);
    } else {
      assert a + b == b;
    }
  }

  lemma {:induction false} StartsWithAppend(p: string, rest: string)
    ensures StartsWith(p + rest, p)
  {
    assert (p + rest)[..|p|] == p;
  }

  lemma {:induction false} DiffersAt(s: string, p: string, k: nat)
    requires k < |s| && k < |p| && s[k] != p[k]
    ensures !StartsWith(s, p)
  {
    if |p| <= |s| {
      assert s[..|p|][k] != p[k];
    }
  }

  /** Leading whitespace is dropped up to the first other character. */
  lemma {:induction false} TrimLeftSpaces(indent: string, s: string)
    requires forall i :: 0 <= i < |indent| ==> IsSpace(indent[i])
    requires s != [] && !IsSpace(s[0])
    ensures TrimLeft(indent + s) == s
  {
    if indent != [] {
      assert (indent + s)[1..] == indent[1..] + s;
      TrimLeftSpaces(indent[1..], s);
    } else {
      assert indent + s == s;
    }
  }

  /** Cutting at the first `//` of a text that has no `/` before it. */
  lemma {:induction false} CutCommentAt(a: string, b: string)
    requires '/' !in a
    ensures CutComment(a + "//" + b) == a
  {
    var s := a + "//" + b;
    if a == [] {
      assert s[..2] == "//";
    } else {
      assert s[0] == a[0] != '/';
      assert s[1..] == a[1..] + "//" + b;
      CutCommentAt(a[1..], b);
      assert a == [a[0]] + a[1..];
    }
  }
}
