/** The Python `str` builtins the code generator relies on: `bin(n)[2:]`,
    `str.upper`, `str.zfill`, `str.ljust`, `str.rstrip`, `str.join`, and
    splitting a text into its lines. Each is stated over `string` (a
    sequence of Unicode scalar values, like a Python 3 `str`). */
module PyStr {

  /** The characters for which Python's `str.isspace()` is true. */
  predicate IsSpace(c: char) {
    var n := c as int;
    n == 0x20 || 0x09 <= n <= 0x0d || 0x1c <= n <= 0x1f || n == 0x85 || n == 0xa0
    || n == 0x1680 || 0x2000 <= n <= 0x200a || n == 0x2028 || n == 0x2029
    || n == 0x202f || n == 0x205f || n == 0x3000
  }

  predicate IsBinDigit(c: char) {
    c == '0' || c == '1'
  }

  predicate AllBinDigits(s: string) {
    forall i :: 0 <= i < |s| ==> IsBinDigit(s[i])
  }

  function Repeat(c: char, n: nat): (r: string)
    ensures |r| == n && forall i :: 0 <= i < n ==> r[i] == c
  {
    seq(n, _ => c)
  }

  // ---------------------------------------------------------------------
  // bin(n)[2:]
  // ---------------------------------------------------------------------

  function BinDigit(b: nat): char
    requires b < 2
  {
    if b == 0 then '0' else '1'
  }

  function DigitValue(c: char): nat {
    if c == '1' then 1 else 0
  }

  /** The digits of `bin(n)` after its `0b` prefix: base 2, most significant
      digit first, with no leading zero except for `n == 0`. */
  function BinDigits(n: nat): (r: string)
    ensures |r| >= 1 && AllBinDigits(r)
    ensures n > 0 ==> r[0] == '1'
    ensures n == 0 ==> r == "0"
  {
    if n < 2 then [BinDigit(n)] else BinDigits(n / 2) + [BinDigit(n % 2)]
  }

  /** The value of a string of binary digits, most significant first. */
  function FromBinary(d: string): nat
    requires AllBinDigits(d)
  {
    if d == [] then 0 else 2 * FromBinary(d[..|d| - 1]) + DigitValue(d[|d| - 1])
  }

  function Pow2(k: nat): (r: nat)
    ensures r >= 1
  {
    if k == 0 then 1 else 2 * Pow2(k - 1)
  }

  /** Reading the digits of `bin(n)` back as base 2 gives `n`. */
  lemma {:induction false} FromBinDigits(n: nat)
    ensures FromBinary(BinDigits(n)) == n
  {
    if n >= 2 {
      var d := BinDigits(n);
      assert d[..|d| - 1] == BinDigits(n / 2);
      FromBinDigits(n / 2);
    }
  }

  /** `bin(n)[2:]` has at most `k` digits exactly when `n < 2^k`. */
  lemma {:induction false} BinDigitsLength(n: nat, k: nat)
    requires k >= 1
    ensures |BinDigits(n)| <= k <==> n < Pow2(k)
  {
    if n >= 2 {
      assert |BinDigits(n)| == |BinDigits(n / 2)| + 1;
      if k >= 2 {
        BinDigitsLength(n / 2, k - 1);
      }
    }
  }

  /** Leading zeros do not change the value of a binary string. */
  lemma {:induction false} FromBinaryLeadingZeros(z: nat, d: string)
    requires AllBinDigits(d)
    ensures AllBinDigits(Repeat('0', z) + d)
    ensures FromBinary(Repeat('0', z) + d) == FromBinary(d)
  {
    var s := Repeat('0', z) + d;
    if d == [] {
      assert s == Repeat('0', z);
      if z > 0 {
        assert s[..|s| - 1] == Repeat('0', z - 1) + [];
        FromBinaryLeadingZeros(z - 1, []);
      }
    } else {
      assert s[..|s| - 1] == Repeat('0', z) + d[..|d| - 1];
      FromBinaryLeadingZeros(z, d[..|d| - 1]);
    }
  }

  // ---------------------------------------------------------------------
  // str.upper, str.zfill, str.ljust, str.rstrip
  // ---------------------------------------------------------------------

  /** `str.upper` on ASCII letters; every other character is kept. */
  function Upper(s: string): (r: string)
    ensures |r| == |s|
    ensures forall i :: 0 <= i < |s| ==>
      r[i] == if 'a' <= s[i] <= 'z' then (s[i] as int - 32) as char else s[i]
  {
    seq(|s|, i requires 0 <= i < |s| =>
      if 'a' <= s[i] <= 'z' then (s[i] as int - 32) as char else s[i])
  }

  /** Upper-casing leaves binary digits alone. */
  lemma UpperBinDigits(d: string)
    requires AllBinDigits(d)
    ensures Upper(d) == d
  {
  }

  /** `str.zfill(width)`: pad with `0` on the left up to `width`, after a
      leading sign if there is one; never truncate. */
  function ZFill(s: string, width: int): (r: string)
    ensures |r| == if |s| >= width then |s| else width
    ensures |s| >= width ==> r == s
    ensures |s| < width && (s == [] || (s[0] != '+' && s[0] != '-')) ==>
      r == Repeat('0', width - |s|) + s
  {
    if |s| >= width then s
    else if s != [] && (s[0] == '+' || s[0] == '-') then
      [s[0]] + Repeat('0', width - |s|) + s[1..]
    else Repeat('0', width - |s|) + s
  }

  /** `str.ljust(width)`: pad with spaces on the right up to `width`. The
      result is exactly `max(width, |s|)` long, keeps `s` as its prefix, and
      everything after `s` is a space. */
  function LJust(s: string, width: int): (r: string)
    ensures |r| == if |s| >= width then |s| else width
    ensures r[..|s|] == s
    ensures forall i :: |s| <= i < |r| ==> r[i] == ' '
  {
    if |s| >= width then s else s + Repeat(' ', width - |s|)
  }

  /** `str.rstrip()`: drop trailing whitespace. The result is the longest
      prefix of `s` after which only whitespace follows. */
  function RStrip(s: string): (r: string)
    ensures |r| <= |s| && r == s[..|r|]
    ensures r == [] || !IsSpace(r[|r| - 1])
    ensures forall i :: |r| <= i < |s| ==> IsSpace(s[i])
  {
    if s != [] && IsSpace(s[|s| - 1]) then RStrip(s[..|s| - 1]) else s
  }

  /** The three properties of `RStrip` determine its result. */
  lemma {:induction false} RStripUnique(s: string, p: string)
    requires |p| <= |s| && p == s[..|p|]
    requires p == [] || !IsSpace(p[|p| - 1])
    requires forall i :: |p| <= i < |s| ==> IsSpace(s[i])
    ensures RStrip(s) == p
  {
    if |s| > |p| {
      assert s[..|s| - 1][..|p|] == p;
      RStripUnique(s[..|s| - 1], p);
    }
  }

  /** Stripping the padding that `ljust` added gives back the text, provided
      the text did not itself end in whitespace. */
  lemma RStripLJust(s: string, width: int)
    requires s == [] || !IsSpace(s[|s| - 1])
    ensures RStrip(LJust(s, width)) == s
  {
    RStripUnique(LJust(s, width), s);
  }

  // ---------------------------------------------------------------------
  // str.join and splitting into lines
  // ---------------------------------------------------------------------

  /** `sep.join(xs)`. */
  function Join(sep: string, xs: seq<string>): string {
    if |xs| == 0 then "" else if |xs| == 1 then xs[0] else xs[0] + sep + Join(sep, xs[1..])
  }

  /** The index of the first `c` in `s`, or `|s|` when there is none. */
  function IndexOf(s: string, c: char): (k: nat)
    ensures k <= |s|
    ensures k < |s| ==> s[k] == c
    ensures forall i :: 0 <= i < k ==> s[i] != c
  {
    if s == [] then 0 else if s[0] == c then 0 else 1 + IndexOf(s[1..], c)
  }

  /** The index of the last `c` in `s`, or `-1` when there is none. */
  function LastIndexOf(s: string, c: char): (k: int)
    ensures -1 <= k < |s|
    ensures k >= 0 ==> s[k] == c
    ensures forall i :: k < i < |s| ==> s[i] != c
  {
    if s == [] then -1 else if s[|s| - 1] == c then |s| - 1 else LastIndexOf(s[..|s| - 1], c)
  }

  /** `s.split('\n')`: the lines of `s`. */
  function Lines(s: string): (r: seq<string>)
    ensures |r| >= 1
    decreases |s|
  {
    var k := IndexOf(s, '\n');
    if k == |s| then [s] else [s[..k]] + Lines(s[k + 1..])
  }

  lemma LinesCons(a: string, b: string)
    requires '\n' !in a
    ensures Lines(a + "\n" + b) == [a] + Lines(b)
  {
    var s := a + "\n" + b;
    assert IndexOf(s, '\n') == |a| by {
      assert s[|a|] == '\n';
      assert forall i :: 0 <= i < |a| ==> s[i] == a[i];
    }
    assert s[..|a|] == a;
    assert s[|a| + 1..] == b;
  }

  lemma LinesSingle(a: string)
    requires '\n' !in a
    ensures Lines(a) == [a]
  {
  }

  /** The index step of `LinesOfJoin`: the lines after the first are the
      lines of the rest, shifted by one. */
  lemma ShiftedLines(first: string, indent: string, tail: seq<string>, xs: seq<string>)
    requires |xs| >= 2 && |tail| == |xs| - 1
    requires tail[0] == indent + xs[1..][0]
    requires forall i :: 1 <= i < |xs[1..]| ==> tail[i] == indent + xs[1..][i]
    ensures forall i :: 1 <= i < |xs| ==> ([first] + tail)[i] == indent + xs[i]
  {
    forall i | 1 <= i < |xs|
      ensures ([first] + tail)[i] == indent + xs[i]
    {
      assert xs[1..][i - 1] == xs[i];
    }
  }

  /** Joining lines that hold no newline with `"\n" + indent`, and prepending
      `p` to the first, splits back into `p + xs[0]` followed by each further
      line behind the indent. */
  lemma {:induction false} LinesOfJoin(p: string, indent: string, xs: seq<string>)
    requires |xs| >= 1
    requires '\n' !in p && '\n' !in indent
    requires forall i :: 0 <= i < |xs| ==> '\n' !in xs[i]
    ensures |Lines(p + Join("\n" + indent, xs))| == |xs|
    ensures Lines(p + Join("\n" + indent, xs))[0] == p + xs[0]
    ensures forall i :: 1 <= i < |xs| ==> Lines(p + Join("\n" + indent, xs))[i] == indent + xs[i]
    decreases |xs|
  {
    var sep := "\n" + indent;
    var whole := p + Join(sep, xs);
    if |xs| == 1 {
      assert whole == p + xs[0];
      LinesSingle(p + xs[0]);
    } else {
      var rest := Join(sep, xs[1..]);
      assert Join(sep, xs) == xs[0] + sep + rest;
      assert whole == (p + xs[0]) + "\n" + (indent + rest);
      LinesCons(p + xs[0], indent + rest);
      var tail := Lines(indent + rest);
      LinesOfJoin(indent, indent, xs[1..]);
      ShiftedLines(p + xs[0], indent, tail, xs);
    }
  }

  // ---------------------------------------------------------------------
  // repr of an int
  // ---------------------------------------------------------------------

  function DecimalDigits(n: nat): (r: string)
    ensures |r| >= 1 && forall i :: 0 <= i < |r| ==> '0' <= r[i] <= '9'
  {
    if n < 10 then [('0' as int + n) as char]
    else DecimalDigits(n / 10) + [('0' as int + n % 10) as char]
  }

  /** `repr(i)` of a Python `int`: decimal, with a `-` sign when negative. */
  function IntRepr(i: int): string {
    if i < 0 then "-" + DecimalDigits(-i) else DecimalDigits(i)
  }
}
