/** Python's `repr` of a `str` (what `{!r}` and `%r` insert into a message
    or a generated source line), a reader that parses such a literal back,
    and the Python values whose `repr` the generated enumeration prints. */
module PyRepr {
  import opened PyStr

  datatype Option<+T> = None | Some(value: T)

  /** A Python object as far as this model looks at it: `isinstance(v, int)`
      holds for `PyInt` and for `PyBool` (in Python, `bool` is a subclass of
      `int`), and for nothing else. `PyOther` stands for any other object
      and carries its `repr`. */
  datatype PyValue =
    | PyInt(i: int)
    | PyBool(b: bool)
    | PyStr(s: string)
    | PyNone
    | PyOther(text: string)

  predicate IsQuote(q: char) {
    q == '\'' || q == '"'
  }

  /** Python quotes with `'` unless the text holds a `'` and no `"`. */
  function QuoteFor(s: string): (q: char)
    ensures IsQuote(q)
    ensures q == '"' <==> '\'' in s && '"' !in s
  {
    if '\'' in s && '"' !in s then '"' else '\''
  }

  /** Characters that `repr` writes as they are (the Latin-1 range as
      Python's `str.isprintable` sees it; see README for characters beyond). */
  predicate Printable(c: char) {
    var n := c as int;
    !(n < 0x20 || 0x7f <= n <= 0xa0 || n == 0xad)
  }

  function HexDigit(n: nat): char
    requires n < 16
  {
    if n < 10 then ('0' as int + n) as char else ('a' as int + n - 10) as char
  }

  function HexValue(c: char): Option<nat> {
    if '0' <= c <= '9' then Some(c as int - '0' as int)
    else if 'a' <= c <= 'f' then Some(c as int - 'a' as int + 10)
    else None
  }

  /** How `repr` writes one character inside quotes `q`. */
  function EscapeChar(c: char, q: char): (r: string)
    requires IsQuote(q)
    ensures 1 <= |r| <= 4
    ensures '\n' !in r
  {
    if c == q || c == '\\' then ['\\', c]
    else if c == '\t' then "\\t"
    else if c == '\n' then "\\n"
    else if c == '\r' then "\\r"
    else if !Printable(c) then ['\\', 'x', HexDigit(c as int / 16), HexDigit(c as int % 16)]
    else [c]
  }

  function EscapeBody(s: string, q: char): (r: string)
    requires IsQuote(q)
    ensures '\n' !in r
  {
    if s == [] then [] else EscapeChar(s[0], q) + EscapeBody(s[1..], q)
  }

  /** `repr(s)` for a Python `str`. The result never holds a line break. */
  function Repr(s: string): (r: string)
    ensures |r| >= 2 && IsQuote(r[0]) && r[|r| - 1] == r[0]
    ensures '\n' !in r
  {
    var q := QuoteFor(s);
    [q] + EscapeBody(s, q) + [q]
  }

  function Cons(c: char, r: Option<string>): Option<string> {
    if r.Some? then Some([c] + r.value) else None
  }

  /** Reads the inside of a quoted literal back; `None` for an unescaped
      closing quote or an escape `repr` never writes. */
  function UnescapeBody(b: string, q: char): Option<string>
    requires IsQuote(q)
    decreases |b|
  {
    if b == [] then Some([])
    else if b[0] == '\\' then
      if |b| < 2 then None
      else if b[1] == q || b[1] == '\\' then Cons(b[1], UnescapeBody(b[2..], q))
      else if b[1] == 't' then Cons('\t', UnescapeBody(b[2..], q))
      else if b[1] == 'n' then Cons('\n', UnescapeBody(b[2..], q))
      else if b[1] == 'r' then Cons('\r', UnescapeBody(b[2..], q))
      else if b[1] == 'x' && |b| >= 4 && HexValue(b[2]).Some? && HexValue(b[3]).Some? then
        Cons((16 * HexValue(b[2]).value + HexValue(b[3]).value) as char, UnescapeBody(b[4..], q))
      else None
    else if b[0] == q then None
    else Cons(b[0], UnescapeBody(b[1..], q))
  }

  /** Reads a Python string literal as `repr` writes it. */
  function Unrepr(r: string): Option<string> {
    if |r| >= 2 && IsQuote(r[0]) && r[|r| - 1] == r[0] then UnescapeBody(r[1..|r| - 1], r[0])
    else None
  }

  lemma UnescapeChar(c: char, q: char, rest: string)
    requires IsQuote(q)
    ensures UnescapeBody(EscapeChar(c, q) + rest, q) == Cons(c, UnescapeBody(rest, q))
  {
    var e := EscapeChar(c, q);
    if !(c == q || c == '\\' || c == '\t' || c == '\n' || c == '\r') && !Printable(c) {
      var n := c as int;
      assert HexValue(HexDigit(n / 16)) == Some(n / 16);
      assert HexValue(HexDigit(n % 16)) == Some(n % 16);
      assert (e + rest)[4..] == rest;
    } else if |e| == 2 {
      assert (e + rest)[2..] == rest;
    } else {
      assert (e + rest)[1..] == rest;
    }
  }

  lemma {:induction false} UnescapeEscape(s: string, q: char)
    requires IsQuote(q)
    ensures UnescapeBody(EscapeBody(s, q), q) == Some(s)
  {
    if s != [] {
      UnescapeChar(s[0], q, EscapeBody(s[1..], q));
      UnescapeEscape(s[1..], q);
      assert [s[0]] + s[1..] == s;
    }
  }

  /** Round trip: the literal `repr` writes reads back as the same text. */
  lemma UnreprRepr(s: string)
    ensures Unrepr(Repr(s)) == Some(s)
  {
    var q := QuoteFor(s);
    var r := Repr(s);
    assert r[1..|r| - 1] == EscapeBody(s, q);
    UnescapeEscape(s, q);
  }

  /** Hence `repr` is injective. */
  lemma ReprInjective(s: string, t: string)
    requires Repr(s) == Repr(t)
    ensures s == t
  {
    UnreprRepr(s);
    UnreprRepr(t);
  }

  /** A text of printable characters without `'` or backslash is written
      between single quotes, as it is. */
  predicate Plain(s: string) {
    forall i :: 0 <= i < |s| ==> Printable(s[i]) && s[i] != '\'' && s[i] != '\\'
  }

  /** A text of printable ASCII characters other than a quote or a
      backslash is plain. */
  lemma AsciiPlain(s: string)
    requires forall k :: 0 <= k < |s| ==> ' ' <= s[k] <= '~' && s[k] != '\'' && s[k] != '\\'
    ensures Plain(s)
  {
  }

  lemma {:induction false} EscapePlain(s: string)
    requires Plain(s)
    ensures EscapeBody(s, '\'') == s
  {
    if s != [] {
      EscapePlain(s[1..]);
      assert [s[0]] + s[1..] == s;
    }
  }

  lemma ReprPlain(s: string)
    requires Plain(s)
    ensures Repr(s) == "'" + s + "'"
  {
    EscapePlain(s);
  }

  /** `repr(v)` for the values the model passes around. */
  function ValueRepr(v: PyValue): string {
    match v
    case PyInt(i) => IntRepr(i)
    case PyBool(b) => if b then "True" else "False"
    case PyStr(s) => Repr(s)
    case PyNone => "None"
    case PyOther(text) => text
  }
}
