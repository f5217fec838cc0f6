/** The code generator for the Classification Level field of the IPv4 Basic
    Security Option (section 2.8 of RFC 1108), over any table of codes and
    names: the `FLAG` test, the `record` counter, the `binary` and `rename`
    helpers, the loop that writes one enumeration line per table entry and
    the `ENUM` and `MISS` text blocks. The table itself and the lookup hook
    are in `ClassificationData`. */
module ClassificationLevel {
  import opened PyStr
  import opened PyRepr
  import opened Exceptions

  const EnumName := "ClassificationLevel"
  /** Every enumeration line is left-justified to this width. */
  const LineWidth := 76
  /** Indentation of the continuation lines of `ENUM` and of `MISS`. */
  const EnumIndent := "    "
  const MissIndent := "        "

  /** One `DATA` entry: an 8-bit code and its name. */
  datatype Entry = Entry(code: nat, name: string)

  // ---------------------------------------------------------------------
  // FLAG: which values the generated enumeration accepts
  // ---------------------------------------------------------------------

  /** `isinstance(value, int)`. */
  predicate IsInstanceInt(v: PyValue) {
    v.PyInt? || v.PyBool?
  }

  /** The integer an `int` instance stands for (`True == 1`, `False == 0`). */
  function IntValue(v: PyValue): int
    requires IsInstanceInt(v)
  {
    if v.PyInt? then v.i else if v.b then 1 else 0
  }

  /** `FLAG`: `isinstance(value, int) and 0b00000000 <= value <= 0b11111111`. */
  predicate Acceptable(v: PyValue) {
    IsInstanceInt(v) && 0 <= IntValue(v) <= 0xff
  }

  /** A value is acceptable exactly when it is an integer in [0, 255]; both
      booleans qualify, since `bool` is a subclass of `int`. */
  lemma AcceptableIff(v: PyValue)
    ensures Acceptable(v) <==> (v.PyInt? && 0 <= v.i <= 255) || v.PyBool?
  {
  }

  // ---------------------------------------------------------------------
  // binary
  // ---------------------------------------------------------------------

  /** `binary(code)`: `'0b'` and the binary digits of `code`, zero-filled on
      the left to eight digits. */
  function Binary(code: nat): (r: string)
    ensures |r| >= 10 && r[..2] == "0b" && AllBinDigits(r[2..])
  {
    "0b" + ZFill(Upper(BinDigits(code)), 8)
  }

  lemma BinaryNoNewline(code: nat)
    ensures '\n' !in Binary(code)
    ensures IsBinDigit(Binary(code)[|Binary(code)| - 1])
  {
    var b := Binary(code);
    assert b == b[..2] + b[2..];
    assert b[|b| - 1] == b[2..][|b| - 3];
  }

  lemma EnumNameNoNewline()
    ensures '\n' !in EnumName && '\n' !in "[" && '\n' !in "] = "
  {
  }

  /** The digits of `Binary(code)` are those of `bin(code)` behind leading
      zeros. */
  lemma BinaryDigits(code: nat)
    ensures var d := BinDigits(code);
      |d| <= 8 ==> Binary(code)[2..] == Repeat('0', 8 - |d|) + d
    ensures |BinDigits(code)| > 8 ==> Binary(code)[2..] == BinDigits(code)
  {
    UpperBinDigits(BinDigits(code));
  }

  /** `binary(code)` is exactly ten characters long when `code` fits in
      eight bits, and longer otherwise: `zfill` pads and never truncates. */
  lemma BinaryWidth(code: nat)
    ensures |Binary(code)| == 10 <==> code < 256
  {
    BinaryDigits(code);
    BinDigitsLength(code, 8);
    assert Pow2(8) == 256;
  }

  /** Reads a `0b`-prefixed binary literal. */
  function ParseBinary(s: string): Option<nat> {
    if |s| >= 2 && s[..2] == "0b" && AllBinDigits(s[2..]) then Some(FromBinary(s[2..])) else None
  }

  /** Round trip: reading the digits of `binary(code)` as base 2 gives back
      `code`, for every code. */
  lemma BinaryRoundTrip(code: nat)
    ensures ParseBinary(Binary(code)) == Some(code)
  {
    var d := BinDigits(code);
    var digits := Binary(code)[2..];
    BinaryDigits(code);
    FromBinDigits(code);
    if |d| <= 8 {
      FromBinaryLeadingZeros(8 - |d|, d);
    }
    assert FromBinary(digits) == code;
  }

  /** Hence `binary` is injective. */
  lemma BinaryInjective(a: nat, b: nat)
    requires Binary(a) == Binary(b)
    ensures a == b
  {
    BinaryRoundTrip(a);
    BinaryRoundTrip(b);
  }

  // ---------------------------------------------------------------------
  // record and rename
  // ---------------------------------------------------------------------

  /** `record[name]`: how many entries of the table carry `name`. */
  function Count(table: seq<Entry>, name: string): (n: nat)
    ensures n <= |table|
    ensures n > 0 <==> exists i :: 0 <= i < |table| && table[i].name == name
  {
    if table == [] then 0
    else (if table[0].name == name then 1 else 0) + Count(table[1..], name)
  }

  /** `rename(name, code)`: a name that occurs more than once in the table
      gets the code appended in brackets; any other name is kept. The
      original name is always a prefix of the result. */
  function Rename(table: seq<Entry>, name: string, codeText: string): (r: string)
    ensures |name| <= |r| && r[..|name|] == name
    ensures r == name <==> Count(table, name) <= 1
    ensures Count(table, name) > 1 ==> r[|name|..] == " [" + codeText + "]"
  {
    if Count(table, name) > 1 then name + " [" + codeText + "]" else name
  }

  /** A name that occurs once in a table is counted once. */
  lemma {:induction false} CountDistinct(table: seq<Entry>, i: nat)
    requires i < |table|
    requires forall j, k :: 0 <= j < k < |table| ==> table[j].name != table[k].name
    ensures Count(table, table[i].name) == 1
  {
    if i == 0 {
      assert forall k :: 0 <= k < |table[1..]| ==> table[1..][k].name != table[0].name by {
        forall k | 0 <= k < |table[1..]| ensures table[1..][k].name != table[0].name {
          assert table[1..][k] == table[k + 1];
        }
      }
    } else {
      CountDistinct(table[1..], i - 1);
    }
  }

  // ---------------------------------------------------------------------
  // The enumeration lines
  // ---------------------------------------------------------------------

  /** The text of one enumeration line before padding:
      `ClassificationLevel['<name>'] = 0bXXXXXXXX`. It ends in a binary
      digit and holds no line break. */
  function EntryText(table: seq<Entry>, e: Entry): (r: string)
    ensures r != [] && IsBinDigit(r[|r| - 1])
    ensures '\n' !in r
  {
    var code := Binary(e.code);
    BinaryNoNewline(e.code);
    EnumNameNoNewline();
    EnumName + "[" + Repr(Rename(table, e.name, code)) + "] = " + code
  }

  /** The entry texts of `table`, one per entry, in table order. */
  function EntryTexts(table: seq<Entry>): seq<string> {
    seq(|table|, i requires 0 <= i < |table| => EntryText(table, table[i]))
  }

  /** `[t.ljust(width) for t in texts]`. */
  function Padded(texts: seq<string>, width: int): seq<string> {
    seq(|texts|, i requires 0 <= i < |texts| => LJust(texts[i], width))
  }

  lemma PaddedSnoc(texts: seq<string>, i: nat, width: int)
    requires i < |texts|
    ensures Padded(texts[..i + 1], width) == Padded(texts[..i], width) + [LJust(texts[i], width)]
  {
  }

  /** The `enum` list for `table`: each entry text left-justified to
      `LineWidth`. */
  function EnumLines(table: seq<Entry>): seq<string> {
    Padded(EntryTexts(table), LineWidth)
  }

  /** The loop over `DATA.items()` that fills `enum`. */
  method BuildEnum(table: seq<Entry>) returns (lines: seq<string>)
    ensures lines == EnumLines(table)
  {
    lines := [];
    var i := 0;
    while i < |table|
      invariant 0 <= i <= |table|
      invariant lines == Padded(EntryTexts(table)[..i], LineWidth)
    {
      var code := Binary(table[i].code);
      var renm := Rename(table, table[i].name, code);
      PaddedSnoc(EntryTexts(table), i, LineWidth);
      lines := lines + [LJust(EnumName + "[" + Repr(renm) + "] = " + code, LineWidth)];
      i := i + 1;
    }
    assert EntryTexts(table)[..i] == EntryTexts(table);
  }

  /** Each line is `max(76, |text|)` long, keeps its text as a prefix, and
      is padded with spaces only. */
  lemma EnumLineShape(table: seq<Entry>, i: nat)
    requires i < |table|
    ensures var text := EntryText(table, table[i]);
      var line := EnumLines(table)[i];
      && |line| == (if |text| >= LineWidth then |text| else LineWidth)
      && line[..|text|] == text
      && forall k :: |text| <= k < |line| ==> line[k] == ' '
  {
  }

  /** An entry whose name is counted once and is plain gives the line
      text `ClassificationLevel['<name>'] = <binary(code)>`. */
  lemma PlainEntryText(table: seq<Entry>, e: Entry)
    requires Count(table, e.name) <= 1 && Plain(e.name)
    ensures Rename(table, e.name, Binary(e.code)) == e.name
    ensures EntryText(table, e) == EnumName + "['" + e.name + "'] = " + Binary(e.code)
  {
    ReprPlain(e.name);
    assert EntryText(table, e) == EnumName + "[" + ("'" + e.name + "'") + "] = " + Binary(e.code);
    QuotedText(e.name, Binary(e.code));
  }

  lemma QuotedText(n: string, c: string)
    ensures EnumName + "[" + ("'" + n + "'") + "] = " + c == EnumName + "['" + n + "'] = " + c
  {
  }

  /** With an 8-bit code and a name of at most 40 characters, that line is
      padded to exactly 76 characters. */
  lemma PlainEntryWidth(table: seq<Entry>, e: Entry)
    requires e.code < 256 && |e.name| <= 40
    requires EntryText(table, e) == EnumName + "['" + e.name + "'] = " + Binary(e.code)
    ensures |LJust(EntryText(table, e), LineWidth)| == LineWidth
  {
    BinaryWidth(e.code);
  }

  /** On a table whose codes fit in eight bits and whose names are short,
      plain and counted once, `rename` keeps every name and every line is
      `ClassificationLevel['<name>'] = <binary(code)>`, padded to exactly
      76 characters. */
  lemma PlainTableLines(table: seq<Entry>)
    requires forall i :: 0 <= i < |table| ==> table[i].code < 256
    requires forall i :: 0 <= i < |table| ==> Count(table, table[i].name) == 1
    requires forall i :: 0 <= i < |table| ==> |table[i].name| <= 12 && Plain(table[i].name)
    ensures |EnumLines(table)| == |table|
    ensures forall i :: 0 <= i < |table| ==>
      && Rename(table, table[i].name, Binary(table[i].code)) == table[i].name
      && EntryText(table, table[i]) == EnumName + "['" + table[i].name + "'] = " + Binary(table[i].code)
      && |EnumLines(table)[i]| == LineWidth
  {
    forall i | 0 <= i < |table|
      ensures Rename(table, table[i].name, Binary(table[i].code)) == table[i].name
      ensures EntryText(table, table[i]) == EnumName + "['" + table[i].name + "'] = " + Binary(table[i].code)
      ensures |EnumLines(table)[i]| == LineWidth
    {
      PlainEntryText(table, table[i]);
      PlainEntryWidth(table, table[i]);
    }
  }

  // ---------------------------------------------------------------------
  // ENUM and MISS
  // ---------------------------------------------------------------------

  function Stripped(lines: seq<string>): (r: seq<string>)
    ensures |r| == |lines|
    ensures forall i :: 0 <= i < |lines| ==> r[i] == RStrip(lines[i])
  {
    seq(|lines|, i requires 0 <= i < |lines| => RStrip(lines[i]))
  }

  /** `('\n' + indent).join(map(lambda s: s.rstrip(), lines))`. */
  function Block(lines: seq<string>, indent: string): string {
    Join("\n" + indent, Stripped(lines))
  }

  /** A block splits back into one line per input line: the first as it
      is, the others behind the indent, each with its trailing whitespace
      stripped. */
  lemma BlockLines(lines: seq<string>, indent: string)
    requires |lines| >= 1 && '\n' !in indent
    requires forall i :: 0 <= i < |lines| ==> '\n' !in lines[i]
    ensures |Lines(Block(lines, indent))| == |lines|
    ensures Lines(Block(lines, indent))[0] == RStrip(lines[0])
    ensures forall i :: 1 <= i < |lines| ==> Lines(Block(lines, indent))[i] == indent + RStrip(lines[i])
  {
    var s := Stripped(lines);
    forall i | 0 <= i < |s|
      ensures '\n' !in s[i]
    {
      assert forall k :: 0 <= k < |s[i]| ==> s[i][k] == lines[i][k];
    }
    LinesOfJoin("", indent, s);
    assert "" + Block(lines, indent) == Block(lines, indent);
  }

  /** A text that holds no line break and does not end in whitespace is a
      single line before padding and after stripping. */
  predicate LineText(t: string) {
    t != [] && '\n' !in t && !IsSpace(t[|t| - 1])
  }

  predicate AllLineTexts(texts: seq<string>) {
    forall i :: 0 <= i < |texts| ==> LineText(texts[i])
  }

  /** The text ends in a `0` or a `1`, as a line ending in a `binary`
      code does. */
  predicate EndsInBinDigit(t: string) {
    t != [] && IsBinDigit(t[|t| - 1])
  }

  predicate AllEndInBinDigit(texts: seq<string>) {
    forall i :: 0 <= i < |texts| ==> EndsInBinDigit(texts[i])
  }

  /** Stripping a padded line gives back its text. */
  lemma PaddedStrip(t: string, width: int)
    requires LineText(t)
    ensures '\n' !in LJust(t, width)
    ensures RStrip(LJust(t, width)) == t
  {
    var line := LJust(t, width);
    RStripLJust(t, width);
    assert forall k :: 0 <= k < |line| ==> line[k] == ' ' || line[k] == t[k];
  }

  /** The block of padded texts splits back into the texts, the later ones
      behind the indent. */
  lemma PaddedBlockLines(texts: seq<string>, width: int, indent: string)
    requires |texts| >= 1 && '\n' !in indent
    requires AllLineTexts(texts)
    ensures var ls := Lines(Block(Padded(texts, width), indent));
      && |ls| == |texts|
      && ls[0] == texts[0]
      && forall i :: 1 <= i < |texts| ==> ls[i] == indent + texts[i]
  {
    var lines := Padded(texts, width);
    forall i | 0 <= i < |texts|
      ensures '\n' !in lines[i] && RStrip(lines[i]) == texts[i]
    {
      PaddedStrip(texts[i], width);
    }
    BlockLines(lines, indent);
  }

  /** When every text ends in a binary digit, so does every line of the
      block of the padded texts. */
  lemma PaddedBlockLastChars(texts: seq<string>, width: int, indent: string)
    requires |texts| >= 1 && '\n' !in indent
    requires AllLineTexts(texts) && AllEndInBinDigit(texts)
    ensures var ls := Lines(Block(Padded(texts, width), indent));
      |ls| == |texts| && AllEndInBinDigit(ls)
  {
    var ls := Lines(Block(Padded(texts, width), indent));
    PaddedBlockLines(texts, width, indent);
    forall i | 1 <= i < |ls|
      ensures EndsInBinDigit(ls[i])
    {
      var t := texts[i];
      assert EndsInBinDigit(t);
      assert (indent + t)[|indent + t| - 1] == t[|t| - 1];
    }
    assert EndsInBinDigit(texts[0]);
  }

  /** Every entry text is a single line ending in a binary digit. */
  lemma EntryTextsLines(table: seq<Entry>)
    ensures |EntryTexts(table)| == |table|
    ensures AllLineTexts(EntryTexts(table)) && AllEndInBinDigit(EntryTexts(table))
  {
    var texts := EntryTexts(table);
    forall i | 0 <= i < |texts|
      ensures LineText(texts[i]) && EndsInBinDigit(texts[i])
    {
      var t := EntryText(table, table[i]);
      assert texts[i] == t;
      BinDigitNotSpace(t[|t| - 1]);
    }
  }

  lemma BinDigitNotSpace(c: char)
    requires IsBinDigit(c)
    ensures !IsSpace(c)
  {
  }

  lemma EnumIndentPlain()
    ensures '\n' !in EnumIndent
  {
  }

  /** The lines of `ENUM` for a table are the entry texts, in table order,
      the later ones behind the indent. */
  lemma EnumBlockLines(table: seq<Entry>)
    requires |table| >= 1
    ensures var ls := Lines(Block(EnumLines(table), EnumIndent));
      && |ls| == |table|
      && ls[0] == EntryText(table, table[0])
      && forall i :: 1 <= i < |table| ==> ls[i] == EnumIndent + EntryText(table, table[i])
  {
    EntryTextsLines(table);
    EnumIndentPlain();
    PaddedBlockLines(EntryTexts(table), LineWidth, EnumIndent);
  }

  /** Hence no line of `ENUM` ends in a pad space: each ends in the last
      digit of its code. */
  lemma EnumBlockNoTrailingSpace(table: seq<Entry>)
    requires |table| >= 1
    ensures var ls := Lines(Block(EnumLines(table), EnumIndent));
      |ls| == |table| && AllEndInBinDigit(ls)
  {
    EntryTextsLines(table);
    EnumIndentPlain();
    PaddedBlockLastChars(EntryTexts(table), LineWidth, EnumIndent);
  }

  /** `ENUM` for a table, built by the loop and then joined. */
  method BuildEnumBlock(table: seq<Entry>) returns (text: string)
    requires |table| >= 1
    ensures |Lines(text)| == |table|
    ensures Lines(text)[0] == EntryText(table, table[0])
    ensures forall i :: 1 <= i < |table| ==> Lines(text)[i] == EnumIndent + EntryText(table, table[i])
    ensures AllEndInBinDigit(Lines(text))
  {
    var lines := BuildEnum(table);
    text := Block(lines, EnumIndent);
    EnumBlockLines(table);
    EnumBlockNoTrailingSpace(table);
  }

  /** The three source lines of the `_missing_` hook body. */
  const MissLines: seq<string> := [
    "temp = bin(value)[2:].upper().zfill(8)",
    "extend_enum(cls, 'Unassigned [0b%s]' % (temp[:4]+'_'+temp[4:]), value)",
    "return cls(value)"
  ]

  /** `MISS`: the hook lines joined like `ENUM`, behind `MissIndent`. */
  function MissBlock(): string {
    Block(MissLines, MissIndent)
  }
}
