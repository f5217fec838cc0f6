/** The `DATA` table of the Classification Level generator (the eight
    codes of section 2.8 of RFC 1108), what the generator's helpers give on
    it, and the `_missing_` hook of the enumeration generated from it. */
module ClassificationData {
  import opened PyStr
  import opened PyRepr
  import opened Exceptions
  import opened ClassificationLevel

  /** `DATA`, in the order of the dictionary literal. */
  const Data: seq<Entry> := [
    Entry(0x01, "Reserved [4]"),   // 0b0000_0001
    Entry(0x3d, "Top Secret"),     // 0b0011_1101
    Entry(0x5a, "Secret"),         // 0b0101_1010
    Entry(0x96, "Confidential"),   // 0b1001_0110
    Entry(0x66, "Reserved [3]"),   // 0b0110_0110
    Entry(0xcc, "Reserved [2]"),   // 0b1100_1100
    Entry(0xab, "Unclassified"),   // 0b1010_1011
    Entry(0xf1, "Reserved [1]")    // 0b1111_0001
  ]

  /** All eight codes fit in eight bits and are distinct. */
  lemma DataCodes()
    ensures |Data| == 8
    ensures forall i :: 0 <= i < |Data| ==> Data[i].code < 256
    ensures forall i, j :: 0 <= i < j < |Data| ==> Data[i].code != Data[j].code
  {
  }

  /** All eight names are distinct: no two agree on both their first and
      their last-but-one character. */
  lemma DataNamesDistinct()
    ensures forall i, j :: 0 <= i < j < |Data| ==> Data[i].name != Data[j].name
  {
    var firsts := "RTSCRRUR";
    var keys := "4eea32e1";
    forall i | 0 <= i < |Data|
      ensures |Data[i].name| >= 6
      ensures Data[i].name[0] == firsts[i] && Data[i].name[|Data[i].name| - 2] == keys[i]
    {
    }
  }

  /** Hence every table name is counted once. */
  lemma DataCountedOnce()
    ensures forall i :: 0 <= i < |Data| ==> Count(Data, Data[i].name) == 1
  {
    DataNamesDistinct();
    forall i | 0 <= i < |Data|
      ensures Count(Data, Data[i].name) == 1
    {
      CountDistinct(Data, i);
    }
  }

  /** Every table name is short, printable and free of quotes and
      backslashes. */
  lemma DataNamesPlain()
    ensures forall i :: 0 <= i < |Data| ==> |Data[i].name| <= 12 && Plain(Data[i].name)
  {
    LiteralNamesPlain();
  }

  /** The eight names, written out. */
  lemma LiteralNamesPlain()
    ensures Plain("Reserved [4]") && Plain("Top Secret") && Plain("Secret") && Plain("Confidential")
    ensures Plain("Reserved [3]") && Plain("Reserved [2]") && Plain("Unclassified") && Plain("Reserved [1]")
  {
    AsciiPlain("Reserved [4]");
    AsciiPlain("Top Secret");
    AsciiPlain("Secret");
    AsciiPlain("Confidential");
    ReservedNamesPlain();
    AsciiPlain("Unclassified");
  }

  lemma ReservedNamesPlain()
    ensures Plain("Reserved [3]") && Plain("Reserved [2]") && Plain("Reserved [1]")
  {
    AsciiPlain("Reserved [3]");
    AsciiPlain("Reserved [2]");
    AsciiPlain("Reserved [1]");
  }

  /** So on the real table `rename` is the identity and every line reads
      `ClassificationLevel['<name>'] = <binary(code)>`, padded to exactly
      76 characters. */
  lemma DataEnumLines()
    ensures |EnumLines(Data)| == 8
    ensures forall i :: 0 <= i < |Data| ==>
      && Rename(Data, Data[i].name, Binary(Data[i].code)) == Data[i].name
      && EntryText(Data, Data[i]) == EnumName + "['" + Data[i].name + "'] = " + Binary(Data[i].code)
      && |EnumLines(Data)[i]| == LineWidth
  {
    DataCodes();
    DataCountedOnce();
    DataNamesPlain();
    PlainTableLines(Data);
  }

  // ---------------------------------------------------------------------
  // The name of an unassigned value
  // ---------------------------------------------------------------------

  const UnassignedPrefix := "Unassigned [0b"

  /** `'Unassigned [0b%s]' % (temp[:4]+'_'+temp[4:])` where
      `temp = bin(value)[2:].upper().zfill(8)`. */
  function UnassignedName(v: nat): string {
    var temp := ZFill(Upper(BinDigits(v)), 8);
    UnassignedPrefix + temp[..4] + "_" + temp[4..] + "]"
  }

  /** For a value in [0, 255] the name is the eight digits of `binary(v)`
      split into two nibbles by `_`. */
  lemma UnassignedNameShape(v: nat)
    requires v < 256
    ensures var d := Binary(v)[2..];
      |d| == 8 && UnassignedName(v) == UnassignedPrefix + d[..4] + "_" + d[4..] + "]"
    ensures |UnassignedName(v)| == 24
  {
    BinaryWidth(v);
  }

  /** Reads a value back out of an unassigned name. */
  function ParseUnassigned(s: string): Option<nat> {
    if |s| == 24 && s[..14] == UnassignedPrefix && s[18] == '_' && s[23] == ']'
       && AllBinDigits(s[14..18] + s[19..23])
    then Some(FromBinary(s[14..18] + s[19..23]))
    else None
  }

  /** Round trip: the unassigned name of `v` reads back as `v`, so distinct
      values get distinct names. */
  lemma UnassignedRoundTrip(v: nat)
    requires v < 256
    ensures ParseUnassigned(UnassignedName(v)) == Some(v)
  {
    UnassignedNameShape(v);
    BinaryRoundTrip(v);
    ParseNibbles(Binary(v)[2..]);
  }

  /** Reading back a name built from eight binary digits gives their
      value. */
  lemma ParseNibbles(d: string)
    requires |d| == 8 && AllBinDigits(d)
    ensures ParseUnassigned(UnassignedPrefix + d[..4] + "_" + d[4..] + "]") == Some(FromBinary(d))
  {
    var s := UnassignedPrefix + d[..4] + "_" + d[4..] + "]";
    assert s[..14] == UnassignedPrefix;
    assert s[14..18] == d[..4];
    assert s[19..23] == d[4..];
    assert d[..4] + d[4..] == d;
  }

  /** No unassigned name is the name of a table entry: the third
      character of every unassigned name is `a`, and of no table name. */
  lemma UnassignedNotInData(v: nat)
    ensures forall i :: 0 <= i < |Data| ==> Data[i].name != UnassignedName(v)
  {
    assert UnassignedName(v)[2] == 'a';
    DataThirdChars();
  }

  lemma DataThirdChars()
    ensures forall i :: 0 <= i < |Data| ==> |Data[i].name| > 2 && Data[i].name[2] != 'a'
  {
  }

  /** The member the `_missing_` hook adds and returns. */
  datatype Member = Member(name: string, value: int)

  /** The generated `_missing_(cls, value)` hook: a value that fails `FLAG`
      raises `ValueError('%r is not a valid %s' % (value, cls.__name__))`;
      any other value becomes a new member named `Unassigned [0bXXXX_XXXX]`
      whose name reads back as the value and clashes with no table name. */
  function Missing(value: PyValue): (r: Result<Member>)
    ensures r.Success? <==> Acceptable(value)
    ensures r.Success? ==>
      && 0 <= r.value.value < 256
      && r.value.value == IntValue(value)
      && ParseUnassigned(r.value.name) == Some(r.value.value)
      && forall i :: 0 <= i < |Data| ==> Data[i].name != r.value.name
    ensures r.Failure? ==>
      r.error == ValueError(ValueRepr(value) + " is not a valid " + EnumName)
  {
    if !Acceptable(value) then
      Failure(ValueError(ValueRepr(value) + " is not a valid " + EnumName))
    else
      var n := IntValue(value);
      UnassignedRoundTrip(n);
      UnassignedNotInData(n);
      Success(Member(UnassignedName(n), n))
  }
}
