# pcapkit: the classification-level generator, the no-payload sentinel and the application-layer base

This project models three self-contained pieces of pcapkit, a Python
library that dissects captured network traffic, and proves properties of
them in Dafny.

- **The Classification Level code generator** (`pcapkit/vendor/ipv4/classification_level.py`).
  It generates the enumeration for the Classification Level field of the
  IPv4 Basic Security Option (section 2.8 of RFC 1108). The model covers:
  - the eight-entry `DATA` table and the `FLAG` acceptance test;
  - the `record` counter and the `binary` and `rename` helpers;
  - the loop that fills `enum` with one left-justified line per entry;
  - the `ENUM` and `MISS` text blocks;
  - the `_missing_` hook, which names an unassigned value
    `Unassigned [0bXXXX_XXXX]`.
- **`NoPayload`** (`pcapkit/protocols/null.py`). This is the sentinel that ends
  every protocol chain. It is a Dafny class with the four fields its
  initialiser sets. Its name is `Null` and its payload is itself. Every other
  capability query fails with `UnsupportedCall`.
- **`Application`** (`pcapkit/protocols/application/application.py`). This is
  the base of the application-layer protocols. Its layer is `Application`.
  Its registry index fails with `IntError`. Its next-layer calls fail with
  `UnsupportedCall`.

A Python `raise` becomes a `Failure` value of `Exceptions.Result`. The
exact message text is modelled. `Exceptions.ParseNoAttribute` and
`Exceptions.ParseNotInteger` read the class and attribute names back out of
a message. Each refusal is proved to name the class and the attribute it
concerns.

The Python builtins the generator uses are modelled in `PyStr` and `PyRepr`:

- `bin`, `str.upper`, `str.zfill`, `str.ljust`, `str.rstrip`, `str.join`,
  and splitting a text into lines;
- `repr` of a `str`, with a reader and a round-trip proof.

Files:

- `pystr.dfy`: module `PyStr`;
- `pyrepr.dfy`: module `PyRepr`;
- `exceptions.dfy`: module `Exceptions`;
- `classification_level.dfy`: module `ClassificationLevel`, the generator
  over any table;
- `classification_data.dfy`: module `ClassificationData`, the `DATA` table,
  the generator's output on it, and the `_missing_` hook;
- `null.dfy`: module `Null`;
- `application.dfy`: module `ApplicationLayer`.

`Application.__index__` raises `IntError`, while `NoPayload.__index__`
raises `UnsupportedCall`; the model keeps both kinds.

## Model

| member | source | states |
|---|---|---|
| PyStr.BinDigits | pcapkit/vendor/ipv4/classification_level.py:33 | `bin(n)[2:]` is a non-empty string of binary digits. It starts with `1` unless `n` is 0, when it is `"0"`. |
| PyStr.FromBinDigits | pcapkit/vendor/ipv4/classification_level.py:33 | Reading the digits of `bin(n)` as base 2 gives `n` back. |
| PyStr.BinDigitsLength | pcapkit/vendor/ipv4/classification_level.py:33 | `bin(n)[2:]` has at most `k` digits exactly when `n < 2^k`. |
| PyStr.FromBinaryLeadingZeros | pcapkit/vendor/ipv4/classification_level.py:33 | Zero-filling on the left keeps the digits binary and keeps their value. |
| PyStr.UpperBinDigits | pcapkit/vendor/ipv4/classification_level.py:33 | `.upper()` leaves a string of binary digits unchanged. |
| PyStr.ZFill | pcapkit/vendor/ipv4/classification_level.py:33 | `zfill` gives a result `max(width, len)` long. It returns a string already wide enough unchanged (no truncation). Otherwise, for an unsigned string, it pads with `0` on the left. |
| PyStr.LJust | pcapkit/vendor/ipv4/classification_level.py:51 | `ljust` gives a result `max(width, len)` long. The text stays as a prefix and only spaces follow it. |
| PyStr.RStrip | pcapkit/vendor/ipv4/classification_level.py:60 | `rstrip()` returns the prefix after which only whitespace follows. That prefix is empty or ends in a non-whitespace character. |
| PyStr.RStripUnique | pcapkit/vendor/ipv4/classification_level.py:60 | Those three properties determine `rstrip()`'s result. |
| PyStr.RStripLJust | pcapkit/vendor/ipv4/classification_level.py:60 | Stripping a left-justified text gives the text back, unless the text itself ends in whitespace. |
| PyStr.LinesOfJoin | pcapkit/vendor/ipv4/classification_level.py:60 | Joining lines that contain no newline with `"\n" + indent` splits back into the same lines. Every line after the first starts with the indent. |
| PyRepr.Repr | pcapkit/vendor/ipv4/classification_level.py:51 | `repr` of a `str` is quoted with the same quote at both ends and contains no line break. |
| PyRepr.UnreprRepr | pcapkit/vendor/ipv4/classification_level.py:51 | Reading back the literal that `repr` writes gives the same text. |
| PyRepr.ReprInjective | pcapkit/vendor/ipv4/classification_level.py:51 | Different strings have different `repr`s. |
| PyRepr.ReprPlain | pcapkit/vendor/ipv4/classification_level.py:51 | A printable text with no `'` and no backslash gets single quotes and no escapes. |
| Exceptions.NoAttributeMessage | pcapkit/protocols/null.py:46 | The message `'<cls>' object has no attribute '<attr>'`: the class name between single quotes, then the attribute name between single quotes. `ParseNoAttributeMessage` reads both back. |
| Exceptions.ParseNoAttributeMessage | pcapkit/protocols/null.py:46 | The message `'<cls>' object has no attribute '<attr>'` names its class and its attribute, for any class name and any attribute without a quote. |
| Exceptions.NotIntegerMessage | pcapkit/protocols/application/application.py:53 | The message `repr(cls.__name__)` followed by ` object cannot be interpreted as an integer`. For a class name with no quote, backslash or unprintable character, the name is between single quotes. |
| Exceptions.ParseNotIntegerMessage | pcapkit/protocols/application/application.py:53 | The message `<cls!r> object cannot be interpreted as an integer` names its class, for any class name. |
| ClassificationLevel.Acceptable | pcapkit/vendor/ipv4/classification_level.py:13 | `FLAG`: the value is an `int` (booleans included) between `0b00000000` and `0b11111111`. `AcceptableIff` states it over every kind of value. |
| ClassificationLevel.AcceptableIff | pcapkit/vendor/ipv4/classification_level.py:13 | `FLAG` accepts a value exactly when it is an `int` in [0, 255]. Both booleans are accepted, because `bool` is a subclass of `int`. |
| ClassificationLevel.Binary | pcapkit/vendor/ipv4/classification_level.py:32-33 | `binary(code)` is `0b` followed by at least eight binary digits. |
| ClassificationLevel.BinaryNoNewline | pcapkit/vendor/ipv4/classification_level.py:32-33 | `binary(code)` contains no line break and ends in a binary digit. |
| ClassificationLevel.BinaryDigits | pcapkit/vendor/ipv4/classification_level.py:32-33 | The digits of `binary(code)` are those of `bin(code)`, zero-filled on the left to eight. Codes that need more than eight digits are not truncated. |
| ClassificationLevel.BinaryWidth | pcapkit/vendor/ipv4/classification_level.py:32-33 | `binary(code)` is exactly 10 characters long if and only if `code < 256`. |
| ClassificationLevel.BinaryRoundTrip | pcapkit/vendor/ipv4/classification_level.py:32-33 | Reading the digits after `0b` as base 2 gives `code` back, for every code. |
| ClassificationLevel.BinaryInjective | pcapkit/vendor/ipv4/classification_level.py:32-33 | Different codes give different `binary` texts. |
| ClassificationLevel.Count | pcapkit/vendor/ipv4/classification_level.py:29 | `record[name]` is at most the table size. It is positive exactly when some entry has that name. |
| ClassificationLevel.Rename | pcapkit/vendor/ipv4/classification_level.py:36-39 | The name is always a prefix of the result. The result equals the name if and only if the name occurs at most once. Otherwise the name is followed by `" [" + code + "]"`. |
| ClassificationLevel.EntryText | pcapkit/vendor/ipv4/classification_level.py:51 | The unpadded line text ends in a binary digit and contains no line break. |
| ClassificationLevel.EntryTexts | pcapkit/vendor/ipv4/classification_level.py:48-51 | The unpadded text of each `enum` line, one per table entry, in table order. |
| ClassificationLevel.EnumLines | pcapkit/vendor/ipv4/classification_level.py:48-51 | The `enum` list: each entry text left-justified to 76 characters, in table order. `BuildEnum` computes it and `EnumLineShape` states each line's shape. |
| ClassificationLevel.BuildEnum | pcapkit/vendor/ipv4/classification_level.py:48-51 | The loop produces exactly one line per table entry, in table order. Each line is the entry's text left-justified to 76. |
| ClassificationLevel.EnumLineShape | pcapkit/vendor/ipv4/classification_level.py:51 | Each `enum` line is `max(76, len(text))` long. Its unpadded text is a prefix and only spaces follow it. |
| ClassificationLevel.Block | pcapkit/vendor/ipv4/classification_level.py:60-61 | `ENUM` and `MISS`: the lines, each right-stripped, joined by a line break and the indent. `BlockLines` splits it back. |
| ClassificationLevel.BlockLines | pcapkit/vendor/ipv4/classification_level.py:60-61 | An `ENUM`- or `MISS`-style join splits back into one line per input line. Each line is stripped, and every line after the first starts with the indent. |
| ClassificationLevel.PaddedStrip | pcapkit/vendor/ipv4/classification_level.py:51-60 | Stripping a left-justified single-line text that does not end in whitespace gives the text back, and the padded line has no line break. |
| ClassificationLevel.PaddedBlockLines | pcapkit/vendor/ipv4/classification_level.py:51-60 | Left-justifying texts, stripping them and joining them behind an indent splits back into the texts, in order, every one after the first behind the indent. |
| ClassificationLevel.PaddedBlockLastChars | pcapkit/vendor/ipv4/classification_level.py:51-60 | If every text ends in a binary digit, so does every line of the joined block. |
| ClassificationLevel.EntryTextsLines | pcapkit/vendor/ipv4/classification_level.py:48-51 | There is one entry text per table entry; each is a non-empty single line ending in a binary digit, never in whitespace. |
| ClassificationLevel.EnumBlockLines | pcapkit/vendor/ipv4/classification_level.py:60 | The lines of `ENUM` are the entries' texts, in table order. Every line after the first starts with four spaces. |
| ClassificationLevel.EnumBlockNoTrailingSpace | pcapkit/vendor/ipv4/classification_level.py:60 | `ENUM` has one line per entry, and every line ends in a binary digit, so none ends in a pad space. |
| ClassificationLevel.BuildEnumBlock | pcapkit/vendor/ipv4/classification_level.py:48-60 | Building `enum` and then joining it into `ENUM` gives one line per entry, in order, each ending in a binary digit. |
| ClassificationData.Data | pcapkit/vendor/ipv4/classification_level.py:14-23 | `DATA`: the eight (code, name) pairs, in the order of the dictionary literal. |
| ClassificationData.DataCodes | pcapkit/vendor/ipv4/classification_level.py:14-23 | `DATA` has eight codes, all in [0, 255] and all distinct. |
| ClassificationData.DataNamesDistinct | pcapkit/vendor/ipv4/classification_level.py:14-23 | The eight names in `DATA` are distinct. |
| ClassificationLevel.CountDistinct | pcapkit/vendor/ipv4/classification_level.py:29 | In a table whose names are distinct, `record` counts each name once. |
| ClassificationData.DataCountedOnce | pcapkit/vendor/ipv4/classification_level.py:29 | In `DATA`, every name is counted exactly once. |
| ClassificationData.DataNamesPlain | pcapkit/vendor/ipv4/classification_level.py:14-23 | Every name in `DATA` is at most 12 characters long, printable, and contains no quote or backslash. |
| ClassificationLevel.PlainEntryText | pcapkit/vendor/ipv4/classification_level.py:48-51 | For a name that occurs once and is plain, `rename` is the identity. The line text is then `ClassificationLevel['<name>'] = <binary(code)>`. |
| ClassificationLevel.PlainEntryWidth | pcapkit/vendor/ipv4/classification_level.py:51 | With an 8-bit code and a name of at most 40 characters, the padded line is exactly 76 characters long. |
| ClassificationLevel.PlainTableLines | pcapkit/vendor/ipv4/classification_level.py:29-51 | For any table whose codes are below 256 and whose names are counted once, plain and at most 12 characters long: `rename` keeps every name, each line reads `ClassificationLevel['<name>'] = <binary(code)>`, and each is exactly 76 characters long. |
| ClassificationData.DataEnumLines | pcapkit/vendor/ipv4/classification_level.py:48-51 | For `DATA`: there are eight lines, `rename` is the identity on every entry, each line reads `ClassificationLevel['<name>'] = <binary(code)>`, and each is exactly 76 characters long. |
| ClassificationData.UnassignedName | pcapkit/vendor/ipv4/classification_level.py:44-45 | The name the hook gives a value: `Unassigned [0b` and the binary digits of the value, upper-cased, zero-filled to eight and split after the fourth by `_`, then `]`. `UnassignedNameShape` and `UnassignedRoundTrip` state its shape and that it reads back. |
| ClassificationData.UnassignedNameShape | pcapkit/vendor/ipv4/classification_level.py:43-47 | For a value in [0, 255], the name is `Unassigned [0b` followed by the two 4-digit halves of `binary(v)` joined by `_`, then `]`. It is 24 characters long. |
| ClassificationData.UnassignedRoundTrip | pcapkit/vendor/ipv4/classification_level.py:43-47 | An unassigned name reads back as its value, so different values get different names. |
| ClassificationData.ParseNibbles | pcapkit/vendor/ipv4/classification_level.py:44-45 | Any eight binary digits, split into two nibbles by `_` inside `Unassigned [0b...]`, read back as their base-2 value. |
| ClassificationData.UnassignedNotInData | pcapkit/vendor/ipv4/classification_level.py:43-47 | No unassigned name equals the name of a `DATA` entry. |
| ClassificationData.Missing | pcapkit/vendor/ipv4/classification_level.py:88-93 | The hook succeeds if and only if `FLAG` accepts the value. On success it adds a member whose value is the integer, whose name reads back as that integer, and whose name clashes with no table name. Otherwise it fails with `ValueError('<repr> is not a valid ClassificationLevel')`. |
| Null.NoPayload.constructor | pcapkit/protocols/null.py:67-84 | The constructor ignores every argument. The new instance is its own payload and has an empty info record, an empty stream and an empty protocol chain. |
| Null.NoPayload.Name | pcapkit/protocols/null.py:29-35 | `name` is `Null` for every instance. |
| Null.NoPayload.Length | pcapkit/protocols/null.py:38-46 | `length` fails with `UnsupportedCall`, and the message names `NoPayload` and `length`. |
| Null.NoPayload.Protocol | pcapkit/protocols/null.py:49-57 | `protocol` fails with `UnsupportedCall`, and the message names `NoPayload` and `protocol`. |
| Null.NoPayload.Index | pcapkit/protocols/null.py:86-94 | `__index__` fails with `UnsupportedCall`, not `IntError`, with the message `'NoPayload' object cannot be interpreted as an integer`, which reads back as `NoPayload`. |
| Null.NoPayload.DecodeNextLayer | pcapkit/protocols/null.py:100-113 | For any arguments, `_decode_next_layer` fails with `UnsupportedCall` and names itself. It reads and writes no state. |
| Null.NoPayload.ImportNextLayer | pcapkit/protocols/null.py:115-128 | For any arguments, `_import_next_layer` fails with `UnsupportedCall` and names itself. It reads and writes no state. |
| Null.NoPayload.Follow | pcapkit/protocols/null.py:77-78 | Following the payload any number of times stays at the same instance. |
| Null.NextLayerFailuresDistinct | pcapkit/protocols/null.py:100-128 | The refusals of `_decode_next_layer` and `_import_next_layer` differ, and so do those of `length` and `protocol`. |
| ApplicationLayer.Application.Layer | pcapkit/protocols/application/application.py:26-39 | `layer` is `Application`, the class-level `__layer__`. |
| ApplicationLayer.Application.Index | pcapkit/protocols/application/application.py:45-53 | `__index__` fails with `IntError`, and the message reads back as the concrete class name. For a class name with no quote, backslash or unprintable character, the message is `'<cls>' object cannot be interpreted as an integer`. |
| ApplicationLayer.Application.DecodeNextLayer | pcapkit/protocols/application/application.py:59-66 | For any `dict_`, `proto` and `length`, `_decode_next_layer` fails with `UnsupportedCall` naming the class and `_decode_next_layer`. |
| ApplicationLayer.Application.ImportNextLayer | pcapkit/protocols/application/application.py:68-75 | For any `proto` and `length`, `_import_next_layer` fails with `UnsupportedCall` naming the class and `_import_next_layer`. |
| ApplicationLayer.IndexErrorKinds | pcapkit/protocols/application/application.py:45-53 | The application index failure is an `IntError` and the sentinel's is an `UnsupportedCall`. The index failure is never a next-layer failure. |
| ApplicationLayer.NextLayerFailuresDistinct | pcapkit/protocols/application/application.py:59-75 | For every class name, the decode refusal and the import refusal differ. |

## Left out

- The `LINE` template and the file it writes (`classification_level.py:57-58`, `64-100`): these are text for the third-party `aenum` library, plus directory and file I/O. `ENUM` and `MISS` are modelled as they enter the template.
- Looking a value up in the generated enumeration, `get`, and what `extend_enum` does to the class: this is `aenum` behaviour. `ClassificationData.Missing` models only the hook body and returns the member it would add.
- `MISS` is modelled as `ClassificationLevel.MissBlock`. Its exact three lines are not proved. The general `BlockLines` lemma covers how it splits.
- ClassificationLevel.BuildEnumBlock: requires a non-empty table. `DATA` has eight entries; on an empty table the join gives an empty text, whose one (empty) line has no entry to match.
- `ClassificationLevel.Binary`: codes are `nat`. All `DATA` keys are non-negative literals, and `binary` is applied only to them. `bin` of a negative number is not modelled.
- `PyRepr.Repr`: characters above U+00FF are treated as printable. Python escapes the non-printable ones (per the Unicode database) as `\u`/`\U`; those escapes are not modelled. All names in `DATA` and all class names involved are ASCII.
- `PyStr.Upper`: only ASCII letters are upper-cased. Python applies full Unicode case mapping. The model applies it only to binary digits.
- `ClassificationData.Missing`: for objects other than `int`, `bool`, `str` and `None`, the `ValueError` message uses the `repr` text that the `PyOther` value carries.
- `Null.NoPayload`: messages use the class name `NoPayload`. A subclass's `__class__.__name__` is not modelled. `__new__` only allocates. The `Protocol` base, `Info` and `ProtoChain` classes are not part of this model. They appear as an info map, a byte sequence and a sequence of protocol names, and all three start empty.
- `Null.NoPayload.Follow`: this follows the `_next` field. The `payload` property that reads `_next` lives in the `Protocol` base class, which is not part of this model.
- `ApplicationLayer.Application.Layer`: a subclass that overrides `__layer__` is not modelled. `name`, `length` and `protocol` of application protocols come from the `Protocol` base class and from subclasses, which are not part of this model.
- `pcapkit/__init__.py`, `Analyser/project/exceptions.py` and `pcapkit/vendor/ipv4/tos_del.py` are not modelled. They are import wiring, traceback display state, and a subclass of a vendor base that is not part of this model.
- The frame decode chain, the protocol registry and IP/TCP reassembly are not modelled: their source files are not part of this model.
