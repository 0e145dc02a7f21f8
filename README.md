# ADS/AMS protocol constants and PLC base data types

A Dafny model of the protocol-definition module of a Node.js client for
Beckhoff's ADS/AMS protocol (`src/ads-client-ads.js`). It covers:

- the AMS/TCP header constants;
- the enumeration tables (AMS header flags, ADS commands, ADS states,
  reserved index groups, ADS data types, router states) and their reverse
  lookup `toString`. That lookup returns the first key, in declaration
  order, whose value matches, or `UNKNOWN` when none does;
- the transmission-mode table, which has no reverse lookup;
- the ADS error table (`AdsTables.AdsError`, code to message);
- the three bit-flag tables and their decompositions:
  - `ADS_STATE_FLAGS.toString` gives the names of the set flags, then `Tcp`
    unless `Udp` is present, then `Request` unless `Response` is. The
    parts are joined with `", "`.
  - `ADS_SYMBOL_FLAGS.toStringArray` and `ADS_DATA_TYPE_FLAGS.toStringArray`
    give the names whose bits are all set. The flag `None` (value 0) is
    listed only for an input of exactly 0.
- `BASE_DATA_TYPES`:
  - `find` trims the name, upper-cases it and returns the first descriptor
    that lists the result among its aliases.
  - `isKnownType` is `find` succeeding, or the upper-cased name containing
    `STRING(`.
  - `toBuffer` and `fromBuffer` write and read one value at offset 0 with
    the descriptor's codec. Integers are little-endian, unsigned or two's
    complement. BOOL is one byte. DATE is a 32-bit count of seconds, or a
    JavaScript date when `convertDatesToJavascript` is set.

Modules:

- `Wrappers`: Option and Result.
- `AdsTables`: constants, the enumeration tables, the error table and the
  reverse lookup.
- `AdsFlags`: the flag tables. The two methods mirror the source's loops
  and are proved against the specification functions `SetFlagNames`,
  `ReportedFlagNames` and `StateFlagNames`.
- `LittleEndian`: the byte layouts.
- `JsStrings`: JavaScript's `trim`, `toUpperCase` and `includes`.
- `BaseDataTypes`: the descriptors, lookup and the codec. `toBuffer` is a
  method over a byte `array`, because it writes into a caller's buffer in
  place. `fromBuffer` is a function.

Values are modelled as follows:

- Flag inputs are 32-bit patterns (`bv32`), which is what JavaScript's `&`
  operates on. Every table value is below 2^31, so the `bv32` test
  `(x & f) == f` agrees with JavaScript's.
- Descriptor values are `VBool`, `VNumber` (an integral Number), `VBigInt`
  and `VDate` (milliseconds since the epoch).
- Node's integer writers convert with `+value`, so `true` becomes 1 and a
  date becomes its milliseconds (`AsNumber`). The BigInt writers require a
  BigInt.

Two behaviours of the code are easy to misread:

- `find` compares for exact equality with an alias. `type.name` is an
  array, so `includes` tests membership, not substring containment. "INT"
  therefore finds INT only, never DINT or UINT (`FindExamples`).
- UINT/WORD are written unsigned and read signed, and so are the 64-bit
  LWORD/ULINT/LTIME. The model keeps this, and
  `NumberUnsignedThenSigned` and `BigIntUnsignedThenSigned` state exactly
  what comes back.

## Model

| member | source | states |
|---|---|---|
| AdsTables.NameOf | src/ads-client-ads.js:73-75 | the name of the first entry in declaration order carrying the value; UNKNOWN when no entry carries it |
| AdsTables.AscendingLookupInverts | src/ads-client-ads.js:73-75 | in a table whose values strictly increase, looking up any entry's value gives back that entry's name |
| AdsTables.AmsHeaderFlagsLookupInverts | src/ads-client-ads.js:66-76 | every AMS header flag name is given back by toString from its value |
| AdsTables.AdsCommandZero | src/ads-client-ads.js:84-111 | value 0 is reported as Invalid: of the two keys sharing 0, the first declared wins |
| AdsTables.AdsCommandLookupInverts | src/ads-client-ads.js:84-111 | every command from ReadDeviceInfo to ReadWrite is given back from its value |
| AdsTables.AdsCommandOutOfRange | src/ads-client-ads.js:84-111 | every value outside 0..9 is UNKNOWN as a command |
| AdsTables.AdsStatesLookupInverts | src/ads-client-ads.js:318-343 | every ADS state name is given back by toString from its value |
| AdsTables.AdsReservedIndexGroupsLookupInverts | src/ads-client-ads.js:352-458 | every reserved index group name is given back by toString from its value |
| AdsTables.AdsDataTypesLookupInverts | src/ads-client-ads.js:610-649 | every ADS data type name is given back by toString from its value |
| AdsTables.AmsRouterStatesLookupInverts | src/ads-client-ads.js:655-663 | every router state name is given back by toString from its value |
| AdsTables.AdsErrorEntries | src/ads-client-ads.js:174-294 | code 0 is "No error", 1808 is "Symbol not found", and an undefined code has no message |
| AdsFlags.StateFlagsToString | src/ads-client-ads.js:145-164 | the state-flag text is the set flags, Tcp and Request as applicable, joined with ", " |
| AdsFlags.StateFlagNamesParts | src/ads-client-ads.js:145-164 | the parts are the set state flags in table order, then Tcp iff the Udp bit is clear, then Request iff the Response bit is clear |
| AdsFlags.StateFlagNamesListed | src/ads-client-ads.js:121-164 | a state flag is named iff all its bits are set in the value |
| AdsFlags.StateFlagsUniqueNames | src/ads-client-ads.js:121-143 | no two state flags share a name |
| AdsFlags.StateFlagsExample | src/ads-client-ads.js:145-164 | value 5 reads "Response, AdsCommand, Tcp" |
| AdsFlags.SetFlagNamesAppend | src/ads-client-ads.js:147-155 | collecting the set flags of a split table gives the two halves' names in order: output follows table order |
| AdsFlags.SetFlagNamesMembers | src/ads-client-ads.js:147-155 | a name is collected iff some entry of that name has all its bits set |
| AdsFlags.SetFlagNamesListed | src/ads-client-ads.js:147-155 | with distinct names, an entry's name is collected iff all its bits are set |
| AdsFlags.FlagsToStringArray | src/ads-client-ads.js:506-517 | the names of the flags reported for the input, in table order (both toStringArray functions) |
| AdsFlags.ReportedFlagNamesAppend | src/ads-client-ads.js:506-517 | the reported names of a split table are the two halves' names in order |
| AdsFlags.ReportedFlagNamesMembers | src/ads-client-ads.js:506-517 | a name is reported iff some entry of that name has all bits set and is nonzero or the input is 0 |
| AdsFlags.ReportedFlagNamesListed | src/ads-client-ads.js:506-517 | with distinct names, an entry is listed iff it is reported |
| AdsFlags.NothingReported | src/ads-client-ads.js:506-517 | when no entry is reported the array is empty |
| AdsFlags.SymbolFlagsUniqueNames | src/ads-client-ads.js:470-504 | no two symbol flags share a name |
| AdsFlags.SymbolFlagNames | src/ads-client-ads.js:470-517 | None is listed iff the input is 0; every other symbol flag iff all its bits are set |
| AdsFlags.SymbolContextMask | src/ads-client-ads.js:490 | ContextMask is listed iff all four bits 0x100, 0x200, 0x400, 0x800 are set |
| AdsFlags.SymbolFlagNamesOfZero | src/ads-client-ads.js:506-517 | symbol flags 0 give exactly [None] |
| AdsFlags.DataTypeFlagsUniqueNames | src/ads-client-ads.js:528-587 | no two data type flags share a name |
| AdsFlags.DataTypeFlagNames | src/ads-client-ads.js:528-600 | None is listed iff the input is 0; every other data type flag iff all its bits are set |
| AdsFlags.DataTypeFlagNamesOfZero | src/ads-client-ads.js:589-600 | data type flags 0 give exactly [None] |
| LittleEndian.DecodeEncodeLE | src/ads-client-ads.js:751-786 | reading little-endian bytes gives back the unsigned value written |
| LittleEndian.EncodeDecodeLE | src/ads-client-ads.js:751-786 | every byte string is the little-endian encoding of the value read from it |
| LittleEndian.DecodeInt | src/ads-client-ads.js:751-786 | a value read is within the range of its width and signedness |
| LittleEndian.IntRoundTrip | src/ads-client-ads.js:751-786 | reading with the signedness used for writing gives the value back, two's complement for negatives |
| LittleEndian.IntBytesRoundTrip | src/ads-client-ads.js:751-786 | writing the value read gives the same bytes back |
| LittleEndian.UnsignedReadSigned | src/ads-client-ads.js:763-768 | writing unsigned and reading signed gives v below half the range and v - 256^n above |
| JsStrings.TrimStart | src/ads-client-ads.js:690 | the result is a suffix; everything removed is white space; the result does not start with white space |
| JsStrings.TrimEnd | src/ads-client-ads.js:690 | the result is a prefix; everything removed is white space; the result does not end with white space |
| JsStrings.Trim | src/ads-client-ads.js:690 | the trimmed name neither starts nor ends with white space |
| JsStrings.TrimPadded | src/ads-client-ads.js:690 | trim removes exactly the white space around a name with non-blank ends |
| JsStrings.TrimAllWhite | src/ads-client-ads.js:690 | a name of white space only trims to the empty string |
| JsStrings.ToUpperAppend | src/ads-client-ads.js:690 | upper-casing a concatenation upper-cases each part |
| JsStrings.ToUpperIdempotent | src/ads-client-ads.js:690 | upper-casing twice is upper-casing once |
| JsStrings.UpperOfEnds | src/ads-client-ads.js:690 | the upper-case form of a character that is not white space neither starts nor ends with white space |
| JsStrings.ToUpperFirst | src/ads-client-ads.js:690 | an upper-cased string starts with the whole upper-case form of its first character (both letters of SS for sharp s) |
| JsStrings.ToUpperLast | src/ads-client-ads.js:690 | an upper-cased string ends with the whole upper-case form of its last character |
| JsStrings.ToUpperEnds | src/ads-client-ads.js:690 | upper-casing a string with non-blank ends leaves its ends non-blank |
| JsStrings.TrimUnchanged | src/ads-client-ads.js:690 | a string that neither starts nor ends with white space trims to itself |
| JsStrings.TrimOfUpper | src/ads-client-ads.js:690 | trimming the upper-case form of a trimmed string changes nothing |
| JsStrings.IncludesMiddle | src/ads-client-ads.js:679 | a string includes every string it has in the middle |
| BaseDataTypes.TypesWellFormed | src/ads-client-ads.js:744-849 | every descriptor has a positive size; BOOL's is one byte |
| BaseDataTypes.FindIn | src/ads-client-ads.js:690 | none iff no descriptor lists the key; otherwise the first descriptor listing it |
| BaseDataTypes.Find | src/ads-client-ads.js:689-691 | none iff no descriptor lists the trimmed upper-cased name; a result lists it among its aliases |
| BaseDataTypes.TypesAliasesDisjoint | src/ads-client-ads.js:744-849 | no alias belongs to two descriptors |
| BaseDataTypes.TypesAliasesNormal | src/ads-client-ads.js:744-849 | every alias is a nonempty word of upper-case letters and underscores |
| BaseDataTypes.FindInUnique | src/ads-client-ads.js:690 | in a table with disjoint aliases the result does not depend on order: the one descriptor listing the key |
| BaseDataTypes.FindAlias | src/ads-client-ads.js:689-691 | a name that normalises to an alias of a descriptor finds that descriptor and no other |
| BaseDataTypes.AliasKey | src/ads-client-ads.js:690 | every alias is its own normal form |
| BaseDataTypes.AliasesFound | src/ads-client-ads.js:678-691 | every alias finds its own descriptor and is a known type |
| BaseDataTypes.FindExamples | src/ads-client-ads.js:689-691 | INT, DINT and UINT each find their own descriptor: no overlap between them |
| BaseDataTypes.NotNormalNotFound | src/ads-client-ads.js:689-691 | a name whose normal form contains anything but upper-case letters and underscores is not found |
| BaseDataTypes.KeyIdempotent | src/ads-client-ads.js:690 | the trimmed, upper-cased name is already in that form: normalising it again changes nothing |
| BaseDataTypes.FindOfKey | src/ads-client-ads.js:689-691 | find of a name's normal form gives what find of the name gives |
| BaseDataTypes.BlankNotFound | src/ads-client-ads.js:689-691 | an empty or white-space-only name finds no descriptor |
| BaseDataTypes.PaddedDintKey | src/ads-client-ads.js:690 | " dint " normalises to DINT, an alias of DINT |
| BaseDataTypes.StringFormsAreKnown | src/ads-client-ads.js:678-680 | any name containing STRING( in any letter case is a known type |
| BaseDataTypes.StringEightyNotFound | src/ads-client-ads.js:689-691 | "string(80)" is found by no descriptor |
| BaseDataTypes.StringEightyIsKnown | src/ads-client-ads.js:678-680 | "string(80)" is still a known type |
| BaseDataTypes.ByteAliases | src/ads-client-ads.js:751-762 | BYTE and USINT find the unsigned byte; SINT the signed byte |
| BaseDataTypes.SignedAliases | src/ads-client-ads.js:769-848 | INT, DINT and LINT find their signed descriptors |
| BaseDataTypes.DwordAliases | src/ads-client-ads.js:781-786 | UDINT, DWORD, TIME and TIME_OF_DAY share the unsigned 32-bit descriptor |
| BaseDataTypes.MismatchedAliases | src/ads-client-ads.js:763-831 | UINT and WORD share one descriptor; LWORD, ULINT and LTIME share another |
| BaseDataTypes.DateAndBoolAliases | src/ads-client-ads.js:745-802 | DATE and DATE_AND_TIME share the date descriptor; BOOL finds BOOL |
| BaseDataTypes.WriteBytes | src/ads-client-ads.js:744-849 | a writer produces exactly the type's size in bytes |
| BaseDataTypes.FromBuffer | src/ads-client-ads.js:729-736 | fails with the name iff the type is not found; otherwise reads with the found descriptor |
| BaseDataTypes.ReadValuePrefix | src/ads-client-ads.js:744-849 | a reader looks only at the type's first size bytes |
| BaseDataTypes.FromBufferPrefix | src/ads-client-ads.js:729-736 | bytes after the value do not change what fromBuffer returns |
| BaseDataTypes.ReadValueOfWritten | src/ads-client-ads.js:744-849 | a reader given a buffer that starts with the writer's bytes for v reads what it reads from those bytes alone |
| BaseDataTypes.FromBufferOfWritten | src/ads-client-ads.js:703-736 | fromBuffer of a buffer whose first size bytes are what toBuffer wrote for v, under the same name, succeeds with the value the type's reader makes of those bytes; with the round-trip lemmas this is v for the consistently signed types |
| BaseDataTypes.NumberRoundTrip | src/ads-client-ads.js:751-786 | BYTE, SINT, INT, DINT and UDINT read back every in-range number written |
| BaseDataTypes.NumberBytesRoundTrip | src/ads-client-ads.js:751-786 | for those types, writing the number read gives back the bytes |
| BaseDataTypes.BigIntRoundTrip | src/ads-client-ads.js:832-848 | LINT reads back every 64-bit signed BigInt written |
| BaseDataTypes.NumberUnsignedThenSigned | src/ads-client-ads.js:763-768 | UINT/WORD read back v below 32768 and v - 65536 from there on |
| BaseDataTypes.BigIntUnsignedThenSigned | src/ads-client-ads.js:815-831 | LWORD/ULINT/LTIME read back n below 2^63 and n - 2^64 from there on |
| BaseDataTypes.UintExample | src/ads-client-ads.js:763-768 | a UINT of 40000 comes back as -25536 |
| BaseDataTypes.LwordExample | src/ads-client-ads.js:815-831 | an LWORD of 2^63 comes back as -2^63 |
| BaseDataTypes.BoolCodecRules | src/ads-client-ads.js:745-750 | BOOL writes 1 only for true or the number 1, and reads true only for the byte 1 |
| BaseDataTypes.DateConvertedRoundTrip | src/ads-client-ads.js:787-802 | with conversion, a date is written as whole seconds and read back as the start of its second |
| BaseDataTypes.DateRawRoundTrip | src/ads-client-ads.js:787-802 | without conversion, a date type is an unsigned 32-bit number, and a date is written as its milliseconds |
| BaseDataTypes.LayoutExamples | src/ads-client-ads.js:769-786 | INT -1 is FF FF; DWORD 256 is 00 01 00 00 (least significant byte first) |
| BaseDataTypes.ReadIntExample | src/ads-client-ads.js:769-774 | FF FF read as INT is -1 |
| BaseDataTypes.ToBuffer | src/ads-client-ads.js:703-718 | fails without touching the buffer for an unknown type; otherwise returns the given buffer, or a new one of the type's size, with the value's bytes at offset 0 and the rest unchanged |
| BaseDataTypes.WriteAtStart | src/ads-client-ads.js:717 | the bytes are at offset 0 of the buffer and the rest is unchanged |

## Left out

- REAL and LREAL: IEEE-754 encoding is floating point, which the model does not represent. Their descriptors (aliases, size) are modelled, so `find` and `isKnownType` cover them.
- BaseDataTypes.ToBuffer: requires a non-float descriptor (through `Writable`), because REAL/LREAL values are not modelled.
- BaseDataTypes.FromBuffer: requires a non-float descriptor and a buffer of at least the type's size (`Readable`). The source lets Node throw a RangeError on a short buffer; the model makes that a precondition.
- BaseDataTypes.ToBuffer: requires an in-range value and a buffer of sufficient length (`CanWrite`). Node's RangeError or TypeError for out-of-range, non-BigInt or too-short inputs is a precondition and not an error result.
- BaseDataTypes.ToBuffer: a newly allocated buffer starts zeroed in the model. `Buffer.allocUnsafe` gives unspecified contents, and every byte of it is overwritten anyway.
- The fallback for Node versions without 64-bit Buffer methods (copying a Buffer value as-is) is not modelled. The model assumes the BigInt methods exist.
- Error messages: the thrown `Error` of toBuffer/fromBuffer becomes `TypeNotFound(name)`. The message text and exception control flow are not modelled.
- JavaScript values other than booleans, integral Numbers, BigInts and Dates (strings, objects, NaN, fractional Numbers written to integer types) are not modelled.
- AdsFlags.StateFlagsToString: takes the 32-bit pattern of the input. The conversion of an arbitrary JavaScript Number to that pattern (ToInt32) is not modelled.
- AdsFlags.FlagsToStringArray: takes the 32-bit pattern of the input. The source's `flags === 0` tests the Number itself, not its pattern, so the two agree for integral inputs from -2^31 to 2^32 - 1. Outside that range they can differ: for 2^32 the source returns [] where the model, given the pattern 0, returns [None].
- AdsTables.NameOf: compares integers. JavaScript's loose `==` against strings or other value kinds is not modelled.
- The implicit global variable `ret` that the source's toString functions assign is not modelled. It is a side effect on the global object with no effect on the result.
- The `toString`/`toStringArray` keys of the tables themselves are left out of the tables. The source's lookups never match them. `ADS_STATE_FLAGS.toString` skips them by its `typeof` check. In `toStringArray`, `flags & f` with a function `f` is 0, never the function itself. In the reverse lookups, `f == value` converts the function to NaN, which equals no number.
- JsStrings.ToUpper: maps a-z and the characters whose upper-case form is plain ASCII (sharp s, dotless i, long s and the Latin ligatures U+FB00-U+FB06). Other non-ASCII case mappings are kept as they are. No alias contains them, and a name holding them finds none either way.
- JsStrings.Trim: is characterised by the padding lemmas. Its general equality with the ECMAScript algorithm is not stated beyond that.
- ADS_TRANS_MODE and the header constants are plain data with no operation; they are modelled as constants with nothing to prove about them.
- AdsTables.AdsError: only the sampled entries are stated in a lemma; the table itself is the full list of codes.
