/**
 * The PLC base data types: their descriptors, the lookup by name, and the
 * byte layouts the values are written and read in.
 */
module BaseDataTypes {
  import opened Wrappers
  import opened LittleEndian
  import opened JsStrings

  /**
   * How a descriptor writes and reads its value. Integers carry the
   * signedness of the writer and of the reader, which differ for two of the
   * types.
   */
  datatype Codec =
    | BoolCodec
    | NumberCodec(write: Signedness, read: Signedness)
    | BigIntCodec(write: Signedness, read: Signedness)
    | DateCodec
    | FloatCodec

  /** One entry of the type table: its aliases, its size in bytes and its codec. */
  datatype Descriptor = Descriptor(names: seq<string>, size: nat, codec: Codec)

  /** The values the writers accept and the readers return. */
  datatype Value =
    | VBool(b: bool)
    | VNumber(n: int)
    | VBigInt(i: int)
    | VDate(ms: int)

  /** The one client setting the codecs consult. */
  datatype Settings = Settings(convertDatesToJavascript: bool)

  datatype CodecError = TypeNotFound(name: string)

  const Bool := Descriptor(["BOOL"], 1, BoolCodec)
  const Byte := Descriptor(["BYTE", "USINT"], 1, NumberCodec(Unsigned, Unsigned))
  const Sint := Descriptor(["SINT"], 1, NumberCodec(Signed, Signed))
  const Uint := Descriptor(["UINT", "WORD"], 2, NumberCodec(Unsigned, Signed))
  const Int := Descriptor(["INT"], 2, NumberCodec(Signed, Signed))
  const Dint := Descriptor(["DINT"], 4, NumberCodec(Signed, Signed))
  const Udint := Descriptor(["UDINT", "DWORD", "TIME", "TIME_OF_DAY"], 4, NumberCodec(Unsigned, Unsigned))
  const Date := Descriptor(["DATE_AND_TIME", "DATE"], 4, DateCodec)
  const Real := Descriptor(["REAL"], 4, FloatCodec)
  const Lreal := Descriptor(["LREAL"], 8, FloatCodec)
  const Lword := Descriptor(["LWORD", "ULINT", "LTIME"], 8, BigIntCodec(Unsigned, Signed))
  const Lint := Descriptor(["LINT"], 8, BigIntCodec(Signed, Signed))

  /** The type table, in declaration order. */
  const Types: seq<Descriptor> := [Bool, Byte, Sint, Uint, Int, Dint, Udint, Date, Real, Lreal, Lword, Lint]

  /** A descriptor the codec can work with: a positive size, and one byte for BOOL. */
  predicate WellFormed(d: Descriptor) {
    d.size > 0 && (d.codec.BoolCodec? ==> d.size == 1)
  }

  lemma TypesWellFormed()
    ensures forall i :: 0 <= i < |Types| ==> WellFormed(Types[i])
  {
  }

  // ---------------------------------------------------------------------
  // Lookup
  // ---------------------------------------------------------------------

  predicate NoEarlierAlias(types: seq<Descriptor>, i: int, key: string)
    requires 0 <= i <= |types|
  {
    forall j :: 0 <= j < i ==> key !in types[j].names
  }

  /** The first descriptor, in table order, with key among its aliases. */
  function FindIn(types: seq<Descriptor>, key: string): (r: Option<Descriptor>)
    ensures r.None? <==> forall i :: 0 <= i < |types| ==> key !in types[i].names
    ensures forall i | 0 <= i < |types| && key in types[i].names :: NoEarlierAlias(types, i, key) ==> r == Some(types[i])
    ensures r.Some? ==> r.value in types && key in r.value.names
  {
    if types == [] then None
    else if key in types[0].names then Some(types[0])
    else
      var r := FindIn(types[1..], key);
      assert forall i :: 1 <= i < |types| ==> types[i] == types[1..][i - 1];
      r
  }

  /** The normalised form find compares: trimmed, then upper-cased. */
  function Key(name: string): (r: string) {
    ToUpper(Trim(name))
  }

  /** find: the descriptor whose aliases contain the normalised name exactly. */
  function Find(name: string): (r: Option<Descriptor>)
    ensures r.None? <==> forall i :: 0 <= i < |Types| ==> Key(name) !in Types[i].names
    ensures r.Some? ==> r.value in Types && Key(name) in r.value.names && WellFormed(r.value)
  {
    TypesWellFormed();
    FindIn(Types, Key(name))
  }

  /** isKnownType: found by find, or a STRING(n) type. */
  predicate IsKnownType(name: string) {
    Find(name).Some? || Includes(ToUpper(name), "STRING(")
  }

  /** No alias belongs to two descriptors. */
  predicate AliasesDisjoint(types: seq<Descriptor>) {
    forall i, j, a :: 0 <= i < j < |types| && a in types[i].names ==> a !in types[j].names
  }

  /** An alias already in normal form: upper-case letters and underscores. */
  predicate Normal(a: string) {
    forall k :: 0 <= k < |a| ==> ('A' <= a[k] <= 'Z' || a[k] == '_')
  }

  /** The aliases of descriptors lo up to hi appear in no later descriptor. */
  predicate DisjointFromLater(types: seq<Descriptor>, lo: int, hi: int) {
    forall i, j, a :: 0 <= lo <= i < hi && i < j < |types| && a in types[i].names ==> a !in types[j].names
  }

  lemma TypesDisjointFromLater()
    ensures DisjointFromLater(Types, 0, 2) && DisjointFromLater(Types, 2, 4)
    ensures DisjointFromLater(Types, 4, 6) && DisjointFromLater(Types, 6, 8)
    ensures DisjointFromLater(Types, 8, 12)
  {
    DisjointFromFirst();
    DisjointFromSecond();
    DisjointFromThird();
    DisjointFromFourth();
    DisjointFromFifth();
  }

  lemma DisjointFromFirst() ensures DisjointFromLater(Types, 0, 2) { }
  lemma DisjointFromSecond() ensures DisjointFromLater(Types, 2, 4) { }
  lemma DisjointFromThird() ensures DisjointFromLater(Types, 4, 6) { }
  lemma DisjointFromFourth() ensures DisjointFromLater(Types, 6, 8) { }
  lemma DisjointFromFifth() ensures DisjointFromLater(Types, 8, 12) { }

  lemma TypesAliasesDisjoint()
    ensures AliasesDisjoint(Types)
  {
    TypesDisjointFromLater();
  }

  lemma TypesAliasesNormal()
    ensures forall i, a :: 0 <= i < |Types| && a in Types[i].names ==> a != [] && Normal(a)
  {
  }

  lemma {:induction false} NormalUpper(a: string)
    requires Normal(a)
    ensures ToUpper(a) == a
  {
    if a != [] {
      NormalUpper(a[1..]);
    }
  }

  lemma NormalKey(a: string)
    requires a != [] && Normal(a)
    ensures Key(a) == a
  {
    assert !IsJsWhiteSpace(a[0]) && !IsJsWhiteSpace(a[|a| - 1]);
    assert TrimStart(a) == a;
    assert TrimEnd(a) == a;
    NormalUpper(a);
  }

  /** In a table with disjoint aliases, lookup finds the one descriptor holding the key. */
  lemma FindInUnique(types: seq<Descriptor>, i: nat, key: string)
    requires AliasesDisjoint(types)
    requires i < |types| && key in types[i].names
    ensures FindIn(types, key) == Some(types[i])
  {
    assert NoEarlierAlias(types, i, key);
  }

  /**
   * Every alias, and every name that normalises to one, finds the descriptor
   * that lists it, and no other.
   */
  lemma FindAlias(name: string, i: nat)
    requires i < |Types| && Key(name) in Types[i].names
    ensures Find(name) == Some(Types[i])
  {
    TypesAliasesDisjoint();
    FindInUnique(Types, i, Key(name));
  }

  /** An alias of the table names itself. */
  lemma AliasKey(i: nat, a: string)
    requires i < |Types| && a in Types[i].names
    ensures Key(a) == a
  {
    TypesAliasesNormal();
    NormalKey(a);
  }

  /** Every alias of the table is a known type found at its own descriptor. */
  lemma AliasesFound(i: nat, a: string)
    requires i < |Types| && a in Types[i].names
    ensures Find(a) == Some(Types[i]) && IsKnownType(a)
  {
    AliasKey(i, a);
    FindAlias(a, i);
  }

  /**
   * Any name that contains "STRING(" in any letter case is known,
   * whether or not find succeeds.
   */
  lemma StringFormsAreKnown(prefix: string, w: string, suffix: string)
    requires ToUpper(w) == "STRING("
    ensures IsKnownType(prefix + w + suffix)
  {
    ToUpperAppend(prefix + w, suffix);
    ToUpperAppend(prefix, w);
    IncludesMiddle(ToUpper(prefix), "STRING(", ToUpper(suffix));
  }

  /** "INT" is the INT descriptor, never DINT or UINT. */
  lemma FindExamples()
    ensures Find("INT") == Some(Int)
    ensures Find("DINT") == Some(Dint) && Find("UINT") == Some(Uint)
  {
    AliasesFound(4, "INT");
    AliasesFound(5, "DINT");
    AliasesFound(3, "UINT");
  }

  /** A name whose normal form is not an upper-case identifier names no descriptor. */
  lemma NotNormalNotFound(name: string)
    requires !Normal(Key(name))
    ensures Find(name) == None
  {
    TypesAliasesNormal();
  }

  /** The normal form is already normal: normalising it again changes nothing. */
  lemma KeyIdempotent(name: string)
    ensures Key(Key(name)) == Key(name)
  {
    var t := Trim(name);
    TrimOfUpper(t);
    ToUpperIdempotent(t);
  }

  /** find normalises once: a name's normal form finds what the name finds. */
  lemma FindOfKey(name: string)
    ensures Find(Key(name)) == Find(name)
  {
    KeyIdempotent(name);
  }

  /** An empty or blank name finds no descriptor. */
  lemma BlankNotFound(w: string)
    requires AllWhiteSpace(w)
    ensures Find(w) == None
  {
    TrimAllWhite(w);
    assert Key(w) == [];
    TypesAliasesNormal();
    assert forall i :: 0 <= i < |Types| ==> Key(w) !in Types[i].names;
  }

  lemma UpperDint()
    ensures ToUpper("dint") == "DINT"
  {
    assert ToUpper("t") == "T";
    assert ToUpper("nt") == "NT";
    assert ToUpper("int") == "INT";
  }

  /** A padded, lower-case name normalises to the alias: " dint " is looked up as DINT. */
  lemma PaddedDintKey()
    ensures Key(" dint ") == "DINT" && "DINT" in Dint.names
  {
    var s := "dint";
    assert " dint " == " " + s + " ";
    TrimPadded(" ", s, " ");
    UpperDint();
  }

  lemma UpperRing()
    ensures ToUpper("ring(") == "RING("
  {
    assert ToUpper("(") == "(";
    assert ToUpper("g(") == "G(";
    assert ToUpper("ng(") == "NG(";
  }

  lemma UpperString()
    ensures ToUpper("string(") == "STRING("
  {
    UpperRing();
    assert ToUpper("ing(") == "ING(";
    assert ToUpper("tring(") == "TRING(";
  }

  lemma UpperDigits()
    ensures ToUpper("80)") == "80)"
  {
    assert ToUpper(")") == ")";
    assert ToUpper("0)") == "0)";
  }

  lemma TrimStringEighty()
    ensures Trim("string(80)") == "string(80)"
  {
    var s := "string(80)";
    assert s == "" + s + "";
    assert s[0] == 's' && s[9] == ')';
    TrimPadded("", s, "");
  }

  lemma UpperStringEighty()
    ensures ToUpper("string(80)") == "STRING(80)"
  {
    UpperString();
    UpperDigits();
    ToUpperAppend("string(", "80)");
    assert "string(80)" == "string(" + "80)";
  }

  lemma StringEightyKey()
    ensures Key("string(80)") == "STRING(80)"
  {
    TrimStringEighty();
    UpperStringEighty();
  }

  lemma StringEightyNotNormal()
    ensures !Normal("STRING(80)")
  {
    assert "STRING(80)"[6] == '(';
  }

  /** "string(80)" is no table entry... */
  lemma StringEightyNotFound()
    ensures Find("string(80)") == None
  {
    StringEightyKey();
    StringEightyNotNormal();
    NotNormalNotFound("string(80)");
  }

  /** ...yet a known type. */
  lemma StringEightyIsKnown()
    ensures IsKnownType("string(80)")
  {
    UpperString();
    assert "string(80)" == "" + "string(" + "80)";
    StringFormsAreKnown("", "string(", "80)");
  }

  // ---------------------------------------------------------------------
  // Writing and reading one value
  // ---------------------------------------------------------------------

  /** The number a Node Buffer writer makes of a value (`+value`); a BigInt has none. */
  function AsNumber(v: Value): (r: Option<int>) {
    match v
    case VBool(b) => Some(if b then 1 else 0)
    case VNumber(n) => Some(n)
    case VBigInt(_) => None
    case VDate(ms) => Some(ms)
  }

  /** The values the descriptor's writer accepts without a range or type error. */
  predicate Writable(d: Descriptor, settings: Settings, v: Value) {
    WellFormed(d) &&
    match d.codec
    case BoolCodec => true
    case NumberCodec(w, _) => AsNumber(v).Some? && InRange(w, d.size, AsNumber(v).value)
    case BigIntCodec(w, _) => v.VBigInt? && InRange(w, d.size, v.i)
    case DateCodec =>
      if settings.convertDatesToJavascript && v.VDate? then
        0 <= v.ms <= (Pow256(d.size) - 1) * 1000
      else
        AsNumber(v).Some? && InRange(Unsigned, d.size, AsNumber(v).value)
    case FloatCodec => false
  }

  /** The bytes the descriptor's writer puts at offset 0. */
  function WriteBytes(d: Descriptor, settings: Settings, v: Value): (r: seq<byte>)
    requires Writable(d, settings, v)
    ensures |r| == d.size
  {
    match d.codec
    case BoolCodec => [if v == VBool(true) || v == VNumber(1) then 1 else 0]
    case NumberCodec(w, _) => EncodeInt(w, d.size, AsNumber(v).value)
    case BigIntCodec(w, _) => EncodeInt(w, d.size, v.i)
    case DateCodec =>
      if settings.convertDatesToJavascript && v.VDate? then
        EncodeLE(v.ms / 1000, d.size)
      else
        EncodeInt(Unsigned, d.size, AsNumber(v).value)
  }

  /** The value the descriptor's reader takes from the bytes at offset 0. */
  function ReadValue(d: Descriptor, settings: Settings, bs: seq<byte>): (r: Value)
    requires WellFormed(d) && !d.codec.FloatCodec? && |bs| >= d.size
  {
    match d.codec
    case BoolCodec => VBool(bs[0] == 1)
    case NumberCodec(_, r) => VNumber(DecodeInt(r, bs[..d.size]))
    case BigIntCodec(_, r) => VBigInt(DecodeInt(r, bs[..d.size]))
    case DateCodec =>
      var n := DecodeLE(bs[..d.size]);
      if settings.convertDatesToJavascript then VDate(n * 1000) else VNumber(n)
  }

  /** What fromBuffer needs: a known type that is not a float, and enough bytes. */
  predicate Readable(name: string, buffer: seq<byte>) {
    Find(name).Some? ==> !Find(name).value.codec.FloatCodec? && |buffer| >= Find(name).value.size
  }

  /** fromBuffer: an error for an unknown type, otherwise the value read at offset 0. */
  function FromBuffer(settings: Settings, name: string, buffer: seq<byte>): (r: Result<Value, CodecError>)
    requires Readable(name, buffer)
    ensures r.Failure? <==> Find(name).None?
    ensures r.Failure? ==> r.error == TypeNotFound(name)
  {
    match Find(name)
    case None => Failure(TypeNotFound(name))
    case Some(d) => Success(ReadValue(d, settings, buffer))
  }

  /** A descriptor's reader looks only at the first size bytes. */
  lemma ReadValuePrefix(d: Descriptor, settings: Settings, bs: seq<byte>, rest: seq<byte>)
    requires WellFormed(d) && !d.codec.FloatCodec? && |bs| >= d.size
    ensures ReadValue(d, settings, bs + rest) == ReadValue(d, settings, bs)
  {
    assert (bs + rest)[..d.size] == bs[..d.size];
  }

  /** fromBuffer looks only at the first size bytes. */
  lemma FromBufferPrefix(settings: Settings, name: string, buffer: seq<byte>, rest: seq<byte>)
    requires Readable(name, buffer)
    ensures Readable(name, buffer + rest)
    ensures FromBuffer(settings, name, buffer + rest) == FromBuffer(settings, name, buffer)
  {
    if Find(name).Some? {
      ReadValuePrefix(Find(name).value, settings, buffer, rest);
    }
  }

  /** A reader given a buffer that starts with the writer's bytes reads what it would read from those bytes alone. */
  lemma ReadValueOfWritten(d: Descriptor, settings: Settings, v: Value, buffer: seq<byte>)
    requires Writable(d, settings, v)
    requires |buffer| >= d.size && buffer[..d.size] == WriteBytes(d, settings, v)
    ensures !d.codec.FloatCodec?
    ensures ReadValue(d, settings, buffer) == ReadValue(d, settings, WriteBytes(d, settings, v))
  {
    var bytes := WriteBytes(d, settings, v);
    assert buffer == bytes + buffer[d.size..];
    ReadValuePrefix(d, settings, bytes, buffer[d.size..]);
  }

  /**
   * fromBuffer of a buffer that starts with what the named type's writer
   * produced for v gives the value its reader makes of those bytes.
   */
  lemma FromBufferOfWritten(settings: Settings, name: string, d: Descriptor, v: Value, buffer: seq<byte>)
    requires Find(name) == Some(d) && Writable(d, settings, v)
    requires |buffer| >= d.size && buffer[..d.size] == WriteBytes(d, settings, v)
    ensures Readable(name, buffer)
    ensures FromBuffer(settings, name, buffer) == Success(ReadValue(d, settings, WriteBytes(d, settings, v)))
  {
    ReadValueOfWritten(d, settings, v, buffer);
  }

  // ---------------------------------------------------------------------
  // Round trips and their exceptions
  // ---------------------------------------------------------------------

  /** Reading what was written, for the number types written and read with the same signedness. */
  lemma NumberRoundTrip(d: Descriptor, settings: Settings, n: int)
    requires WellFormed(d) && d.codec.NumberCodec? && d.codec.write == d.codec.read
    requires InRange(d.codec.write, d.size, n)
    ensures Writable(d, settings, VNumber(n))
    ensures ReadValue(d, settings, WriteBytes(d, settings, VNumber(n))) == VNumber(n)
  {
    var bytes := WriteBytes(d, settings, VNumber(n));
    IntRoundTrip(d.codec.write, d.size, n);
    assert bytes[..d.size] == bytes;
  }

  /** Reading what was written, for the 64-bit type written and read signed. */
  lemma BigIntRoundTrip(d: Descriptor, settings: Settings, n: int)
    requires WellFormed(d) && d.codec.BigIntCodec? && d.codec.write == d.codec.read
    requires InRange(d.codec.write, d.size, n)
    ensures Writable(d, settings, VBigInt(n))
    ensures ReadValue(d, settings, WriteBytes(d, settings, VBigInt(n))) == VBigInt(n)
  {
    var bytes := WriteBytes(d, settings, VBigInt(n));
    IntRoundTrip(d.codec.write, d.size, n);
    assert bytes[..d.size] == bytes;
  }

  /** Writing what was read gives back the bytes, for the consistently signed number types. */
  lemma NumberBytesRoundTrip(d: Descriptor, settings: Settings, bs: seq<byte>)
    requires WellFormed(d) && d.codec.NumberCodec? && d.codec.write == d.codec.read
    requires |bs| == d.size
    ensures Writable(d, settings, ReadValue(d, settings, bs))
    ensures WriteBytes(d, settings, ReadValue(d, settings, bs)) == bs
  {
    assert bs[..d.size] == bs;
    IntBytesRoundTrip(d.codec.read, bs);
  }

  /**
   * UINT and WORD are written unsigned and read signed: v comes back only
   * below half the range, and as v - 256^size from there on.
   */
  lemma NumberUnsignedThenSigned(d: Descriptor, settings: Settings, v: Value)
    requires d.codec == NumberCodec(Unsigned, Signed)
    requires Writable(d, settings, v)
    ensures var n := AsNumber(v).value;
      ReadValue(d, settings, WriteBytes(d, settings, v))
        == VNumber(if n < Half(d.size) then n else n - Pow256(d.size))
  {
    var bytes := WriteBytes(d, settings, v);
    UnsignedReadSigned(d.size, AsNumber(v).value);
    assert bytes[..d.size] == bytes;
  }

  /** The same for LWORD, ULINT and LTIME, which are written as unsigned and read as signed BigInts. */
  lemma BigIntUnsignedThenSigned(d: Descriptor, settings: Settings, n: int)
    requires WellFormed(d) && d.codec == BigIntCodec(Unsigned, Signed)
    requires InRange(Unsigned, d.size, n)
    ensures Writable(d, settings, VBigInt(n))
    ensures ReadValue(d, settings, WriteBytes(d, settings, VBigInt(n)))
      == VBigInt(if n < Half(d.size) then n else n - Pow256(d.size))
  {
    var bytes := WriteBytes(d, settings, VBigInt(n));
    UnsignedReadSigned(d.size, n);
    assert bytes[..d.size] == bytes;
  }

  /** The one-byte aliases whose writer and reader agree on signedness. */
  lemma ByteAliases()
    ensures Find("BYTE") == Some(Byte) && Find("USINT") == Some(Byte) && Find("SINT") == Some(Sint)
  {
    AliasesFound(1, "BYTE");
    AliasesFound(1, "USINT");
    AliasesFound(2, "SINT");
  }

  /** The wider aliases whose writer and reader agree on signedness. */
  lemma SignedAliases()
    ensures Find("INT") == Some(Int) && Find("DINT") == Some(Dint) && Find("LINT") == Some(Lint)
  {
    AliasesFound(4, "INT");
    AliasesFound(5, "DINT");
    AliasesFound(11, "LINT");
  }

  lemma DwordAliases()
    ensures Find("UDINT") == Some(Udint) && Find("DWORD") == Some(Udint)
    ensures Find("TIME") == Some(Udint) && Find("TIME_OF_DAY") == Some(Udint)
  {
    AliasesFound(6, "UDINT");
    AliasesFound(6, "DWORD");
    AliasesFound(6, "TIME");
    AliasesFound(6, "TIME_OF_DAY");
  }

  /** The aliases written unsigned and read signed. */
  lemma MismatchedAliases()
    ensures Find("UINT") == Some(Uint) && Find("WORD") == Some(Uint)
    ensures Find("LWORD") == Some(Lword) && Find("ULINT") == Some(Lword) && Find("LTIME") == Some(Lword)
  {
    AliasesFound(3, "UINT");
    AliasesFound(3, "WORD");
    AliasesFound(10, "LWORD");
    AliasesFound(10, "ULINT");
    AliasesFound(10, "LTIME");
  }

  /** Both date aliases name the date descriptor, and BOOL the bool one. */
  lemma DateAndBoolAliases()
    ensures Find("DATE") == Some(Date) && Find("DATE_AND_TIME") == Some(Date)
    ensures Find("BOOL") == Some(Bool)
  {
    AliasesFound(7, "DATE");
    AliasesFound(7, "DATE_AND_TIME");
    AliasesFound(0, "BOOL");
  }

  /** A UINT of 40000 comes back as -25536. */
  lemma UintExample(settings: Settings)
    ensures Writable(Uint, settings, VNumber(40000))
    ensures ReadValue(Uint, settings, WriteBytes(Uint, settings, VNumber(40000))) == VNumber(-25536)
  {
    assert Pow256(2) == 65536;
    NumberUnsignedThenSigned(Uint, settings, VNumber(40000));
  }

  /** An LWORD of 2^63 comes back as -2^63. */
  lemma LwordExample(settings: Settings)
    ensures Writable(Lword, settings, VBigInt(0x8000_0000_0000_0000))
    ensures ReadValue(Lword, settings, WriteBytes(Lword, settings, VBigInt(0x8000_0000_0000_0000)))
      == VBigInt(-0x8000_0000_0000_0000)
  {
    assert Pow256(8) == 0x1_0000_0000_0000_0000;
    BigIntUnsignedThenSigned(Lword, settings, 0x8000_0000_0000_0000);
  }

  /** BOOL writes 1 for true and the number 1, 0 otherwise, and reads true for the byte 1 only. */
  lemma BoolCodecRules(settings: Settings, v: Value, bs: seq<byte>)
    requires |bs| >= 1
    ensures Writable(Bool, settings, v)
    ensures ReadValue(Bool, settings, WriteBytes(Bool, settings, v)) == VBool(v == VBool(true) || v == VNumber(1))
    ensures ReadValue(Bool, settings, bs) == VBool(bs[0] == 1)
  {
  }

  /**
   * With dates converted, a date is written as whole seconds and read back
   * as the date at the start of its second.
   */
  lemma DateConvertedRoundTrip(ms: int)
    requires 0 <= ms <= 4294967295000
    ensures Writable(Date, Settings(true), VDate(ms))
    ensures ReadValue(Date, Settings(true), WriteBytes(Date, Settings(true), VDate(ms))) == VDate(ms - ms % 1000)
  {
    var bytes := WriteBytes(Date, Settings(true), VDate(ms));
    assert Pow256(4) == 4294967296;
    DecodeEncodeLE(ms / 1000, 4);
    assert bytes[..4] == bytes;
  }

  /**
   * Without the conversion, a date type is a plain unsigned 32-bit number,
   * and a date is written as its milliseconds.
   */
  lemma DateRawRoundTrip(v: Value)
    requires v.VNumber? || v.VDate?
    requires 0 <= AsNumber(v).value < 4294967296
    ensures Writable(Date, Settings(false), v)
    ensures ReadValue(Date, Settings(false), WriteBytes(Date, Settings(false), v)) == VNumber(AsNumber(v).value)
  {
    var bytes := WriteBytes(Date, Settings(false), v);
    assert Pow256(4) == 4294967296;
    DecodeEncodeLE(AsNumber(v).value, 4);
    assert bytes[..4] == bytes;
  }

  /** INT -1 is FF FF and DWORD 256 is 00 01 00 00. */
  lemma LayoutExamples(settings: Settings)
    ensures Writable(Int, settings, VNumber(-1)) && WriteBytes(Int, settings, VNumber(-1)) == [255, 255]
    ensures Writable(Udint, settings, VNumber(256)) && WriteBytes(Udint, settings, VNumber(256)) == [0, 1, 0, 0]
  {
    assert Pow256(2) == 65536;
    assert Pow256(4) == 4294967296;
  }

  /** FF FF read as INT is -1. */
  lemma ReadIntExample(settings: Settings)
    ensures ReadValue(Int, settings, [255, 255]) == VNumber(-1)
  {
    var bs: seq<byte> := [255, 255];
    assert bs[..2] == bs;
    assert DecodeLE(bs) == 65535;
    assert Pow256(2) == 65536;
  }

  // ---------------------------------------------------------------------
  // toBuffer
  // ---------------------------------------------------------------------

  /** What toBuffer needs: for a known type, a writable value and, when a buffer is given, room for it. */
  predicate CanWrite(settings: Settings, name: string, value: Value, length: Option<nat>) {
    Find(name).Some? ==>
      Writable(Find(name).value, settings, value)
      && (length.Some? ==> length.value >= Find(name).value.size)
  }

  /**
   * toBuffer: fails for an unknown type and touches nothing; otherwise
   * writes the value's bytes at offset 0 of the given buffer, or of a new one
   * of exactly the type's size, and returns that buffer, every byte past
   * the value unchanged.
   */
  method ToBuffer(settings: Settings, name: string, value: Value, buffer: array?<byte>)
      returns (r: Result<array<byte>, CodecError>)
    requires CanWrite(settings, name, value, if buffer == null then None else Some(buffer.Length))
    modifies buffer
    ensures Find(name).None? ==> r == Failure(TypeNotFound(name))
    ensures Find(name).None? && buffer != null ==> buffer[..] == old(buffer[..])
    ensures Find(name).Some? ==> r.Success?
    ensures Find(name).Some? && buffer == null ==> fresh(r.value) && r.value.Length == Find(name).value.size
    ensures Find(name).Some? && buffer != null ==> r.value == buffer
    ensures Find(name).Some? ==>
      var d := Find(name).value;
      r.value.Length >= d.size && r.value[..d.size] == WriteBytes(d, settings, value)
    ensures Find(name).Some? && buffer != null ==>
      buffer[Find(name).value.size..] == old(buffer[Find(name).value.size..])
  {
    var found := Find(name);
    if found.None? {
      return Failure(TypeNotFound(name));
    }
    var d := found.value;
    var out: array<byte>;
    if buffer == null {
      out := new byte[d.size];
    } else {
      out := buffer;
    }
    WriteAtStart(out, WriteBytes(d, settings, value));
    return Success(out);
  }

  /** Writes bytes at offset 0 of out, leaving the rest of out as it was. */
  method WriteAtStart(out: array<byte>, bytes: seq<byte>)
    requires |bytes| <= out.Length
    modifies out
    ensures out[..|bytes|] == bytes
    ensures out[|bytes|..] == old(out[|bytes|..])
  {
    forall k | 0 <= k < |bytes| {
      out[k] := bytes[k];
    }
  }
}
