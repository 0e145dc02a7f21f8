/**
 * The bit-flag tables of the ADS protocol and their decomposition of a raw
 * flag value into names: the state-flag string, and the name lists of the
 * symbol flags and of the data-type flags.
 *
 * An input is the 32-bit two's-complement pattern of the number, which is
 * what the bitwise AND of the decompositions works on. Every flag value of
 * the tables is below 2^31, so comparing the AND with the flag gives the same
 * answer on the pattern as on the signed 32-bit result.
 */
module AdsFlags {

  /** A flag table: (name, bits) entries in declaration order. */
  type FlagTable = seq<(string, bv32)>

  const StateFlags: FlagTable := [
    ("Response", 1), ("NoReturn", 2), ("AdsCommand", 4), ("SysCommand", 8),
    ("HighPriority", 0x10), ("TimeStampAdded", 0x20), ("Udp", 0x40), ("InitCmd", 0x80),
    ("Broadcast", 0x8000)
  ]

  /** None comes first. */
  const SymbolFlags: FlagTable := [
    ("None", 0), ("Persistent", 1), ("BitValue", 2), ("ReferenceTo", 4), ("TypeGuid", 8),
    ("TComInterfacePtr", 0x10), ("ReadOnly", 0x20), ("ItfMethodAccess", 0x40),
    ("MethodDeref", 0x80), ("ContextMask", 0x0F00), ("Attributes", 0x1000), ("Static", 0x2000),
    ("InitOnReset", 0x4000), ("ExtendedFlags", 0x8000)
  ]

  /** None comes last. */
  const DataTypeFlags: FlagTable := [
    ("DataType", 1), ("DataItem", 2), ("ReferenceTo", 4), ("MethodDeref", 8),
    ("Oversample", 0x10), ("BitValues", 0x20), ("PropItem", 0x40), ("TypeGuid", 0x80),
    ("Persistent", 0x100), ("CopyMask", 0x200), ("TComInterfacePtr", 0x400),
    ("MethodInfos", 0x800), ("Attributes", 0x1000), ("EnumInfos", 0x2000),
    ("Aligned", 0x1_0000), ("Static", 0x2_0000), ("SpLevels", 0x4_0000),
    ("IgnorePersist", 0x8_0000), ("AnySizeArray", 0x10_0000), ("PersistantDatatype", 0x20_0000),
    ("InitOnResult", 0x40_0000), ("None", 0)
  ]

  /** Every bit of flag is set in x: (x & flag) == flag. */
  predicate HasBits(x: bv32, flag: bv32) {
    x & flag == flag
  }

  /**
   * Whether the name lists report a flag: all its bits are set, and a flag
   * of value 0 only for an input of exactly 0.
   */
  predicate Reported(x: bv32, flag: bv32) {
    HasBits(x, flag) && (x == 0 || flag != 0)
  }

  /** The names, in table order, of the entries whose bits are all set in x. */
  function SetFlagNames(t: FlagTable, x: bv32): (r: seq<string>) {
    if t == [] then []
    else
      var last := t[|t| - 1];
      SetFlagNames(t[..|t| - 1], x) + (if HasBits(x, last.1) then [last.0] else [])
  }

  /** The names, in table order, of the entries Reported for x. */
  function ReportedFlagNames(t: FlagTable, x: bv32): (r: seq<string>) {
    if t == [] then []
    else
      var last := t[|t| - 1];
      ReportedFlagNames(t[..|t| - 1], x) + (if Reported(x, last.1) then [last.0] else [])
  }

  /**
   * The parts of the state-flag string: the names of the set state flags,
   * then Tcp unless Udp is among them, then Request unless Response is.
   */
  function StateFlagNames(x: bv32): (r: seq<string>) {
    var present := SetFlagNames(StateFlags, x);
    var transport := if "Udp" in present then present else present + ["Tcp"];
    if "Response" in transport then transport else transport + ["Request"]
  }

  /** The parts joined with the separator between each two of them. */
  function Join(parts: seq<string>, separator: string): (r: string) {
    if parts == [] then ""
    else if |parts| == 1 then parts[0]
    else parts[0] + separator + Join(parts[1..], separator)
  }

  /** ADS state flags as text: the set flags, Tcp or not, Request or not, comma-separated. */
  method StateFlagsToString(value: bv32) returns (s: string)
    ensures s == Join(StateFlagNames(value), ", ")
  {
    var flags: seq<string> := [];
    for i := 0 to |StateFlags|
      invariant flags == SetFlagNames(StateFlags[..i], value)
    {
      assert StateFlags[..i + 1][..i] == StateFlags[..i];
      if HasBits(value, StateFlags[i].1) {
        flags := flags + [StateFlags[i].0];
      }
    }
    assert StateFlags[..|StateFlags|] == StateFlags;
    if "Udp" !in flags {
      flags := flags + ["Tcp"];
    }
    if "Response" !in flags {
      flags := flags + ["Request"];
    }
    s := Join(flags, ", ");
  }

  /** The names of the flags of table t set in an input (the toStringArray of both tables). */
  method FlagsToStringArray(t: FlagTable, flags: bv32) returns (names: seq<string>)
    ensures names == ReportedFlagNames(t, flags)
  {
    names := [];
    for i := 0 to |t|
      invariant names == ReportedFlagNames(t[..i], flags)
    {
      assert t[..i + 1][..i] == t[..i];
      if HasBits(flags, t[i].1) {
        if flags == 0 || t[i].1 != 0 {
          names := names + [t[i].0];
        }
      }
    }
    assert t[..|t|] == t;
  }

  /** Appending entries to a table appends their names: the output keeps table order. */
  lemma {:induction false} SetFlagNamesAppend(a: FlagTable, b: FlagTable, x: bv32)
    ensures SetFlagNames(a + b, x) == SetFlagNames(a, x) + SetFlagNames(b, x)
    decreases |b|
  {
    if b == [] {
      assert a + b == a;
    } else {
      var b' := b[..|b| - 1];
      assert (a + b)[..|a + b| - 1] == a + b';
      SetFlagNamesAppend(a, b', x);
    }
  }

  /** Appending entries to a table appends their names: the output keeps table order. */
  lemma {:induction false} ReportedFlagNamesAppend(a: FlagTable, b: FlagTable, x: bv32)
    ensures ReportedFlagNames(a + b, x) == ReportedFlagNames(a, x) + ReportedFlagNames(b, x)
    decreases |b|
  {
    if b == [] {
      assert a + b == a;
    } else {
      var b' := b[..|b| - 1];
      assert (a + b)[..|a + b| - 1] == a + b';
      ReportedFlagNamesAppend(a, b', x);
    }
  }

  /**
   * A name is in SetFlagNames exactly when some entry of that name has all
   * its bits set.
   */
  lemma {:induction false} SetFlagNamesMembers(t: FlagTable, x: bv32, n: string)
    ensures n in SetFlagNames(t, x) <==> exists i :: 0 <= i < |t| && t[i].0 == n && HasBits(x, t[i].1)
  {
    if t != [] {
      var t' := t[..|t| - 1];
      SetFlagNamesMembers(t', x, n);
      if n in SetFlagNames(t', x) {
        var i :| 0 <= i < |t'| && t'[i].0 == n && HasBits(x, t'[i].1);
        assert t[i] == t'[i];
      }
      if exists i :: 0 <= i < |t| && t[i].0 == n && HasBits(x, t[i].1) {
        var i :| 0 <= i < |t| && t[i].0 == n && HasBits(x, t[i].1);
        if i < |t'| {
          assert t'[i] == t[i];
        }
      }
    }
  }

  /**
   * A name is in ReportedFlagNames exactly when some entry of that name is
   * Reported.
   */
  lemma {:induction false} ReportedFlagNamesMembers(t: FlagTable, x: bv32, n: string)
    ensures n in ReportedFlagNames(t, x) <==> exists i :: 0 <= i < |t| && t[i].0 == n && Reported(x, t[i].1)
  {
    if t != [] {
      var t' := t[..|t| - 1];
      ReportedFlagNamesMembers(t', x, n);
      if n in ReportedFlagNames(t', x) {
        var i :| 0 <= i < |t'| && t'[i].0 == n && Reported(x, t'[i].1);
        assert t[i] == t'[i];
      }
      if exists i :: 0 <= i < |t| && t[i].0 == n && Reported(x, t[i].1) {
        var i :| 0 <= i < |t| && t[i].0 == n && Reported(x, t[i].1);
        if i < |t'| {
          assert t'[i] == t[i];
        }
      }
    }
  }

  /** No two entries share a name. */
  predicate UniqueNames(t: FlagTable) {
    forall i, j :: 0 <= i < j < |t| ==> t[i].0 != t[j].0
  }

  lemma StateFlagsUniqueNames()
    ensures UniqueNames(StateFlags)
  {
  }

  /** The entries lo up to hi share no name with any later entry. */
  predicate UniqueFrom(t: FlagTable, lo: int, hi: int) {
    forall i, j :: 0 <= lo <= i < hi && i < j < |t| ==> t[i].0 != t[j].0
  }

  lemma SymbolFlagsUniqueNames()
    ensures UniqueNames(SymbolFlags)
  {
    SymbolFlagsUniqueFromStart();
    SymbolFlagsUniqueFromMiddle();
  }

  lemma SymbolFlagsUniqueFromStart() ensures UniqueFrom(SymbolFlags, 0, 4) { }
  lemma SymbolFlagsUniqueFromMiddle() ensures UniqueFrom(SymbolFlags, 4, 14) { }

  lemma DataTypeFlagsUniqueNames()
    ensures UniqueNames(DataTypeFlags)
  {
    DataTypeFlagsUniqueFromFirst();
    DataTypeFlagsUniqueFromSecond();
    DataTypeFlagsUniqueFromThird();
    DataTypeFlagsUniqueFromFourth();
    DataTypeFlagsUniqueFromFifth();
  }

  lemma DataTypeFlagsUniqueFromFirst() ensures UniqueFrom(DataTypeFlags, 0, 3) { }
  lemma DataTypeFlagsUniqueFromSecond() ensures UniqueFrom(DataTypeFlags, 3, 6) { }
  lemma DataTypeFlagsUniqueFromThird() ensures UniqueFrom(DataTypeFlags, 6, 10) { }
  lemma DataTypeFlagsUniqueFromFourth() ensures UniqueFrom(DataTypeFlags, 10, 14) { }
  lemma DataTypeFlagsUniqueFromFifth() ensures UniqueFrom(DataTypeFlags, 14, 22) { }

  /** In a table without repeated names, a flag's name is listed iff all its bits are set. */
  lemma SetFlagNamesListed(t: FlagTable, x: bv32, i: int)
    requires UniqueNames(t) && 0 <= i < |t|
    ensures t[i].0 in SetFlagNames(t, x) <==> HasBits(x, t[i].1)
  {
    SetFlagNamesMembers(t, x, t[i].0);
  }

  /** In a table without repeated names, a flag's name is listed iff it is Reported. */
  lemma ReportedFlagNamesListed(t: FlagTable, x: bv32, i: int)
    requires UniqueNames(t) && 0 <= i < |t|
    ensures t[i].0 in ReportedFlagNames(t, x) <==> Reported(x, t[i].1)
  {
    ReportedFlagNamesMembers(t, x, t[i].0);
  }

  /**
   * The state-flag string's parts: the names of the set state flags in table
   * order, then Tcp iff the Udp bit (0x40) is clear, then Request iff the
   * Response bit (1) is clear.
   */
  lemma StateFlagNamesParts(x: bv32)
    ensures StateFlagNames(x) ==
      SetFlagNames(StateFlags, x)
      + (if HasBits(x, 0x40) then [] else ["Tcp"])
      + (if HasBits(x, 1) then [] else ["Request"])
  {
    var present := SetFlagNames(StateFlags, x);
    StateFlagsUniqueNames();
    assert StateFlags[6] == ("Udp", 0x40) && StateFlags[0] == ("Response", 1);
    SetFlagNamesListed(StateFlags, x, 6);
    SetFlagNamesListed(StateFlags, x, 0);
    assert "Udp" in present <==> HasBits(x, 0x40);
    assert "Response" in present <==> HasBits(x, 1);
    var transport := if "Udp" in present then present else present + ["Tcp"];
    assert "Response" in transport <==> "Response" in present;
  }

  /** Each state flag is named in the state-flag string's parts iff its bit is set. */
  lemma StateFlagNamesListed(x: bv32, i: int)
    requires 0 <= i < |StateFlags|
    ensures StateFlags[i].0 in StateFlagNames(x) <==> HasBits(x, StateFlags[i].1)
  {
    StateFlagNamesParts(x);
    StateFlagsUniqueNames();
    SetFlagNamesListed(StateFlags, x, i);
    assert StateFlags[i].0 != "Tcp" && StateFlags[i].0 != "Request";
  }

  /** Extending a table's prefix by its next entry extends the names by at most that entry. */
  lemma SetFlagNamesStep(t: FlagTable, k: int, x: bv32)
    requires 0 <= k < |t|
    ensures SetFlagNames(t[..k + 1], x) == SetFlagNames(t[..k], x) + (if HasBits(x, t[k].1) then [t[k].0] else [])
  {
    assert t[..k + 1][..k] == t[..k];
  }

  /** Value 5 (Response and AdsCommand) reads "Response, AdsCommand, Tcp". */
  lemma StateFlagsExample()
    ensures StateFlagNames(5) == ["Response", "AdsCommand", "Tcp"]
    ensures Join(StateFlagNames(5), ", ") == "Response, AdsCommand, Tcp"
  {
    StateFlagNamesParts(5);
    SetFlagNamesOfFive();
    assert !HasBits(5, 0x40) && HasBits(5, 1);
    assert StateFlagNames(5) == ["Response", "AdsCommand"] + ["Tcp"];
  }

  lemma SetFlagNamesOfFive()
    ensures SetFlagNames(StateFlags, 5) == ["Response", "AdsCommand"]
  {
    var t := StateFlags;
    assert t[..0] == [];
    SetFlagNamesStep(t, 0, 5);
    SetFlagNamesStep(t, 1, 5);
    SetFlagNamesStep(t, 2, 5);
    SetFlagNamesStep(t, 3, 5);
    SetFlagNamesStep(t, 4, 5);
    SetFlagNamesStep(t, 5, 5);
    SetFlagNamesStep(t, 6, 5);
    SetFlagNamesStep(t, 7, 5);
    SetFlagNamesStep(t, 8, 5);
    assert t[..9] == t;
  }

  /** A table none of whose entries is Reported yields no names. */
  lemma {:induction false} NothingReported(t: FlagTable, x: bv32)
    requires forall i :: 0 <= i < |t| ==> !Reported(x, t[i].1)
    ensures ReportedFlagNames(t, x) == []
  {
    if t != [] {
      var t' := t[..|t| - 1];
      assert forall i :: 0 <= i < |t'| ==> t'[i] == t[i];
      NothingReported(t', x);
    }
  }

  /**
   * Symbol flags: None is listed iff the input is exactly 0, any other flag
   * iff all its bits are set; so ContextMask (0x0F00) needs all four of its
   * bits, and an input of 0 yields exactly [None].
   */
  lemma SymbolFlagNames(x: bv32)
    ensures "None" in ReportedFlagNames(SymbolFlags, x) <==> x == 0
    ensures forall i :: 1 <= i < |SymbolFlags| ==>
      (SymbolFlags[i].0 in ReportedFlagNames(SymbolFlags, x) <==> HasBits(x, SymbolFlags[i].1))
  {
    SymbolFlagsUniqueNames();
    assert SymbolFlags[0] == ("None", 0);
    ReportedFlagNamesListed(SymbolFlags, x, 0);
    forall i | 1 <= i < |SymbolFlags|
      ensures SymbolFlags[i].0 in ReportedFlagNames(SymbolFlags, x) <==> HasBits(x, SymbolFlags[i].1)
    {
      ReportedFlagNamesListed(SymbolFlags, x, i);
    }
  }

  /** ContextMask (0x0F00) is listed only when all four of its bits are set. */
  lemma SymbolContextMask(x: bv32)
    ensures "ContextMask" in ReportedFlagNames(SymbolFlags, x) <==>
      (x & 0x100 != 0 && x & 0x200 != 0 && x & 0x400 != 0 && x & 0x800 != 0)
  {
    SymbolFlagsUniqueNames();
    assert SymbolFlags[9] == ("ContextMask", 0x0F00);
    ReportedFlagNamesListed(SymbolFlags, x, 9);
  }

  /** Symbol flags of 0: exactly [None], which comes first in the table. */
  lemma SymbolFlagNamesOfZero()
    ensures ReportedFlagNames(SymbolFlags, 0) == ["None"]
  {
    var head, tail := SymbolFlags[..1], SymbolFlags[1..];
    assert head + tail == SymbolFlags;
    ReportedFlagNamesAppend(head, tail, 0);
    NothingReported(tail, 0);
    assert head[..0] == [];
  }

  /**
   * Data-type flags: None is listed iff the input is exactly 0, any other
   * flag iff all its bits are set.
   */
  lemma DataTypeFlagNames(x: bv32)
    ensures "None" in ReportedFlagNames(DataTypeFlags, x) <==> x == 0
    ensures forall i :: 0 <= i < |DataTypeFlags| - 1 ==>
      (DataTypeFlags[i].0 in ReportedFlagNames(DataTypeFlags, x) <==> HasBits(x, DataTypeFlags[i].1))
  {
    DataTypeFlagsUniqueNames();
    assert DataTypeFlags[21] == ("None", 0);
    ReportedFlagNamesListed(DataTypeFlags, x, 21);
    forall i | 0 <= i < |DataTypeFlags| - 1
      ensures DataTypeFlags[i].0 in ReportedFlagNames(DataTypeFlags, x) <==> HasBits(x, DataTypeFlags[i].1)
    {
      ReportedFlagNamesListed(DataTypeFlags, x, i);
    }
  }

  /** Data-type flags of 0: exactly [None], which comes last in the table. */
  lemma DataTypeFlagNamesOfZero()
    ensures ReportedFlagNames(DataTypeFlags, 0) == ["None"]
  {
    var n := |DataTypeFlags|;
    assert DataTypeFlags[..n - 1] + DataTypeFlags[n - 1..] == DataTypeFlags;
    ReportedFlagNamesAppend(DataTypeFlags[..n - 1], DataTypeFlags[n - 1..], 0);
    NothingReported(DataTypeFlags[..n - 1], 0);
    assert DataTypeFlags[n - 1..][..0] == [];
  }
}
