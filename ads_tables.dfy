/**
 * The constant registry of the ADS/AMS protocol: header lengths, the
 * enumerated tables (name, value) in declaration order, the reverse lookup
 * every table offers, and the error-code table.
 */
module AdsTables {

  import opened Wrappers

  /** A table is the list of its (name, value) entries in declaration order. */
  type Table = seq<(string, int)>

  /** The marker the reverse lookups return for a value no entry carries. */
  const Unknown: string := "UNKNOWN"

  // Fixed lengths of the AMS/ADS header parts, in bytes.
  const AmsTcpHeaderLength: nat := 6
  const AmsHeaderLength: nat := 32
  const AmsNetIdLength: nat := 6
  const AdsIndexOffsetLength: nat := 4
  const AdsIndexGroupLength: nat := 4
  /** Largest invoke ID: the invoke ID is an unsigned 32-bit integer. */
  const AdsInvokeIdMaxValue: nat := 0xFFFF_FFFF

  const AmsHeaderFlags: Table := [
    ("AMS_TCP_PORT_AMS_CMD", 0), ("AMS_TCP_PORT_CLOSE", 1), ("AMS_TCP_PORT_CONNECT", 4096),
    ("AMS_TCP_PORT_ROUTER_NOTE", 4097), ("GET_LOCAL_NETID", 4098)
  ]

  /** Invalid and None share the value 0. */
  const AdsCommands: Table := [
    ("Invalid", 0), ("None", 0), ("ReadDeviceInfo", 1), ("Read", 2), ("Write", 3), ("ReadState", 4),
    ("WriteControl", 5), ("AddNotification", 6), ("DeleteNotification", 7), ("Notification", 8),
    ("ReadWrite", 9)
  ]

  /** Notification transmission modes; the table has no reverse lookup. */
  const AdsTransModes: Table := [
    ("None", 0), ("ClientCycle", 1), ("ClientOnChange", 2), ("Cyclic", 3), ("OnChange", 4),
    ("CyclicInContext", 5), ("OnChangeInContext", 6)
  ]

  const AdsStates: Table := [
    ("Invalid", 0), ("Idle", 1), ("Reset", 2), ("Initialize", 3), ("Start", 4), ("Run", 5),
    ("Stop", 6), ("SaveConfig", 7), ("LoadConfig", 8), ("PowerFailure", 9), ("PowerGood", 10),
    ("Error", 11), ("Shutdown", 12), ("Susped", 13), ("Resume", 14), ("Config", 15),
    ("Reconfig", 16), ("Stopping", 17), ("Incompatible", 18), ("Exception", 19)
  ]

  const AdsReservedIndexGroups: Table := [
    ("PlcRWIB", 0x4000), ("PlcRWOB", 0x4010), ("PlcRWMB", 0x4020), ("PlcRWRB", 0x4030),
    ("PlcRWDB", 0x4040), ("SymbolTable", 0xF000), ("SymbolName", 0xF001),
    ("SymbolValue", 0xF002), ("SymbolHandleByName", 0xF003), ("SymbolValueByName", 0xF004),
    ("SymbolValueByHandle", 0xF005), ("SymbolReleaseHandle", 0xF006),
    ("SymbolInfoByName", 0xF007), ("SymbolVersion", 0xF008), ("SymbolInfoByNameEx", 0xF009),
    ("SymbolDownload", 0xF00A), ("SymbolUpload", 0xF00B), ("SymbolUploadInfo", 0xF00C),
    ("SymbolDownload2", 0xF00D), ("SymbolDataTypeUpload", 0xF00E), ("SymbolUploadInfo2", 0xF00F),
    ("SymbolNote", 0xF010), ("DataDataTypeInfoByNameEx", 0xF011), ("IOImageRWIB", 0xF020),
    ("IOImageRWIX", 0xF021), ("IOImageRWOB", 0xF030), ("IOImageRWOX", 0xF031),
    ("IOImageClearI", 0xF040), ("IOImageClearO", 0xF050), ("SumCommandRead", 0xF080),
    ("SumCommandWrite", 0xF081), ("SumCommandReadWrite", 0xF082), ("SumCommandReadEx", 0xF083),
    ("SumCommandReadEx2", 0xF084), ("SumCommandAddDevNote", 0xF085),
    ("SumCommandDelDevNote", 0xF086), ("DeviceData", 0xF100)
  ]

  const AdsDataTypes: Table := [
    ("ADST_VOID", 0), ("ADST_INT16", 2), ("ADST_INT32", 3), ("ADST_REAL32", 4), ("ADST_REAL64", 5),
    ("ADST_INT8", 16), ("ADST_UINT8", 17), ("ADST_UINT16", 18), ("ADST_UINT32", 19),
    ("ADST_INT64", 20), ("ADST_UINT64", 21), ("ADST_STRING", 30), ("ADST_WSTRING", 31),
    ("ADST_REAL80", 32), ("ADST_BIT", 33), ("ADST_MAXTYPES", 34), ("ADST_BIGTYPE", 65)
  ]

  const AmsRouterStates: Table := [("STOP", 0), ("START", 1), ("REMOVED", 2)]

  /**
   * The ADS error table, indexed by error code: the description of a code
   * the table defines, None for any other code.
   */
  function AdsError(code: int): (r: Option<string>) {
    match code
    case 0 => Some("No error")
    case 1 => Some("Internal error")
    case 2 => Some("No Rtime")
    case 3 => Some("Allocation locked memory error")
    case 4 => Some("Insert mailbox error")
    case 5 => Some("Wrong receive HMSG")
    case 6 => Some("Target port not found")
    case 7 => Some("Target machine not found")
    case 8 => Some("Unknown command ID")
    case 9 => Some("Bad task ID")
    case 10 => Some("No IO")
    case 11 => Some("Unknown ADS command")
    case 12 => Some("Win 32 error")
    case 13 => Some("Port not connected")
    case 14 => Some("Invalid ADS length")
    case 15 => Some("Invalid AMS Net ID")
    case 16 => Some("Low Installation level")
    case 17 => Some("No debug available")
    case 18 => Some("Port disabled")
    case 19 => Some("Port already connected")
    case 20 => Some("ADS Sync Win32 error")
    case 21 => Some("ADS Sync Timeout")
    case 22 => Some("ADS Sync AMS error")
    case 23 => Some("ADS Sync no index map")
    case 24 => Some("Invalid ADS port")
    case 25 => Some("No memory")
    case 26 => Some("TCP send error")
    case 27 => Some("Host unreachable")
    case 28 => Some("Invalid AMS fragment")
    case 1280 => Some("No locked memory can be allocated")
    case 1281 => Some("The size of the router memory could not be changed")
    case 1282 => Some("The mailbox has reached the maximum number of possible messages. The current sent message was rejected")
    case 1283 => Some("The mailbox has reached the maximum number of possible messages.")
    case 1284 => Some("Unknown port type")
    case 1285 => Some("Router is not initialized")
    case 1286 => Some("The desired port number is already assigned")
    case 1287 => Some("Port not registered")
    case 1288 => Some("The maximum number of Ports reached")
    case 1289 => Some("Invalid port")
    case 1290 => Some("TwinCAT Router not active")
    case 1792 => Some("General device error")
    case 1793 => Some("Service is not supported by server")
    case 1794 => Some("Invalid index group")
    case 1795 => Some("Invalid index offset")
    case 1796 => Some("Reading/writing not permitted")
    case 1797 => Some("Parameter size not correct")
    case 1798 => Some("Invalid parameter value(s)")
    case 1799 => Some("Device is not in a ready state")
    case 1800 => Some("Device is busy")
    case 1801 => Some("Invalid context (must be in Windows)")
    case 1802 => Some("Out of memory")
    case 1803 => Some("Invalid parameter value(s)")
    case 1804 => Some("Not found (files, ...)")
    case 1805 => Some("Syntax error in command or file")
    case 1806 => Some("Objects do not match")
    case 1807 => Some("Object already exists")
    case 1808 => Some("Symbol not found")
    case 1809 => Some("Symbol version invalid")
    case 1810 => Some("Server is in invalid state")
    case 1811 => Some("AdsTransMode not supported")
    case 1812 => Some("Notification handle is invalid")
    case 1813 => Some("Notification client not registered")
    case 1814 => Some("No more notification handles")
    case 1815 => Some("Size for watch too big")
    case 1816 => Some("Device not initialized")
    case 1817 => Some("Device has a timeout")
    case 1818 => Some("Query interface failed")
    case 1819 => Some("Wrong interface required")
    case 1820 => Some("Class ID is invalid")
    case 1821 => Some("Object ID is invalid")
    case 1822 => Some("Request is pending")
    case 1823 => Some("Request is aborted")
    case 1824 => Some("Signal warning")
    case 1825 => Some("Invalid array index")
    case 1826 => Some("Symbol not active")
    case 1827 => Some("Access denied")
    case 1828 => Some("Missing license")
    case 1829 => Some("License expired")
    case 1830 => Some("License exceeded")
    case 1831 => Some("License invalid")
    case 1832 => Some("License invalid system id")
    case 1833 => Some("License not time limited")
    case 1834 => Some("License issue time in the future")
    case 1835 => Some("License time period to long")
    case 1836 => Some("Exception occured during system start")
    case 1837 => Some("License file read twice")
    case 1838 => Some("Invalid signature")
    case 1839 => Some("Public key certificate")
    case 1856 => Some("Error class <client error>")
    case 1857 => Some("Invalid parameter at service")
    case 1858 => Some("Polling list is empty")
    case 1859 => Some("Var connection already in use")
    case 1860 => Some("Invoke ID in use")
    case 1861 => Some("Timeout elapsed")
    case 1862 => Some("Error in win32 subsystem")
    case 1863 => Some("Invalid client timeout value")
    case 1864 => Some("Ads-port not opened")
    case 1872 => Some("Internal error in ads sync")
    case 1873 => Some("Hash table overflow")
    case 1874 => Some("Key not found in hash")
    case 1875 => Some("No more symbols in cache")
    case 1876 => Some("Invalid response received")
    case 1877 => Some("Sync port is locked")
    case 4096 => Some("Internal fatal error in the TwinCAT real-time system")
    case 4097 => Some("Timer value not vaild")
    case 4098 => Some("Task pointer has the invalid value ZERO")
    case 4099 => Some("Task stack pointer has the invalid value ZERO")
    case 4100 => Some("The demand task priority is already assigned")
    case 4101 => Some("No more free TCB (Task Control Block) available. Maximum number of TCBs is 64")
    case 4102 => Some("No more free semaphores available. Maximum number of semaphores is 64")
    case 4103 => Some("No more free queue available. Maximum number of queue is 64")
    case 4109 => Some("An external synchronization interrupt is already applied")
    case 4110 => Some("No external synchronization interrupt applied")
    case 4111 => Some("The apply of the external synchronization interrupt failed")
    case 4112 => Some("Call of a service function in the wrong context")
    case 4119 => Some("Intel VT-x extension is not supported")
    case 4120 => Some("Intel VT-x extension is not enabled in system BIOS")
    case 4121 => Some("Missing function in Intel VT-x extension")
    case 4122 => Some("Enabling Intel VT-x fails")
    case _ => None
  }

  /**
   * Reverse lookup (the tables' toString): the name of the first entry, in
   * declaration order, whose value is v, or Unknown when no entry has it.
   */
  function NameOf(t: Table, v: int): (r: string)
    ensures (forall i :: 0 <= i < |t| ==> t[i].1 != v) ==> r == Unknown
    ensures forall i :: 0 <= i < |t| && t[i].1 == v && NoEarlierMatch(t, i, v) ==> r == t[i].0
  {
    if t == [] then Unknown
    else if t[0].1 == v then t[0].0
    else NameOf(t[1..], v)
  }

  /** No entry before position i carries the value v. */
  predicate NoEarlierMatch(t: Table, i: int, v: int)
    requires 0 <= i <= |t|
  {
    forall j :: 0 <= j < i ==> t[j].1 != v
  }

  /** The values strictly increase in declaration order. */
  predicate Ascending(t: Table) {
    forall i :: 0 < i < |t| ==> t[i - 1].1 < t[i].1
  }

  /** Every name resolves back from its value. */
  predicate LookupInverts(t: Table) {
    forall i :: 0 <= i < |t| ==> NameOf(t, t[i].1) == t[i].0
  }

  lemma {:induction false} AscendingBelow(t: Table, j: int, i: int)
    requires Ascending(t)
    requires 0 <= j < i < |t|
    ensures t[j].1 < t[i].1
  {
    if j < i - 1 {
      AscendingBelow(t, j, i - 1);
    }
  }

  /** In a table with strictly increasing values, the lookup inverts every entry. */
  lemma AscendingLookupInverts(t: Table)
    requires Ascending(t)
    ensures LookupInverts(t)
  {
    forall i | 0 <= i < |t|
      ensures NameOf(t, t[i].1) == t[i].0
    {
      forall j | 0 <= j < i
        ensures t[j].1 != t[i].1
      {
        AscendingBelow(t, j, i);
      }
      assert NoEarlierMatch(t, i, t[i].1);
    }
  }

  /** Each name of the AMS header flag table is given back from its value. */
  lemma AmsHeaderFlagsLookupInverts()
    ensures LookupInverts(AmsHeaderFlags)
  {
    assert Ascending(AmsHeaderFlags);
    AscendingLookupInverts(AmsHeaderFlags);
  }

  /** Each name of the ADS state table is given back from its value. */
  lemma AdsStatesLookupInverts()
    ensures LookupInverts(AdsStates)
  {
    assert Ascending(AdsStates);
    AscendingLookupInverts(AdsStates);
  }

  /** Each name of the reserved index group table is given back from its value. */
  lemma AdsReservedIndexGroupsLookupInverts()
    ensures LookupInverts(AdsReservedIndexGroups)
  {
    assert Ascending(AdsReservedIndexGroups);
    AscendingLookupInverts(AdsReservedIndexGroups);
  }

  /** Each name of the ADS data type table is given back from its value. */
  lemma AdsDataTypesLookupInverts()
    ensures LookupInverts(AdsDataTypes)
  {
    assert Ascending(AdsDataTypes);
    AscendingLookupInverts(AdsDataTypes);
  }

  /** Each name of the AMS router state table is given back from its value. */
  lemma AmsRouterStatesLookupInverts()
    ensures LookupInverts(AmsRouterStates)
  {
    assert Ascending(AmsRouterStates);
    AscendingLookupInverts(AmsRouterStates);
  }

  /** The command value 0 is reported as Invalid, never as None. */
  lemma AdsCommandZero()
    ensures NameOf(AdsCommands, 0) == "Invalid"
  {
  }

  /** Every command name after Invalid and None is given back from its value. */
  lemma AdsCommandLookupInverts()
    ensures forall i :: 2 <= i < |AdsCommands| ==> NameOf(AdsCommands, AdsCommands[i].1) == AdsCommands[i].0
  {
    var rest := AdsCommands[1..];
    assert Ascending(rest);
    AscendingLookupInverts(rest);
    forall i | 2 <= i < |AdsCommands|
      ensures NameOf(AdsCommands, AdsCommands[i].1) == AdsCommands[i].0
    {
      assert AdsCommands[i] == rest[i - 1];
      AscendingBelow(rest, 0, i - 1);
    }
  }

  /** No value outside 0..9 names a command. */
  lemma AdsCommandOutOfRange(v: int)
    requires v < 0 || 9 < v
    ensures NameOf(AdsCommands, v) == Unknown
  {
  }

  /** A few codes of the error table, and one it does not define. */
  lemma AdsErrorEntries()
    ensures AdsError(0) == Some("No error")
    ensures AdsError(1808) == Some("Symbol not found")
    ensures AdsError(99999) == None
  {
  }
}
