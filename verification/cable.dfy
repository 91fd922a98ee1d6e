/**
 * The cable registry (src/cable.hpp): the communication modes and the fixed
 * table from cable name to mode and FTDI pin configuration.
 *
 * The configuration record `FTDIpp_MPSSE::mpsse_bit_config` and the constant
 * `INTERFACE_A` are declared in ftdipp_mpsse.hpp, which is not part of this
 * model; the record is taken as its seven initialiser fields in order and the
 * interface as an opaque enumeration value.
 */
module Cable {
  import opened Wrappers
  import opened MachineInts

  /** How the programmer talks to a cable: the anonymous enum of the `MODE_*` constants. */
  datatype Mode = FtdiBitbang | FtdiSerial | Custom

  /** The integer each mode constant carries. */
  function ModeValue(m: Mode): (r: int)
    ensures -1 <= r <= 1
  {
    match m
    case FtdiBitbang => 0
    case FtdiSerial => 1
    case Custom => -1
  }

  /** The mode an integer stands for, if any. */
  function ModeOf(v: int): (r: Option<Mode>)
    ensures r.Some? <==> -1 <= v <= 1
  {
    if v == 0 then Some(FtdiBitbang)
    else if v == 1 then Some(FtdiSerial)
    else if v == -1 then Some(Custom)
    else None
  }

  /** The three mode constants are distinct and each decodes to its mode. */
  lemma ModeValuesDistinct(a: Mode, b: Mode)
    ensures ModeOf(ModeValue(a)) == Some(a)
    ensures ModeValue(a) == ModeValue(b) <==> a == b
  {
  }

  /**
   * The FTDI interface field: `InterfaceA` is the header's `INTERFACE_A`;
   * `InterfaceZero` is the value a value-initialised record holds.
   */
  datatype Interface = InterfaceZero | InterfaceA

  /**
   * The pin configuration of a cable, in initialiser order: USB vendor and
   * product ids, interface, then the low-byte value and direction masks and
   * the high-byte value and direction masks.
   */
  datatype BitConfig = BitConfig(
    vid: nat, pid: nat, interface: Interface,
    bitLowVal: uint8, bitLowDir: uint8, bitHighVal: uint8, bitHighDir: uint8)

  /** The four pin-mask bytes of a configuration, in initialiser order. */
  function PinMasks(c: BitConfig): (uint8, uint8, uint8, uint8)
  {
    (c.bitLowVal, c.bitLowDir, c.bitHighVal, c.bitHighDir)
  }

  /** A value-initialised configuration: every numeric field zero. */
  const ZERO_CONFIG: BitConfig := BitConfig(0, 0, InterfaceZero, 0, 0, 0, 0)

  /** A registry entry (`cable_t`). */
  datatype CableT = CableT(mode: Mode, config: BitConfig)

  /** Vendor id shared by every FTDI cable. */
  const FTDI_VID: nat := 0x0403

  /** The initialiser list of `cable_list`, in source order. */
  const CABLE_ENTRIES: seq<(string, CableT)> := [
    ("digilent",     CableT(FtdiSerial,  BitConfig(0x0403, 0x6010, InterfaceA, 0xe8, 0xeb, 0x00, 0x60))),
    ("digilent_hs2", CableT(FtdiSerial,  BitConfig(0x0403, 0x6014, InterfaceA, 0xe8, 0xeb, 0x00, 0x60))),
    ("digilent_hs3", CableT(FtdiSerial,  BitConfig(0x0403, 0x6014, InterfaceA, 0x88, 0x8B, 0x20, 0x30))),
    ("ft2232",       CableT(FtdiSerial,  BitConfig(0x0403, 0x6010, InterfaceA, 0x08, 0x0B, 0x08, 0x0B))),
    ("ft231X",       CableT(FtdiBitbang, BitConfig(0x0403, 0x6015, InterfaceA, 0x00, 0x00, 0x00, 0x00))),
    ("ft232",        CableT(FtdiSerial,  BitConfig(0x0403, 0x6014, InterfaceA, 0x08, 0x0B, 0x08, 0x0B))),
    ("ft232RL",      CableT(FtdiBitbang, BitConfig(0x0403, 0x6001, InterfaceA, 0x08, 0x0B, 0x08, 0x0B))),
    ("ft4232",       CableT(FtdiSerial,  BitConfig(0x0403, 0x6011, InterfaceA, 0x08, 0x0B, 0x08, 0x0B))),
    ("dirtyjtag",    CableT(Custom,      ZERO_CONFIG))
  ]

  /** No name occurs twice in an initialiser list. */
  predicate NamesDistinct<K(==), V>(entries: seq<(K, V)>)
  {
    forall i, j :: 0 <= i < j < |entries| ==> entries[i].0 != entries[j].0
  }

  /** The names an initialiser list mentions. */
  function NamesOf<K(==), V>(entries: seq<(K, V)>): set<K>
  {
    set i | 0 <= i < |entries| :: entries[i].0
  }

  /**
   * Splitting off the last element of a list with distinct names: the rest
   * still has distinct names, none of which is the last one.
   */
  lemma SplitLast<K, V>(entries: seq<(K, V)>)
    requires |entries| > 0 && NamesDistinct(entries)
    ensures NamesDistinct(entries[..|entries| - 1])
    ensures entries[|entries| - 1].0 !in NamesOf(entries[..|entries| - 1])
    ensures NamesOf(entries) == NamesOf(entries[..|entries| - 1]) + {entries[|entries| - 1].0}
    ensures |NamesOf(entries)| == |NamesOf(entries[..|entries| - 1])| + 1
  {
  }

  /** A list with distinct names mentions as many names as it has elements. */
  lemma {:induction false} NamesCount<K, V>(entries: seq<(K, V)>)
    requires NamesDistinct(entries)
    ensures |NamesOf(entries)| == |entries|
    decreases |entries|
  {
    if |entries| > 0 {
      SplitLast(entries);
      NamesCount(entries[..|entries| - 1]);
    }
  }

  /**
   * The map an initialiser list with distinct names builds: one binding per
   * element, each name bound to its own record and no other key present.
   */
  function TableOf<K(==), V>(entries: seq<(K, V)>): (m: map<K, V>)
    requires NamesDistinct(entries)
    ensures m.Keys == NamesOf(entries)
    ensures |m| == |entries|
    ensures forall i :: 0 <= i < |entries| ==> m[entries[i].0] == entries[i].1
  {
    NamesCount(entries);
    map i | 0 <= i < |entries| :: entries[i].0 := entries[i].1
  }

  /** The names the registry knows. */
  const CABLE_NAMES: set<string> := NamesOf(CABLE_ENTRIES)

  /** The initialiser list names every registered cable exactly once. */
  lemma CableEntriesDistinct()
    ensures NamesDistinct(CABLE_ENTRIES)
  {
  }

  /** The nine names of `cable_list`. */
  lemma RegisteredNames()
    ensures CABLE_NAMES == {"digilent", "digilent_hs2", "digilent_hs3", "ft2232", "ft231X",
                            "ft232", "ft232RL", "ft4232", "dirtyjtag"}
  {
    var e := CABLE_ENTRIES;
    assert e[0].0 == "digilent" && e[1].0 == "digilent_hs2" && e[2].0 == "digilent_hs3";
    assert e[3].0 == "ft2232" && e[4].0 == "ft231X" && e[5].0 == "ft232";
    assert e[6].0 == "ft232RL" && e[7].0 == "ft4232" && e[8].0 == "dirtyjtag";
  }

  /** `cable_list`. */
  function CableList(): (m: map<string, CableT>)
    ensures m.Keys == CABLE_NAMES
    ensures |m| == 9
    ensures forall i :: 0 <= i < |CABLE_ENTRIES| ==> m[CABLE_ENTRIES[i].0] == CABLE_ENTRIES[i].1
  {
    CableEntriesDistinct();
    TableOf(CABLE_ENTRIES)
  }

  /**
   * Looks a cable up by name: the registered record, or `None` (never a
   * partial record) for a name the table does not hold.
   */
  function Lookup(name: string): (r: Option<CableT>)
    ensures r.Some? <==> name in CABLE_NAMES
    ensures forall i :: 0 <= i < |CABLE_ENTRIES| && CABLE_ENTRIES[i].0 == name ==> r == Some(CABLE_ENTRIES[i].1)
  {
    var cables := CableList();
    if name in cables then Some(cables[name]) else None
  }

  /** A name the registry finds sits at some position of the initialiser list. */
  lemma LookupEntry(name: string) returns (i: nat)
    requires Lookup(name).Some?
    ensures i < |CABLE_ENTRIES| && CABLE_ENTRIES[i].0 == name
    ensures Lookup(name) == Some(CABLE_ENTRIES[i].1)
  {
    i :| 0 <= i < |CABLE_ENTRIES| && CABLE_ENTRIES[i].0 == name;
  }

  /** The "digilent" cable: serial MPSSE at 0x0403:0x6010 on interface A. */
  lemma DigilentLookup()
    ensures Lookup("digilent") == Some(CableT(FtdiSerial, BitConfig(0x0403, 0x6010, InterfaceA, 0xe8, 0xeb, 0x00, 0x60)))
  {
    assert CABLE_ENTRIES[0].0 == "digilent";
  }

  /** "dirtyjtag" is the one custom cable, and its configuration is all zero. */
  lemma OnlyDirtyjtagIsCustom(name: string)
    ensures Lookup(name).Some? && Lookup(name).value.mode == Custom <==> name == "dirtyjtag"
    ensures Lookup("dirtyjtag") == Some(CableT(Custom, ZERO_CONFIG))
    ensures ZERO_CONFIG.vid == 0 && ZERO_CONFIG.pid == 0 && ZERO_CONFIG.interface == InterfaceZero
    ensures ZERO_CONFIG.bitLowVal == 0 && ZERO_CONFIG.bitLowDir == 0
    ensures ZERO_CONFIG.bitHighVal == 0 && ZERO_CONFIG.bitHighDir == 0
  {
    assert CABLE_ENTRIES[8].0 == "dirtyjtag";
    if Lookup(name).Some? {
      var i := LookupEntry(name);
      assert CABLE_ENTRIES[i].1.mode == Custom <==> i == 8;
    }
  }

  /** Every FTDI cable uses the FTDI vendor id and interface A. */
  lemma FtdiCablesShareVendor(name: string)
    ensures Lookup(name).Some? && Lookup(name).value.mode != Custom ==>
              Lookup(name).value.config.vid == FTDI_VID && Lookup(name).value.config.interface == InterfaceA
  {
  }

  /** Exactly "ft231X" and "ft232RL" use bit-bang mode; every other FTDI cable is serial. */
  lemma BitbangCables(name: string)
    requires name in CABLE_NAMES
    ensures Lookup(name).value.mode == FtdiBitbang <==> name in {"ft231X", "ft232RL"}
    ensures Lookup(name).value.mode == FtdiSerial <==> name !in {"ft231X", "ft232RL", "dirtyjtag"}
  {
  }

  /** The two Digilent HS cables share USB ids and interface but not pin-mask bytes. */
  lemma DigilentHsVariants()
    ensures Lookup("digilent_hs2").Some? && Lookup("digilent_hs3").Some?
    ensures Lookup("digilent_hs2").value.config.vid == Lookup("digilent_hs3").value.config.vid == 0x0403
    ensures Lookup("digilent_hs2").value.config.pid == Lookup("digilent_hs3").value.config.pid == 0x6014
    ensures Lookup("digilent_hs2").value.config.interface == Lookup("digilent_hs3").value.config.interface
    ensures PinMasks(Lookup("digilent_hs2").value.config) != PinMasks(Lookup("digilent_hs3").value.config)
  {
    assert CABLE_ENTRIES[1].0 == "digilent_hs2" && CABLE_ENTRIES[2].0 == "digilent_hs3";
  }
}
