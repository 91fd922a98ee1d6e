# DirtyJTAG clock encoder and cable registry

A Dafny model of two pieces of openFPGALoader:

- the DirtyJTAG driver (`src/dirtyjtag.cpp`): the protocol's command opcodes
  and signal masks, the SET_FREQUENCY command that `setClkFreq` builds and
  sends, and the shift operations, which the driver leaves as stubs with fixed
  return values;
- the cable registry (`src/cable.hpp`): the communication-mode constants and
  the fixed table from cable name to mode and FTDI pin configuration, with a
  lookup by name.

Files:

- `machine_ints.dfy` — module `MachineInts`: `uint8`/`uint16`/`uint32` and the
  truncating conversions the C++ performs implicitly.
- `wrappers.dfy` — module `Wrappers`: `Option`.
- `dirtyjtag.dfy` — module `DirtyJtag`.
- `cable.dfy` — module `Cable`.

`setClkFreq` is modelled as a pure encoder `EncodeFreq` from the frequency in
Hz to `Rejected` (the call throws, nothing is transferred) or `Send(frame)`
(the four bytes of its single bulk write), and `SetClkFreq`, which adds the
return value. What `libusb_bulk_transfer` returns is a parameter of
`SetClkFreq`; the driver returns 0 when it is 0 and -1 for any other value.

The clock is converted with `clkHZ / 1000` into a `uint16_t`, so the value
wraps modulo 65536 kHz before the range check sees it. The check's upper bound
can therefore never trip, and the call is rejected exactly when the wrapped
value is 0. The model follows the code here. A frequency that is not a
multiple of 1 kHz is truncated, not rejected (`clkHZ/1000`, src/dirtyjtag.cpp:83). Also, frequencies of
65 536 000 Hz and above are accepted or rejected on their wrapped value, not
refused as out of range. See "## Findings".

The registry is modelled as its initialiser list in source order
(`CABLE_ENTRIES`) and the map it builds (`CableList`). `TableOf` turns a list
whose names are pairwise distinct into a map with one binding per element. A
C++ `std::map` built from a list with repeated keys keeps one of them, and
which one is unspecified. The model therefore requires distinct names and
proves that the nine names of `cable_list` are distinct. The record type
`FTDIpp_MPSSE::mpsse_bit_config` and `INTERFACE_A` come from
`ftdipp_mpsse.hpp`, which is not part of this model. The record is its seven
initialiser fields in order. The interface is an enumeration with `InterfaceA`
and `InterfaceZero`, the value of a value-initialised field such as the one in
the `"dirtyjtag"` entry.

## Model

| member | source | states |
|---|---|---|
| MachineInts.Narrow16 | src/dirtyjtag.cpp:83 | storing into `uint16_t` keeps a value congruent to the input modulo 65536, leaves values below 65536 unchanged and shrinks larger ones |
| MachineInts.Narrow8 | src/dirtyjtag.cpp:91-92 | storing into `uint8_t` keeps a value congruent modulo 256, leaves values below 256 unchanged and shrinks larger ones |
| DirtyJtag.Opcode | src/dirtyjtag.cpp:31-39 | every command opcode lies in 0x00..0x06 |
| DirtyJtag.CommandOf | src/dirtyjtag.cpp:31-39 | a byte names a command exactly when it is at most 0x06 |
| DirtyJtag.OpcodeRoundTrip | src/dirtyjtag.cpp:31-39 | opcode and command determine each other: decoding an opcode gives back its command, and a byte decodes to a command iff it is that command's opcode |
| DirtyJtag.OpcodesDistinct | src/dirtyjtag.cpp:31-39 | two commands share an opcode iff they are the same command |
| DirtyJtag.Mask | src/dirtyjtag.cpp:41-48 | every signal mask has exactly one bit set, and bit 0 is never that bit |
| DirtyJtag.SignalOf | src/dirtyjtag.cpp:41-48 | decoding a byte gives a signal whose mask is that byte, and `None` only when no signal has that mask |
| DirtyJtag.MasksDisjoint | src/dirtyjtag.cpp:41-48 | masks of two signals share no bit iff the signals differ |
| DirtyJtag.KHz | src/dirtyjtag.cpp:83 | the stored kHz value is congruent to `clkHZ / 1000` modulo 65536, and below 65 536 000 Hz it is the whole number of kHz not above `clkHZ` |
| DirtyJtag.KHzTruncatesThenWraps | src/dirtyjtag.cpp:83 | the kHz value is `(clkHZ / 1000) mod 65536`; below 65 536 000 Hz it is the whole number of kHz not above `clkHZ` (truncated, not rounded or rejected) |
| DirtyJtag.FreqFrame | src/dirtyjtag.cpp:89-94 | the SET_FREQUENCY frame for a kHz value decodes back to that value |
| DirtyJtag.DecodeFreqFrame | src/dirtyjtag.cpp:89-94 | a frame is read only when it has four bytes, opcode `CMD_FREQ` and a zero last byte; the value read has byte 1 as its high byte and byte 2 as its low byte |
| DirtyJtag.EncodeFreq | src/dirtyjtag.cpp:81-94 | rejected iff `(clkHZ / 1000) mod 65536` is 0; an accepted frame is 4 bytes `[CMD_FREQ, hi, lo, 0x00]` with `hi * 256 + lo` equal to that wrapped kHz value |
| DirtyJtag.EncodeFreqRoundTrip | src/dirtyjtag.cpp:89-94 | an accepted frame decodes to exactly the driver's kHz value |
| DirtyJtag.DecodeFreqRoundTrip | src/dirtyjtag.cpp:83-94 | every well-formed SET_FREQUENCY frame with a non-zero payload `k` is exactly what the encoder sends for `k * 1000` Hz |
| DirtyJtag.SetClkFreq | src/dirtyjtag.cpp:81-111 | the call throws (no transfer) exactly when the encoder rejects; otherwise it writes the encoder's frame once and returns 0 iff the transfer status is 0, and -1 otherwise |
| DirtyJtag.SetClkFreqDivideBy5 | src/dirtyjtag.cpp:113-117 | ignores the flag and returns the one-argument result |
| DirtyJtag.DivideBy5Ignored | src/dirtyjtag.cpp:113-117 | the two-argument overload gives the same result for every value of `use_divide_by_5`, equal to the one-argument form |
| DirtyJtag.EncodeFreqChecked | src/dirtyjtag.cpp:83-87 | corrected encoder: rejected iff `clkHZ / 1000` is outside 1..65535, and an accepted frame decodes to exactly `clkHZ / 1000` |
| DirtyJtag.CheckedAgreesBelowWrap | src/dirtyjtag.cpp:83-94 | below 65 536 000 Hz the corrected and the original encoder produce the same result |
| DirtyJtag.NarrowingDefeatsRangeCheck | src/dirtyjtag.cpp:83-87 | as written, 65 536 000 Hz is rejected only by wrapping to 0 kHz, and 65 537 000 Hz is accepted as the 1 kHz frame `[0x02, 0x00, 0x01, 0x00]`; the corrected encoder rejects both |
| DirtyJtag.StoreTms | src/dirtyjtag.cpp:123-135 | returns -1 whatever its arguments |
| DirtyJtag.WriteTms | src/dirtyjtag.cpp:137-147 | returns -1 whatever its arguments |
| DirtyJtag.StoreTdiBits | src/dirtyjtag.cpp:154-165 | returns -1 whatever its arguments |
| DirtyJtag.StoreTdiBytes | src/dirtyjtag.cpp:172-183 | returns -1 whatever its arguments |
| DirtyJtag.WriteTdi | src/dirtyjtag.cpp:185-195 | returns -1 whatever its arguments |
| DirtyJtag.GetBufferSize | src/dirtyjtag.cpp:197-204 | returns -1 |
| DirtyJtag.IsFull | src/dirtyjtag.cpp:206-213 | returns false |
| DirtyJtag.ShiftOperationsAreStubs | src/dirtyjtag.cpp:123-213 | whatever the arguments, `storeTMS`, `writeTMS`, both `storeTDI` overloads, `writeTDI` and `get_buffer_size` return -1, and `isFull` returns false |
| Cable.ModeValue | src/cable.hpp:12-16 | every mode constant lies in -1..1 |
| Cable.ModeOf | src/cable.hpp:12-16 | an integer names a mode exactly when it lies in -1..1 |
| Cable.ModeValuesDistinct | src/cable.hpp:12-16 | each mode constant decodes to its own mode, and two modes share a value iff they are the same mode |
| Cable.TableOf | src/cable.hpp:23-33 | a list with distinct names builds a map whose keys are exactly those names, with one binding per element, and each name bound to its own record |
| Cable.CableEntriesDistinct | src/cable.hpp:23-33 | the nine names in `cable_list`'s initialiser are pairwise distinct |
| Cable.RegisteredNames | src/cable.hpp:23-33 | the registered names are exactly "digilent", "digilent_hs2", "digilent_hs3", "ft2232", "ft231X", "ft232", "ft232RL", "ft4232" and "dirtyjtag" |
| Cable.NamesCount | src/cable.hpp:23-33 | an initialiser list whose names are pairwise distinct mentions exactly as many names as it has entries |
| Cable.CableList | src/cable.hpp:23-33 | the table has exactly nine entries, its keys are the names of the initialiser list, and each is bound to its initialiser record |
| Cable.Lookup | src/cable.hpp:23-33 | lookup finds a record iff the name is one of the registered names, and then it is that name's initialiser record; any other name gives `None` |
| Cable.DigilentLookup | src/cable.hpp:24 | `"digilent"` is serial mode with vid 0x0403, pid 0x6010, interface A and pin bytes 0xe8, 0xeb, 0x00, 0x60 |
| Cable.OnlyDirtyjtagIsCustom | src/cable.hpp:32 | a registered cable is in custom mode iff its name is `"dirtyjtag"`, whose configuration has every field zero |
| Cable.FtdiCablesShareVendor | src/cable.hpp:24-31 | every registered cable that is not custom has vid 0x0403 and interface A |
| Cable.BitbangCables | src/cable.hpp:24-31 | a registered cable is bit-bang iff it is `"ft231X"` or `"ft232RL"`, and serial iff it is neither of those nor `"dirtyjtag"` |
| Cable.DigilentHsVariants | src/cable.hpp:25-26 | `"digilent_hs2"` and `"digilent_hs3"` share vid 0x0403, pid 0x6014 and interface, but their four pin-mask bytes differ |

## Left out

- USB session handling (`libusb_init`, opening by vid/pid, claiming interface 0, close and exit in the constructor and destructor): this is foreign I/O. The vid/pid, endpoints and timeout are kept as constants only.
- The bulk transfer itself: its result is the `transferStatus` parameter of `SetClkFreq`. The number of bytes it reports transferred is ignored by the driver and is not modelled.
- Exceptions and logging: a thrown `std::exception` is the `Rejected` / `Threw` result. Output to `std::cerr` and `std::cout` is dropped.
- The constructor's call to `setClkFreq` and its `verbose` flag: construction runs the same encoder after the USB steps above.
- TMS/TDI buffering, bit packing, implicit flush and capture ordering: the driver does not implement them. Its shift functions are stubs, modelled only by their return values. The `tdo` buffers the write stubs receive are left untouched.
- The FTDI backends, the `JtagInterface` base class, and the layout of `FTDIpp_MPSSE::mpsse_bit_config` and `INTERFACE_A`: ftdipp_mpsse.hpp is not part of this model.
- Lookup through `std::map::operator[]`, which inserts a default record for an unknown name: the callers of `cable_list` are not part of this model. `Lookup` models a find that leaves the table unchanged.
- Cable.TableOf: requires pairwise-distinct names. With repeated keys, C++ leaves unspecified which record `std::map` keeps. The nine names of `cable_list` are proved distinct.

## Findings

| source | as written | input that shows it | evidently intended | confidence | as-written member | corrected member |
|---|---|---|---|---|---|---|
| src/dirtyjtag.cpp:83-87 | `clkKHZ` is a `uint16_t`, so `clkKHZ > 65535` is never true; `clkHZ / 1000` wraps modulo 65536 before the check | `clkHZ = 65537000` is accepted and sent as 1 kHz (`[0x02, 0x00, 0x01, 0x00]`); `clkHZ = 65536000` is rejected only because it wraps to 0 | reject every `clkHZ` with `clkHZ / 1000` outside 1..65535 | high (not executed) | DirtyJtag.NarrowingDefeatsRangeCheck | DirtyJtag.EncodeFreqChecked |

`EncodeFreq` and `SetClkFreq` model the driver as written. `EncodeFreqChecked`
is the corrected encoder. `CheckedAgreesBelowWrap` shows that the two differ
only from 65 536 000 Hz upwards.
