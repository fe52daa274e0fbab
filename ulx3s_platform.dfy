/**
 * The ULX3S board platform: its IO tables as data and the platform
 * constructor, which validates the FPGA device and the board revision,
 * selects the IO list and forms the part name handed to the Lattice
 * platform.
 *
 * An IO entry is a resource name, an index, its subsignals and its own
 * constraints. A `Pins` constraint keeps its argument strings as written in
 * the table (a string may list several pins separated by spaces).
 */
module Ulx3sPlatform {
  import opened Wrappers

  datatype Constraint =
    | Pins(identifiers: seq<string>)
    | IOStandard(name: string)
    | Misc(setting: string)

  datatype Subsignal = Subsignal(name: string, constraints: seq<Constraint>)

  datatype IoEntry = IoEntry(name: string, number: nat, subsignals: seq<Subsignal>, constraints: seq<Constraint>)

  const Lvcmos33: Constraint := IOStandard("LVCMOS33")
  const PullUp: Constraint := Misc("PULLMODE=UP")
  const SlewFast: Constraint := Misc("SLEWRATE=FAST")

  /** A one-pin resource at 3.3 V. */
  function Pin33(name: string, number: nat, pin: string): IoEntry
  {
    IoEntry(name, number, [], [Pins([pin]), Lvcmos33])
  }

  /** A subsignal on one pin with no constraints of its own. */
  function Sig(name: string, pin: string): Subsignal
  {
    Subsignal(name, [Pins([pin])])
  }

  /** A differential-standard GPDI lane. */
  function GpdiSig(name: string, pin: string): Subsignal
  {
    Subsignal(name, [Pins([pin]), IOStandard("LVCMOS33D"), Misc("DRIVE=4")])
  }

  const IoCommon: seq<IoEntry> := [
    // Clk / Rst
    Pin33("clk25", 0, "G2"),
    Pin33("rst", 0, "R1"),
    // Leds
    Pin33("user_led", 0, "B2"),
    Pin33("user_led", 1, "C2"),
    Pin33("user_led", 2, "C1"),
    Pin33("user_led", 3, "D2"),
    Pin33("user_led", 4, "D1"),
    Pin33("user_led", 5, "E2"),
    Pin33("user_led", 6, "E1"),
    Pin33("user_led", 7, "H3"),
    // Serial
    IoEntry("serial", 0, [
      Subsignal("tx", [Pins(["L4"]), Lvcmos33]),
      Subsignal("rx", [Pins(["M1"]), Lvcmos33])], []),
    // SDR SDRAM
    Pin33("sdram_clock", 0, "F19"),
    IoEntry("sdram", 0, [
      Subsignal("a", [Pins(["M20 M19 L20 L19 K20 K19 K18 J20", "J19 H20 N19 G20 G19"])]),
      Subsignal("dq", [Pins(["J16 L18 M18 N18 P18 T18 T17 U20", "E19 D20 D19 C20 E18 F18 J18 J17"])]),
      Sig("we_n", "T20"),
      Sig("ras_n", "R20"),
      Sig("cas_n", "T19"),
      Sig("cs_n", "P20"),
      Sig("cke", "F20"),
      Sig("ba", "P19 N20"),
      Sig("dm", "U19 E20")], [Lvcmos33, SlewFast]),
    // GPIOs
    IoEntry("gpio", 0, [Sig("p", "B11"), Sig("n", "C11")], [Lvcmos33]),
    IoEntry("gpio", 1, [Sig("p", "A10"), Sig("n", "A11")], [Lvcmos33]),
    IoEntry("gpio", 2, [Sig("p", "A9"), Sig("n", "B10")], [Lvcmos33]),
    IoEntry("gpio", 3, [Sig("p", "B9"), Sig("n", "C10")], [Lvcmos33]),
    // USB
    IoEntry("usb", 0, [Sig("d_p", "D15"), Sig("d_n", "E15"), Sig("pullup", "B12 C12")], [Lvcmos33]),
    // SPIFlash
    IoEntry("spiflash", 0, [
      Sig("cs_n", "R2"), Sig("miso", "V2"), Sig("mosi", "W2"), Sig("wp", "Y2"), Sig("hold", "W1")], [Lvcmos33]),
    IoEntry("spiflash4x", 0, [
      Sig("cs_n", "R2"), Subsignal("dq", [Pins(["W2", "V2", "Y2", "W1"])])], [Lvcmos33]),
    // GPDI
    IoEntry("gpdi", 0, [
      GpdiSig("clk_p", "A17"), GpdiSig("data0_p", "A12"), GpdiSig("data1_p", "A14"), GpdiSig("data2_p", "A16")], []),
    // OLED
    IoEntry("oled_spi", 0, [Sig("clk", "P4"), Sig("mosi", "P3")], [Lvcmos33]),
    IoEntry("oled_ctl", 0, [Sig("dc", "P1"), Sig("resn", "P2"), Sig("csn", "N2")], [Lvcmos33]),
    // Expansion Connectors
    IoEntry("j1", 0, [
      Sig("gn0", "C11"), Sig("gp0", "B11"), Sig("gn1", "A11"), Sig("gp1", "A10"),
      Sig("gn2", "B10"), Sig("gp2", "A9"), Sig("gn3", "C10"), Sig("gp3", "B9"),
      Sig("gn4", "A8"), Sig("gp4", "A7"), Sig("gn5", "B8"), Sig("gp5", "C8"),
      Sig("gn6", "C7"), Sig("gp6", "C6"), Sig("gn7", "B6"), Sig("gp7", "A6"),
      Sig("gn8", "A5"), Sig("gp8", "A4"), Sig("gn9", "B1"), Sig("gp9", "A2"),
      Sig("gn10", "B4"), Sig("gp10", "C4"), Sig("gn11", "E3"), Sig("gp11", "F4"),
      Sig("gn12", "F3"), Sig("gp12", "G3"), Sig("gn13", "G5"), Sig("gp13", "H4")], [Lvcmos33]),
    IoEntry("j2", 0, [
      Sig("gn14", "U17"), Sig("gp14", "U18"), Sig("gn15", "P16"), Sig("gp15", "N17"),
      Sig("gn16", "M17"), Sig("gp16", "N16"), Sig("gn17", "L17"), Sig("gp17", "L16"),
      Sig("gn18", "H17"), Sig("gp18", "H18"), Sig("gn19", "G18"), Sig("gp19", "F17"),
      Sig("gn20", "E17"), Sig("gp20", "D18"), Sig("gn21", "D17"), Sig("gp21", "C18"),
      Sig("gn22", "C15"), Sig("gp22", "B15"), Sig("gn23", "C17"), Sig("gp23", "B17"),
      Sig("gn24", "D16"), Sig("gp24", "C16"), Sig("gn25", "E14"), Sig("gp25", "D14"),
      Sig("gn26", "C13"), Sig("gp26", "B13"), Sig("gn27", "E13"), Sig("gp27", "D13")], [Lvcmos33]),
    IoEntry("lee_sdcard", 0, [
      Sig("clk", "C16"), Subsignal("cmd", [Pins(["B17"]), PullUp])], [SlewFast, Lvcmos33]),
    // Others
    Pin33("wifi_gpio0", 0, "L2"),
    Pin33("ext0p", 0, "B11"),
    Pin33("ext1p", 0, "A10")
  ]

  /** Board revision 1.7: the SD card slot. */
  const Io17: seq<IoEntry> := [
    IoEntry("spisdcard", 0, [
      Sig("clk", "J1"),
      Subsignal("mosi", [Pins(["J3"]), PullUp]),
      Subsignal("cs_n", [Pins(["H1"]), PullUp]),
      Subsignal("miso", [Pins(["K2"]), PullUp])], [SlewFast, Lvcmos33]),
    IoEntry("sdcard", 0, [
      Sig("clk", "J1"),
      Subsignal("cmd", [Pins(["J3"]), PullUp]),
      Subsignal("data", [Pins(["K2 K1 H2 H1"]), PullUp])], [SlewFast, Lvcmos33])
  ]

  /** Board revision 2.0: the SD card slot, rewired, with card-detect and write-protect. */
  const Io20: seq<IoEntry> := [
    IoEntry("spisdcard", 0, [
      Sig("clk", "H2"),
      Subsignal("mosi", [Pins(["J1"]), PullUp]),
      Subsignal("cs_n", [Pins(["K2"]), PullUp]),
      Subsignal("miso", [Pins(["J3"]), PullUp])], [SlewFast, Lvcmos33]),
    IoEntry("sdcard", 0, [
      Sig("clk", "H2"),
      Subsignal("cmd", [Pins(["J1"]), PullUp]),
      Subsignal("data", [Pins(["J3 H1 K1 K2"]), PullUp]),
      Sig("cd", "N5"),
      Sig("wp", "P5")], [SlewFast, Lvcmos33])
  ]

  // ---------------------------------------------------------------------------
  // The platform constructor

  const Devices: seq<string> := ["LFE5U-12F", "LFE5U-25F", "LFE5U-45F", "LFE5U-85F"]
  const Revisions: seq<string> := ["1.7", "2.0"]
  const RevisionIo: map<string, seq<IoEntry>> := map["1.7" := Io17, "2.0" := Io20]

  /** The package and speed grade every ULX3S device comes in. */
  const PackageSuffix: string := "-6BG381C"

  const DefaultDevice: string := "LFE5U-45F"
  const DefaultRevision: string := "2.0"
  const DefaultToolchain: string := "trellis"
  const DefaultClkName: string := "clk25"

  /** The failed assertion of the constructor. */
  datatype ConfigError = UnsupportedDevice(device: string) | UnsupportedRevision(revision: string)

  /** What the constructor hands on to the Lattice platform. */
  datatype Platform = Platform(part: string, io: seq<IoEntry>, toolchain: string)

  function NewPlatform(device: string, revision: string, toolchain: string): (r: Result<Platform, ConfigError>)
    ensures r.Ok? <==> device in Devices && revision in Revisions
    ensures device !in Devices ==> r == Err(UnsupportedDevice(device))
    ensures device in Devices && revision !in Revisions ==> r == Err(UnsupportedRevision(revision))
    ensures r.Ok? ==> r.value.toolchain == toolchain
  {
    if device !in Devices then Err(UnsupportedDevice(device))
    else if revision !in Revisions then Err(UnsupportedRevision(revision))
    else Ok(Platform(device + PackageSuffix, IoCommon + RevisionIo[revision], toolchain))
  }

  /** The device a part name was formed from. */
  function DeviceOf(part: string): string
    requires |part| >= |PackageSuffix|
  {
    part[..|part| - |PackageSuffix|]
  }

  // ---------------------------------------------------------------------------
  // Looking resources up

  /** The first entry with this name and index. */
  function Lookup(io: seq<IoEntry>, name: string, number: nat): (r: Option<IoEntry>)
    ensures r.Some? ==> r.value in io && r.value.name == name && r.value.number == number
    ensures r.None? ==> forall e :: e in io ==> !(e.name == name && e.number == number)
  {
    if io == [] then None
    else if io[0].name == name && io[0].number == number then Some(io[0])
    else Lookup(io[1..], name, number)
  }

  /** The pins of the first subsignal with this name. */
  function SubsignalPins(e: IoEntry, name: string): (r: Option<seq<string>>)
  {
    PinsIn(e.subsignals, name)
  }

  function PinsIn(subs: seq<Subsignal>, name: string): Option<seq<string>>
  {
    if subs == [] then None
    else if subs[0].name == name then PinsOf(subs[0].constraints)
    else PinsIn(subs[1..], name)
  }

  function PinsOf(cs: seq<Constraint>): Option<seq<string>>
  {
    if cs == [] then None
    else if cs[0].Pins? then Some(cs[0].identifiers)
    else PinsOf(cs[1..])
  }

  /** The subsignal lookup stops at the first subsignal with the name. */
  lemma {:induction false} PinsInAt(subs: seq<Subsignal>, name: string, k: int)
    requires 0 <= k < |subs| && subs[k].name == name
    requires forall j :: 0 <= j < k ==> subs[j].name != name
    ensures PinsIn(subs, name) == PinsOf(subs[k].constraints)
  {
    if k > 0 {
      PinsInAt(subs[1..], name, k - 1);
    }
  }

  lemma {:induction false} PinsInAbsent(subs: seq<Subsignal>, name: string)
    requires forall j :: 0 <= j < |subs| ==> subs[j].name != name
    ensures PinsIn(subs, name).None?
  {
    if subs != [] {
      PinsInAbsent(subs[1..], name);
    }
  }

  /** Lookup in a concatenation goes past a prefix that lacks the resource. */
  lemma {:induction false} LookupSkipsPrefix(prefix: seq<IoEntry>, rest: seq<IoEntry>, name: string, number: nat)
    requires forall e :: e in prefix ==> e.name != name
    ensures Lookup(prefix + rest, name, number) == Lookup(rest, name, number)
  {
    if prefix != [] {
      assert prefix[0] in prefix && (prefix + rest)[0] == prefix[0];
      assert (prefix + rest)[1..] == prefix[1..] + rest;
      LookupSkipsPrefix(prefix[1..], rest, name, number);
      assert Lookup(prefix + rest, name, number) == Lookup((prefix + rest)[1..], name, number);
    } else {
      assert prefix + rest == rest;
    }
  }

  /** Lookup in a concatenation stops in a prefix that holds the resource. */
  lemma {:induction false} LookupFindsInPrefix(prefix: seq<IoEntry>, rest: seq<IoEntry>, name: string, number: nat)
    requires Lookup(prefix, name, number).Some?
    ensures Lookup(prefix + rest, name, number) == Lookup(prefix, name, number)
  {
    if !(prefix[0].name == name && prefix[0].number == number) {
      assert (prefix + rest)[1..] == prefix[1..] + rest;
      LookupFindsInPrefix(prefix[1..], rest, name, number);
    }
  }

  // ---------------------------------------------------------------------------
  // Properties of the constructor

  /** The IO list is the common table followed, unchanged and in order, by the revision's table. */
  lemma IoListLayout(device: string, revision: string, toolchain: string)
    requires NewPlatform(device, revision, toolchain).Ok?
    ensures revision in RevisionIo
    ensures var io := NewPlatform(device, revision, toolchain).value.io;
      |io| == |IoCommon| + |RevisionIo[revision]| &&
      io[..|IoCommon|] == IoCommon &&
      io[|IoCommon|..] == RevisionIo[revision]
  {
  }

  /** The part name is the device followed by the package suffix, and gives the device back. */
  lemma PartName(device: string, revision: string, toolchain: string)
    requires NewPlatform(device, revision, toolchain).Ok?
    ensures var part := NewPlatform(device, revision, toolchain).value.part;
      |part| == |device| + |PackageSuffix| &&
      part[|device|..] == PackageSuffix &&
      DeviceOf(part) == device
  {
  }

  /** With no arguments the board is a 45k device on revision 2.0 built with trellis. */
  lemma Defaults()
    ensures NewPlatform(DefaultDevice, DefaultRevision, DefaultToolchain)
      == Ok(Platform("LFE5U-45F-6BG381C", IoCommon + Io20, "trellis"))
  {
    assert DefaultDevice + PackageSuffix == "LFE5U-45F-6BG381C";
  }

  /** Neither SD card resource is in the common table. */
  lemma CommonHasNoSdCard()
    ensures forall e :: e in IoCommon ==> e.name != "spisdcard" && e.name != "sdcard"
  {
    assert forall j :: 0 <= j < |IoCommon| ==> IoCommon[j].name != "spisdcard" && IoCommon[j].name != "sdcard";
  }

  /** The SD card resources a constructed platform offers are its revision's. */
  lemma SdCardFromRevision(device: string, revision: string, toolchain: string, name: string)
    requires NewPlatform(device, revision, toolchain).Ok?
    requires name == "spisdcard" || name == "sdcard"
    ensures Lookup(NewPlatform(device, revision, toolchain).value.io, name, 0) == Lookup(RevisionIo[revision], name, 0)
  {
    CommonHasNoSdCard();
    LookupSkipsPrefix(IoCommon, RevisionIo[revision], name, 0);
  }

  lemma Io17SdCard()
    ensures Lookup(Io17, "spisdcard", 0) == Some(Io17[0]) && Lookup(Io17, "sdcard", 0) == Some(Io17[1])
    ensures SubsignalPins(Io17[0], "clk") == Some(["J1"]) && SubsignalPins(Io17[0], "mosi") == Some(["J3"])
    ensures SubsignalPins(Io17[0], "cs_n") == Some(["H1"]) && SubsignalPins(Io17[0], "miso") == Some(["K2"])
    ensures SubsignalPins(Io17[1], "cd").None? && SubsignalPins(Io17[1], "wp").None?
  {
    var spi, sd := Io17[0].subsignals, Io17[1].subsignals;
    PinsInAt(spi, "clk", 0);
    PinsInAt(spi, "mosi", 1);
    PinsInAt(spi, "cs_n", 2);
    PinsInAt(spi, "miso", 3);
    PinsInAbsent(sd, "cd");
    PinsInAbsent(sd, "wp");
  }

  /** Revision 1.7 wires the SPI-mode SD card clk/mosi/cs_n/miso to J1/J3/H1/K2, with no card-detect or write-protect. */
  lemma SdCardPins17(device: string, toolchain: string)
    requires device in Devices
    ensures var io := NewPlatform(device, "1.7", toolchain).value.io;
      Lookup(io, "spisdcard", 0).Some? &&
      SubsignalPins(Lookup(io, "spisdcard", 0).value, "clk") == Some(["J1"]) &&
      SubsignalPins(Lookup(io, "spisdcard", 0).value, "mosi") == Some(["J3"]) &&
      SubsignalPins(Lookup(io, "spisdcard", 0).value, "cs_n") == Some(["H1"]) &&
      SubsignalPins(Lookup(io, "spisdcard", 0).value, "miso") == Some(["K2"]) &&
      Lookup(io, "sdcard", 0).Some? &&
      SubsignalPins(Lookup(io, "sdcard", 0).value, "cd").None? &&
      SubsignalPins(Lookup(io, "sdcard", 0).value, "wp").None?
  {
    SdCardFromRevision(device, "1.7", toolchain, "spisdcard");
    SdCardFromRevision(device, "1.7", toolchain, "sdcard");
    assert RevisionIo["1.7"] == Io17;
    Io17SdCard();
  }

  lemma Io20SdCard()
    ensures Lookup(Io20, "spisdcard", 0) == Some(Io20[0]) && Lookup(Io20, "sdcard", 0) == Some(Io20[1])
    ensures SubsignalPins(Io20[0], "clk") == Some(["H2"]) && SubsignalPins(Io20[0], "mosi") == Some(["J1"])
    ensures SubsignalPins(Io20[0], "cs_n") == Some(["K2"]) && SubsignalPins(Io20[0], "miso") == Some(["J3"])
    ensures SubsignalPins(Io20[1], "cd") == Some(["N5"]) && SubsignalPins(Io20[1], "wp") == Some(["P5"])
  {
    var spi, sd := Io20[0].subsignals, Io20[1].subsignals;
    PinsInAt(spi, "clk", 0);
    PinsInAt(spi, "mosi", 1);
    PinsInAt(spi, "cs_n", 2);
    PinsInAt(spi, "miso", 3);
    PinsInAt(sd, "cd", 3);
    PinsInAt(sd, "wp", 4);
  }

  /** Revision 2.0 wires them to H2/J1/K2/J3, and its SD card has card-detect on N5 and write-protect on P5. */
  lemma SdCardPins20(device: string, toolchain: string)
    requires device in Devices
    ensures var io := NewPlatform(device, "2.0", toolchain).value.io;
      Lookup(io, "spisdcard", 0).Some? &&
      SubsignalPins(Lookup(io, "spisdcard", 0).value, "clk") == Some(["H2"]) &&
      SubsignalPins(Lookup(io, "spisdcard", 0).value, "mosi") == Some(["J1"]) &&
      SubsignalPins(Lookup(io, "spisdcard", 0).value, "cs_n") == Some(["K2"]) &&
      SubsignalPins(Lookup(io, "spisdcard", 0).value, "miso") == Some(["J3"]) &&
      Lookup(io, "sdcard", 0).Some? &&
      SubsignalPins(Lookup(io, "sdcard", 0).value, "cd") == Some(["N5"]) &&
      SubsignalPins(Lookup(io, "sdcard", 0).value, "wp") == Some(["P5"])
  {
    SdCardFromRevision(device, "2.0", toolchain, "spisdcard");
    SdCardFromRevision(device, "2.0", toolchain, "sdcard");
    assert RevisionIo["2.0"] == Io20;
    Io20SdCard();
  }

  /** The default clock `clk25` is in the IO list of every platform the constructor accepts, on pin G2. */
  lemma DefaultClockPresent(device: string, revision: string, toolchain: string)
    requires NewPlatform(device, revision, toolchain).Ok?
    ensures Lookup(NewPlatform(device, revision, toolchain).value.io, DefaultClkName, 0)
      == Some(Pin33("clk25", 0, "G2"))
  {
    assert IoCommon[0] == Pin33("clk25", 0, "G2");
    LookupFindsInPrefix(IoCommon, RevisionIo[revision], DefaultClkName, 0);
  }
}
