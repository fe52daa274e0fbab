# Nereid SoC glue and ULX3S platform: a Dafny model

This project models the two pieces of the LiteX board repository that carry
logic of their own.

**The Nereid SoC** (`litex_boards/partner/targets/nereid.py`):

- `PCIeUART` is the UART register bridge tunnelled over PCIe. Its RX side mirrors the byte stream that the SoC's UART core transmits (`sink`) into status registers. A write strobe on `rx_ready` is that stream's `ready` for one cycle. Its TX side is a one-bit clocked register, `source.valid`. A `tx_valid` write strobe sets it. Downstream `ready` clears it, and the strobe wins when both occur in the same cycle. `tx_ready` reads as its negation. The outgoing byte is wired to the `tx_data` storage register. Files: `pcie_uart.dfy`, with the class `PCIeUART`, a per-clock `Step`, and the combinational `Outputs`.
- MSI allocation sorts the interrupt sources by name. The i-th source drives MSI line i and is published as `<NAME>_INTERRUPT = i`. File: `msi_allocation.dfy`, with the loop as the method `AllocateMsis`. It is proved equal to the functions `MsiLines` and `MsiConstants`, which state what it computes.
- The LED heartbeat is a free-running 32-bit `sys_counter`. Bit 26 drives green, and red and blue are tied to 1. File: `led_heartbeat.dfy`.
- The composition chooses exactly one UART route. The SoC's own UART is built without the bridge. The bridge, with a UART core on an RS-232 PHY interface, is built without the SoC's own UART. File: `nereid_soc.dfy`.

**The ULX3S platform** (`litex_boards/platforms/radiona_ulx3s.py`):

- The IO tables are plain data: `IoCommon`, `Io17` and `Io20`.
- `NewPlatform` models the constructor. It accepts four ECP5 devices and two board revisions, and fails otherwise. On success it returns the part name (the device plus `-6BG381C`), the IO list (the common table followed by the revision's table) and the toolchain. File: `ulx3s_platform.dfy`.

Modelling conventions:

- A CSR write strobe (`CSR().re`) is an input that is high in the cycle of the write.
- A `CSRStorage` is a register. A host write to it is an optional input, and the register takes the value at the clock edge.
- All of this logic is in one clock domain, and every register updates once per `Step`/`Tick`.
- Python's dictionary `msis` is a sequence of `(name, signal)` pairs with distinct names. Its insertion order is kept.
- Python's `sorted` is modelled by an insertion sort by name under Python's string order (`LexLess`: by code point, a proper prefix first). Because the names of a dictionary are distinct, sorting the pairs only compares names. `Sort` ensures a strictly ascending permutation of its input, and only one such sequence exists, so any correct sort gives the same result.
- A `Pins(...)` constraint keeps its argument strings as written. LiteX later splits them on whitespace.
- The constructor's `assert`s become a `Result`. A bad device is reported first, as the first `assert` is.

Behaviour on misuse, as `nereid.py:149-157` does it:

- The bridge has six registers: `rx_valid`, `rx_data`, `rx_ready`, `tx_ready`, `tx_valid` and `tx_data`.
- A `tx_valid` strobe while a byte is in flight is ignored (`StrobeWhileBusyIsIgnored`).
- A `tx_data` write while a byte is in flight is what gets presented (`TxDataNotLatched`).
- A strobe in the cycle downstream takes the byte keeps `valid` high, so `tx_data` is presented again (`StrobeHasPriority`).

## Model

| member | source | states |
|---|---|---|
| PcieUart.NextSourceValid | litex_boards/partner/targets/nereid.py:148-154 | the next `source.valid` is 1 iff `tx_valid` is written, or it was 1 and downstream was not ready |
| PcieUart.PCIeUART.constructor | litex_boards/partner/targets/nereid.py:128-136 | the bridge starts with `source.valid` 0 and `tx_data` 0 |
| PcieUart.PCIeUART.Step | litex_boards/partner/targets/nereid.py:148-154 | one clock edge: the new state is `Next` of the old state and the cycle's inputs |
| PcieUart.TxStatusWiring | litex_boards/partner/targets/nereid.py:155-158 | `tx_ready` always equals the negation of `source.valid`; the byte presented is the current `tx_data` storage |
| PcieUart.StrobeHasPriority | litex_boards/partner/targets/nereid.py:149-152 | after a `tx_valid` write `source.valid` is 1, even when downstream took a byte in that same cycle |
| PcieUart.ValidHolds | litex_boards/partner/targets/nereid.py:149-154 | with neither a strobe nor downstream `ready`, `source.valid` keeps its value |
| PcieUart.ValidChangesOnlyOnEvents | litex_boards/partner/targets/nereid.py:149-154 | `source.valid` falls exactly when ready is high without a strobe, and rises exactly on a strobe |
| PcieUart.StrobeWhileBusyIsIgnored | litex_boards/partner/targets/nereid.py:149-150 | while a byte is in flight and not taken, a `tx_valid` write has no effect at all: there is no second buffered byte |
| PcieUart.TxDataNotLatched | litex_boards/partner/targets/nereid.py:157 | rewriting `tx_data` while a byte is in flight changes the byte presented on the next cycle |
| PcieUart.RxAcknowledge | litex_boards/partner/targets/nereid.py:141-145 | `rx_valid`/`rx_data` mirror the sink; the sink moves a byte exactly when `rx_ready` is written while `rx_valid` reads 1, and that byte is the one `rx_data` shows |
| PcieUart.RxReadyPulses | litex_boards/partner/targets/nereid.py:143 | over any run, `sink.ready` is high in exactly the cycles in which `rx_ready` is written |
| PcieUart.TxHeld | litex_boards/partner/targets/nereid.py:148-157 | after a strobe with byte b staged, `valid` and b stay presented while downstream is not ready and `tx_data` is not rewritten |
| PcieUart.TxDelivery | litex_boards/partner/targets/nereid.py:148-157 | a strobe issued while `tx_ready` reads 1, with `tx_data` not rewritten in the cycles after the strobe up to delivery, moves exactly one byte, the staged one, in the first cycle downstream is ready; if there is no new `tx_valid` strobe in that delivery cycle, `tx_ready` reads 1 again on the next cycle |
| MsiAllocation.LexLessTransitive | litex_boards/partner/targets/nereid.py:122 | Python's string order used by `sorted` is transitive |
| MsiAllocation.LexLessTotal | litex_boards/partner/targets/nereid.py:122 | any two distinct names are ordered one way or the other |
| MsiAllocation.Sort | litex_boards/partner/targets/nereid.py:122 | `sorted(msis.items())` is a permutation of the items, strictly ascending by name |
| MsiAllocation.ConstantTableAt | litex_boards/partner/targets/nereid.py:124 | after the loop, the constant of the i-th item holds i |
| MsiAllocation.ConstantTableKeys | litex_boards/partner/targets/nereid.py:124 | every published constant is the constant of the item at the index it holds |
| MsiAllocation.AllocateMsis | litex_boards/partner/targets/nereid.py:118-124 | the loop drives line i by the i-th signal in name order and publishes `<NAME>_INTERRUPT = i` |
| MsiAllocation.MsiAllocationBijective | litex_boards/partner/targets/nereid.py:118-124 | the indices are a bijection from the names onto 0..N-1 that follows name order, the constant table has no key other than the names' constants, and each line is driven by the signal of the name holding its index |
| MsiAllocation.NereidMsiAllocation | litex_boards/partner/targets/nereid.py:118-124 | for the Nereid sources, `DMA_READER_INTERRUPT = 0` and `DMA_WRITER_INTERRUPT = 1`, with line 0 driven by the reader's irq and line 1 by the writer's |
| LedHeartbeat.Increment | litex_boards/partner/targets/nereid.py:169-170 | the counter steps by one and wraps from 2^32-1 to 0 |
| LedHeartbeat.Heartbeat.constructor | litex_boards/partner/targets/nereid.py:169 | the counter comes out of reset at 0 |
| LedHeartbeat.Heartbeat.Tick | litex_boards/partner/targets/nereid.py:170 | each clock edge the counter becomes `(sys_counter + 1) mod 2^32` |
| LedHeartbeat.CounterAfterWraps | litex_boards/partner/targets/nereid.py:169-170 | n cycles after reset the counter holds n mod 2^32 |
| LedHeartbeat.LedDriveChannels | litex_boards/partner/targets/nereid.py:172-176 | red and blue are always 1; green is bit 26 of the counter |
| LedHeartbeat.GreenToggles | litex_boards/partner/targets/nereid.py:170-174 | green changes on a clock edge exactly when the counter's low 26 bits wrap |
| LedHeartbeat.GreenAfter | litex_boards/partner/targets/nereid.py:169-174 | n cycles after reset green is lit iff floor(n / 2^26) is odd, so it blinks with a 2^27-cycle period |
| NereidSoc.UartRouting | litex_boards/partner/targets/nereid.py:66 | exactly one UART route is built: the core UART iff `with_pcie_uart` is false, the bridge iff it is true |
| NereidSoc.DefaultRoute | litex_boards/partner/targets/nereid.py:56 | by default the bridge is built and the core UART is not |
| NereidSoc.BridgeRegistrations | litex_boards/partner/targets/nereid.py:127-165 | this file registers the `pcie_uart` registers and the bridged UART's interrupt exactly when the bridge route is taken; the core UART's own registrations, made by the framework, are not in these lists |
| NereidSoc.NereidSoC.constructor | litex_boards/partner/targets/nereid.py:56-176 | composes the SoC: the chosen UART route, a bridge in reset iff `with_pcie_uart`, the DMA MSI allocation, the CSR and interrupt names registered by this file, and the heartbeat in reset |
| NereidSoc.NereidSoC.Tick | litex_boards/partner/targets/nereid.py:148-170 | one system clock edge: the bridge, when present, takes its next state (the register update at lines 148-154), and the heartbeat counter becomes `Increment` of its old value (line 170) |
| Ulx3sPlatform.NewPlatform | litex_boards/platforms/radiona_ulx3s.py:252-256 | construction succeeds iff the device is one of the four ECP5 parts and the revision is "1.7" or "2.0"; a bad device is reported before a bad revision |
| Ulx3sPlatform.IoListLayout | litex_boards/platforms/radiona_ulx3s.py:255 | the IO list is the common table, unchanged and in order, followed by the chosen revision's table, and its length is the sum |
| Ulx3sPlatform.PartName | litex_boards/platforms/radiona_ulx3s.py:256 | the part name is the device followed by "-6BG381C", and the device can be read back from it |
| Ulx3sPlatform.Defaults | litex_boards/platforms/radiona_ulx3s.py:252 | the defaults give device LFE5U-45F on revision 2.0 with the trellis toolchain |
| Ulx3sPlatform.CommonHasNoSdCard | litex_boards/platforms/radiona_ulx3s.py:13-204 | no common resource is named `spisdcard` or `sdcard` |
| Ulx3sPlatform.SdCardFromRevision | litex_boards/platforms/radiona_ulx3s.py:255 | the SD card resources of a constructed platform are those of its revision's table |
| Ulx3sPlatform.SdCardPins17 | litex_boards/platforms/radiona_ulx3s.py:206-223 | on revision 1.7 `spisdcard` clk/mosi/cs_n/miso are J1/J3/H1/K2 and `sdcard` has no cd or wp |
| Ulx3sPlatform.SdCardPins20 | litex_boards/platforms/radiona_ulx3s.py:225-244 | on revision 2.0 `spisdcard` clk/mosi/cs_n/miso are H2/J1/K2/J3 and `sdcard` has cd on N5 and wp on P5 |
| Ulx3sPlatform.DefaultClockPresent | litex_boards/platforms/radiona_ulx3s.py:15 | the default clock `clk25` is found, on G2, in the IO list of every accepted platform |
| Ulx3sPlatform.LookupSkipsPrefix | litex_boards/platforms/radiona_ulx3s.py:255 | looking a resource up in the concatenated list skips a common table that lacks it |
| Ulx3sPlatform.LookupFindsInPrefix | litex_boards/platforms/radiona_ulx3s.py:255 | a resource in the common table is found there whatever revision table follows |

## Left out

- Clock and reset generation (`CRG`, the PLL and IDELAYCTRL) is left out. Its frequencies are floating-point parameters of external IP.
- The DDR3 PHY and SDRAM module branch is left out. It comes from an external library. It is also never taken, because the integrated main RAM size is 0x10000. Its `ddrphy` CSR is therefore not in `CsrNames`.
- The PCIe PHY, endpoint, Wishbone bridge, DMA engines and MSI core are external IP. Only the names under which they register are kept. The width of the MSI core's `irqs` vector is not part of this model, so the allocation is modelled for any number of sources.
- The CSR bus itself is left out: address assignment, read/write decoding, and what `add_csr`, `add_interrupt` and `add_constant` do inside the framework. The constant table holds only the constants this file adds. Duplicate detection in `add_constant` is not modelled.
- The SoC's memory map entries, the ROM/SRAM/main-RAM sizes, the identifier string and the CSR data width are parameters handed to the framework.
- Platform commands, timing and false-path constraints, and the `keep` attribute on the PCIe clock are left out.
- The clock-domain crossing between the PCIe and system clocks is left out. It is handled by external IP. Everything here runs in one clock domain.
- `generate_software_header`, `main` and the builder are left out. They format text through an external function and write files.
- The platform's `default_clk_period` and the period constraint in `do_finalize` are left out. Both are floating-point values.
- `create_programmer`/`UJProg` and the internals of the Lattice platform are left out. The extra keyword arguments passed through to it are also not modelled.
- `Lookup` returns the first entry with a given name and index. The framework's own `request`, which also marks a resource as used, is not part of this model.
- Ulx3sPlatform.NewPlatform: the two device and revision checks at `radiona_ulx3s.py:253-254` are Python `assert`s. Under `python -O` they are stripped: a bad device is then accepted, and a bad revision raises `KeyError` at line 255 instead. The model keeps the checks, as a plain run of Python does.
- The lines commented out in the IO tables (the GPDI negative lanes, CEC/I2C, and the `lee_sdcard` data/cd/wp) are not part of the tables, as in the source.
