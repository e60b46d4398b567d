# rusty-boy core, modelled in Dafny

This project models the core of rusty-boy, a Game Boy and Game Boy Advance emulator written in Rust, and the small C sprite cache of its SDL front end. It proves properties of that model. There is one Dafny module per core source file:

- **Game Boy CPU** (`gb_cpu.dfy`, `constants.dfy`, `csl.dfy`): the register file and flag byte; set_mem with echo-RAM mirroring and OAM DMA; the LY counter; interrupt dispatch; the ALU helpers; the macro-generated bit accessors; the operand decode tables and their assembler inverse.
- **Game Boy memory** (`memory.dfy`, `cartridge.dfy`): the memory map, its address decoding and the cartridge banks.
- **Game Boy sound** (`apu_spec.dfy`, `apu.dfy`, `fifo.dfy`): the APU frame sequencer and registers, specified as functions with a class proved against them, and the GBA sound FIFO.
- **Game Boy picture and timing** (`gb_renderer.dfy`, `ppu_step.dfy`): the scanline renderer and the four-mode PPU loop of one frame.
- **GBA** (`gba_decode.dfy`, `gba_regs.dfy`, `gba_io.dfy`, `gba_bus.dfy`, `gba_irq.dfy`, `gba.dfy`, `gba_renderer.dfy`):
  - the register-field decoders;
  - the banked ARM register file and CPSR (ARM Architecture Reference Manual, sections A2.2, A2.5 and A3.2);
  - the I/O block and the memory bus;
  - interrupts;
  - the pixel pipeline.
- **Debugger command language** (`dbg_lexer.dfy`, `dbg_numbers.dfy`, `dbg_grammar.dfy`, `dbg_input.dfy`, `dbg_language.dfy`): the generated longest-match lexer, i32 semantics, and the grammar as a recursive specification.
- **Memory visualisation** (`cpumemvis.dfy`, `memvis.dfy`, `sdl_memvis.dfy`).
- **C sprite cache** (`linked_list.dfy`, `graphics_c.dfy`), modelled as written, broken links included.
- **Legacy duplicates** (`legacy_cpu.dfy`, `legacy_cartridge.dfy`).
- **Shared**: `options.dfy` holds the Option type.

Conventions:
- **Integers.** Fixed-width values are bit-vectors (`bv8`, `bv16`, `bv32`), or integers whose range an invariant keeps.
- **Rust panics.** An overflow in a debug build, an out-of-range index, `panic!`, `todo!` or `unreachable!` becomes a precondition. In the debugger it becomes a `Panic` outcome instead.
- **C undefined behaviour.** A NULL dereference or use after free is a precondition.
- **State.** State the source updates in place is a class with `modifies` clauses. Each of its methods is proved against a value-level function, and the lemmas are stated about that function.

Several screen and memory-map constants are used by the source but not defined in the files modelled here. They take the hardware values:
- Game Boy screen 160x144;
- GBA screen 240x160;
- tile maps at 0x9800 and 0x9C00;
- tile patterns at 0x8000;
- OAM at 0xFE00.

Where the program as written has a defect the model also proves the corrected behaviour, and the rest of the model is built on the corrected member; "## Findings" lists each pair. In the table below, "as written" marks a member that states the source's literal behaviour. "the program's … is the corrected one" marks the member the rest of the model uses.

## Model

| member | source | states |
|---|---|---|
| Csl.CpuRegDispatch | src/assembler/CSL.rs:39-51 | the three register bits of B, C, D, E, H, L, (HL), A are 0..7; any other operand is unreachable |
| Csl.EncodeDecode | src/assembler/CSL.rs:39-51 | cpuReg_dispatch undoes cpu_dispatch on every value 0..7 |
| Csl.DecodeEncode | src/assembler/CSL.rs:39-51 | cpu_dispatch undoes cpuReg_dispatch on the eight register operands |
| Csl.LookupPrefix | src/assembler/CSL.rs:54-59 | the first byte is 0xCB; the second has the register bits in 0..2, bit 3 clear and the low nibble of n in bits 4..7 |
| Csl.LookupPrefixInjective | src/assembler/CSL.rs:54-59 | two prefixed opcodes are equal only for the same register and the same n modulo 16 |
| CpuConstants.ToCartridgeType | src/cpu/constants.rs:133-161 | Some exactly for the listed cartridge-type bytes, and then the type whose discriminant is that byte |
| CpuConstants.ToCartridgeTypeOfDiscriminant | src/cpu/constants.rs:99-161 | every cartridge type is decoded back from its own discriminant |
| CpuConstants.CcDispatch | src/cpu/constants.rs:165-173 | condition code number num (0..3) is the code returned |
| CpuConstants.CpuDispatch | src/cpu/constants.rs:176-188 | never a literal; A exactly for 7 and (HL) exactly for 6 |
| CpuConstants.CpuDispatchInjective | src/cpu/constants.rs:176-188 | distinct values 0..7 give distinct operands |
| CpuConstants.CpuDispatchOnto | src/cpu/constants.rs:176-188 | every register operand is reached from some value 0..7 |
| CpuConstants.Cpu16Dispatch | src/cpu/constants.rs:191-199 | the pair is one of BC, DE, HL, SP |
| CpuConstants.Cpu16DispatchPushPop | src/cpu/constants.rs:202-210 | the pair is one of BC, DE, HL, AF |
| CpuConstants.Cpu16DispatchTablesDiffer | src/cpu/constants.rs:191-210 | the two tables agree on 0..2 and differ exactly at 3, SP against AF |
| CpuConstants.FlagMasksAreBits | src/cpu/constants.rs:8-14 | ZL, NLV, HL, CL are bits 7, 6, 5, 4, pairwise disjoint, together 0xF0 |
| Fifo.Fifo.constructor | src/cpu/fifo.rs:13-19 | both the deque and the sound buffer start empty, the reset flag clear |
| Fifo.Fifo.Push | src/cpu/fifo.rs:21-26 | the sample goes to the front; with 32 queued the back one is dropped first, so at most 32 are held; the sound buffer and flag are untouched |
| Fifo.Fifo.Reset | src/cpu/fifo.rs:39-43 | the flag is set and both the deque and the sound buffer are emptied |
| Fifo.Fifo.IncNote | src/cpu/fifo.rs:48-52 | the back sample moves to the end of the sound buffer, none when the deque is empty; no sample is lost or created |
| Fifo.Fifo.ReadyForMoreData | src/cpu/fifo.rs:53-56 | true exactly when at most 16 samples are queued |
| Fifo.Fifo.ClearSoundBuffer | src/cpu/fifo.rs:57-59 | only the sound buffer is emptied |
| Fifo.DeliveredInPushOrder | src/cpu/fifo.rs:21-52 | samples reach the sound buffer in the order they were pushed, each the sample pushed at its origin |
| CpuMemVis.TexelBase | src/cpu/memvis/cpumemvis.rs:84 | the texel of an address starts at a multiple of four and lies inside the texture |
| CpuMemVis.DeqCpuEventLogger.constructor | src/cpu/memvis/cpumemvis.rs:53-81 | an empty deque; with Some(mem) every texel of an address below the length mirrors mem, the rest are zero |
| CpuMemVis.DeqCpuEventLogger.MirrorMemory | src/cpu/memvis/cpumemvis.rs:61-79 | the copy loop leaves every texel equal to its initial value for mem |
| CpuMemVis.DeqCpuEventLogger.MirrorValue | src/cpu/memvis/cpumemvis.rs:63-70 | one byte of the copy loop: its value texel becomes alpha 255 with value / 4 in the colour channels, every other texel keeps its initial value |
| CpuMemVis.DeqCpuEventLogger.MirrorAccess | src/cpu/memvis/cpumemvis.rs:72-76 | one byte of the copy loop: the alpha channel of its access texels is marked, every other access texel keeps its initial value |
| CpuMemVis.InitStep | src/cpu/memvis/cpumemvis.rs:62-78 | one iteration changes exactly the four texels of its address: alpha 255, value / 4, access alpha 76, time 255 |
| CpuMemVis.DeqCpuEventLogger.LogRead | src/cpu/memvis/cpumemvis.rs:83-87 | only channel 1 of the address's flag and time texels changes, to 255 |
| CpuMemVis.DeqCpuEventLogger.LogWrite | src/cpu/memvis/cpumemvis.rs:89-100 | the value texel becomes 255 then value / 4 three times; channel 3 of the flag and time texels becomes 255 |
| CpuMemVis.DeqCpuEventLogger.LogExec | src/cpu/memvis/cpumemvis.rs:102-106 | only channel 2 of the address's flag and time texels changes, to 255 |
| CpuMemVis.DeqCpuEventLogger.LogJump | src/cpu/memvis/cpumemvis.rs:108-119 | exactly one Jump entry is appended at the back; the textures are untouched |
| CpuMemVis.DeqCpuEventLogger.Clone | src/cpu/memvis/cpumemvis.rs:37-42 | not a copy: a fresh logger with an empty deque and zeroed textures |
| MemVis.ScreenCoordToMemAddr | src/io/memvis.rs:13-23 | Some exactly when x < 256 and y < 256 (negative coordinates pass); then x + 256 * y for non-negative coordinates, always a u16 |
| MemVis.NegativeCoordinateAccepted | src/io/memvis.rs:13-23 | the check lets (-1, 0) through, as address 0xFFFF |
| MemVis.AddrToPoint | src/io/memvis.rs:26-31 | the point lies in the 256 x 256 picture and x + 256 * y is the address |
| MemVis.AddrToPointRoundTrip | src/io/memvis.rs:13-31 | mapping any u16 address to its point and back gives the address |
| MemVis.PointToAddrRoundTrip | src/io/memvis.rs:13-31 | every point of the 256 x 256 picture maps to an address whose point it is |
| MemVis.ClampColor | src/io/memvis.rs:33-43 | negative values give 0, values above 255 give 255, others are kept |
| MemVis.MixColor | src/io/memvis.rs:45-51 | each channel is the sum of the two, saturated at 255 |
| MemVis.PruneEvents | src/io/memvis.rs:164-171 | pops exactly the longest prefix of faded events: what remains is a suffix whose first event, if any, has not faded |
| SdlMemVis.MemVisState.constructor | src/io/graphics/sdl2/memvis.rs:29-34 | value display starts enabled |
| SdlMemVis.MemVisState.ScreenCoordToMemAddr | src/io/graphics/sdl2/memvis.rs:37-46 | Some exactly when x < 256 and y < 256; then x + 256 * y for non-negative coordinates, always a u16 |
| SdlMemVis.SameMappingAsLegacy | src/io/graphics/sdl2/memvis.rs:37-46 | the state's mapping agrees with the free function of src/io/memvis.rs on every point |
| SdlMemVis.AddrToPointInverse | src/io/graphics/sdl2/memvis.rs:176-180 | the state's mapping inverts addr_to_point on every u16 address |
| SdlMemVis.MemVisState.Click | src/io/graphics/sdl2/memvis.rs:152-172 | a right click on a mapped point sets PC to it and the state to Normal, changing no other register; every other click leaves the CPU as it was |
| SdlMemVis.WrappingAge | src/io/graphics/sdl2/memvis.rs:352 | the age is below 2^64 and is the plain difference when the timestamp is not in the future |
| SdlMemVis.DrawnEvents | src/io/graphics/sdl2/memvis.rs:348-405 | the events drawn are exactly the young prefix of the deque; the loop stops at the first event whose age reached FADE_DELAY |
| MemVis.AsU16 | src/io/memvis.rs:20 | `v as u16` is in 0..65535 and is v itself when v already fits |
| GbCartridge.Decode | src/cpu/cartridge/mod.rs:143-277 | the shared mapping of index and index_mut: an address is served only in 0x0000-0x7FFF or 0xA000-0xBFFF, and each served address lands inside its bank |
| GbCartridge.Write | src/cpu/cartridge/mod.rs:143-208 | a store through index_mut keeps the banks' sizes |
| GbCartridge.WriteKeepsDefined | src/cpu/cartridge/mod.rs:143-277 | a store does not change which addresses are served |
| GbCartridge.ReadAfterWrite | src/cpu/cartridge/mod.rs:143-277 | index reads back the byte index_mut stored |
| GbCartridge.ReadAfterWriteOther | src/cpu/cartridge/mod.rs:143-277 | a store changes the byte of no other served address |
| GbCartridge.RomOnlyServesCartRange | src/cpu/cartridge/mod.rs:147-186 | a ROM-only cartridge serves exactly the two cartridge ranges; every other address panics |
| GbCartridge.Mbc1SecondBankNeedsSelectorZero | src/cpu/cartridge/mod.rs:153-158 | with 16/8 MBC1 and one bank of memory, 0x4000-0x7FFF is served only while the bank selector is 0 |
| GbCartridge.NewState | src/cpu/cartridge/mod.rs:316-321 | the new cartridge's banks have their sizes |
| GbCartridge.NewServesBank0Only | src/cpu/cartridge/mod.rs:316-321 | a new cartridge serves bank 0 only, reading zero there; every other access panics |
| GbCartridge.RamStubIgnoresWrites | src/cpu/cartridge/mod.rs:100-109 | write_ram_value stores through index_mut, but read_ram_value answers 4 whatever was stored |
| GbCartridge.Load | src/cpu/cartridge/mod.rs:36-93 | no cartridge type exactly when header byte 0x147 is not a listed code; loaded exactly for the three ROM-only types, with bank 0, bank 1 and a zeroed RAM bank from the file; any other type is the unsupported panic |
| GbCartridge.LoadedServesCartRange | src/cpu/cartridge/mod.rs:36-93 | a loaded cartridge serves every address of both cartridge ranges |
| GbCartridge.CopyBank | src/cpu/cartridge/mod.rs:384-389 | the byte-by-byte copy loop yields the source bank |
| GbCartridge.Cartridge.constructor | src/cpu/cartridge/mod.rs:316-321 | Cartridge::new is the value NewState |
| GbCartridge.Cartridge.Index | src/cpu/cartridge/mod.rs:210-277 | index on the arrays reads what Read says of the cartridge's value |
| GbCartridge.Cartridge.IndexMut | src/cpu/cartridge/mod.rs:143-208 | a store through index_mut changes the value as Write says |
| GbCartridge.Cartridge.WriteRamValue | src/cpu/cartridge/mod.rs:107-110 | write_ram_value is a store through index_mut |
| GbCartridge.Cartridge.Clone | src/cpu/cartridge/mod.rs:383-421 | a fresh cartridge holding the same value; cloning an MBC1 sub-type panics |
| GbCartridge.Cartridge.FromParts | src/cpu/cartridge/mod.rs:28-31 | a cartridge holding the given bank 0 and sub-type |
| LegacyCartridge.Decode | src/cpu/cartridge.rs:58-109 | index's arms in order: every decoded offset lies in its bank; the OAM arm 0xFE00-0xFF9F comes before the I/O and high-RAM arms |
| LegacyCartridge.RomOnlyReadable | src/cpu/cartridge.rs:58-109 | a ROM-only cartridge reads without a panic exactly ROM, work RAM and its echo up to 0xFE9F, and 0xFFA0-0xFFFF |
| LegacyCartridge.EchoReadsWorkRam | src/cpu/cartridge.rs:88-90 | 0xE000-0xFDFF reads the byte 0x2000 below |
| LegacyCartridge.OamArmShadowsLaterArms | src/cpu/cartridge.rs:92-99 | 0xFEA0-0xFF9F decodes to an OAM offset past its 0xA0 bytes, so reading there panics |
| LegacyCartridge.BankSelect | src/cpu/cartridge.rs:144 | the bank number is the low five bits of the value, 0 read as 1, so always 1..31 |
| LegacyCartridge.IndexSetAsWritten | src/cpu/cartridge.rs:113-162 | index_set as written, the MBC1 bank number going to the copy bound by the match; the sizes are kept |
| LegacyCartridge.BankSelectLost | src/cpu/cartridge.rs:137-147 | as written, a bank-switch write to 0x2000-0x3FFF leaves the selector unchanged whenever the new number differs from it |
| LegacyCartridge.IndexSetSpec | src/cpu/cartridge.rs:113-162 | index_set with the bank number kept in the cartridge's own selector; the sizes are kept |
| LegacyCartridge.BankSelectStored | src/cpu/cartridge.rs:137-147 | corrected: a bank-switch write sets the selector to BankSelect(val), in 1..31, and changes nothing else |
| LegacyCartridge.RomWritesIgnored | src/cpu/cartridge.rs:128-131 | on a ROM-only cartridge, writes to 0x0000-0x7FFF change nothing |
| LegacyCartridge.ReadAfterIndexSet | src/cpu/cartridge.rs:58-135 | a byte written to work RAM, its echo or 0xFFA0-0xFFFE is read back there and at its echo partner |
| LegacyCartridge.HighRamBottomWriteOnly | src/cpu/cartridge.rs:92-118 | index_set stores 0xFF80-0xFF9F, but index panics there, since the OAM arm catches it first |
| LegacyCartridge.Cartridge.Index | src/cpu/cartridge.rs:58-109 | index on the arrays reads what Read says of the cartridge's value |
| LegacyCartridge.Cartridge.IndexSet | src/cpu/cartridge.rs:113-162 | the program's index_set is the corrected one: the new value is IndexSetSpec of the old (see Findings) |
| GbMemory.IndexLocAsWritten | src/cpu/memory.rs:187-209 | Index<u16> as written: every address decodes to an in-bounds byte; exactly the cartridge ranges go to the cartridge, at the same address; 0xE000-0xEFFF reads the switchable work RAM bank |
| GbMemory.ReadLoc | src/cpu/memory.rs:187-209 | corrected read decoding (0xE000-0xEFFF reads bank 0, as IndexMut writes it): every address decodes in bounds, the cartridge ranges and only they to the cartridge |
| GbMemory.MutLoc | src/cpu/memory.rs:222-253 | IndexMut<usize>: the index is reduced modulo 0x10000 and decodes to an in-bounds byte; the cartridge ranges and only they go to the cartridge |
| GbMemory.LocStoreKeepsLocOk | src/cpu/memory.rs:222-253 | a store does not change which cartridge addresses are readable |
| GbMemory.LocStoreThenValue | src/cpu/memory.rs:222-253 | a stored byte is read back from the same location |
| GbMemory.LocStoreOther | src/cpu/memory.rs:222-253 | a store leaves every other location unchanged |
| GbMemory.GetUsizePeriodic | src/cpu/memory.rs:215-218 | Index<usize> reads the same byte for indices 0x10000 apart |
| GbMemory.MutLocReduces | src/cpu/memory.rs:222-253 | IndexMut acts on the index modulo 0x10000 |
| GbMemory.MutLocIsReadLoc | src/cpu/memory.rs:187-253 | below 0x10000 IndexMut reaches exactly the byte the corrected read decoding reads |
| GbMemory.MutLocVsIndexAsWritten | src/cpu/memory.rs:197-199 | as written, Index<u16> and IndexMut agree everywhere except 0xE000-0xEFFF while the work RAM bank is not 0 (both directions) |
| GbMemory.ReadAfterPut | src/cpu/memory.rs:187-253 | a byte written through IndexMut is read back at the same address |
| GbMemory.ReadAfterPutOther | src/cpu/memory.rs:187-253 | a write leaves every address that decodes to another byte unchanged |
| GbMemory.EchoWriteReadBelow | src/cpu/memory.rs:193-232 | echo RAM: a write at 0xE000 + k is read back at 0xC000 + k, with both read decodings |
| GbMemory.IndexAsWrittenMissesEchoWrite | src/cpu/memory.rs:197-199 | as written, with work RAM bank 1, a byte written at 0xE000 is not what is read back at 0xE000 |
| GbMemory.ReadLocInjective | src/cpu/memory.rs:187-209 | two addresses decode to the same byte exactly when they are an echo pair 0x2000 apart in 0xC000-0xFDFF |
| GbMemory.WriteRamValueIsPut | src/cpu/memory.rs:79-84 | write_ram_value, routing the cartridge ranges to the cartridge, is the same store as IndexMut |
| GbMemory.NewReadsZero | src/cpu/memory.rs:61-77 | a new memory is readable exactly outside the cartridge ranges and in ROM bank 0, and reads 0 there |
| GbMemory.GbcModeAliasesBank0 | src/cpu/memory.rs:114-116 | after set_gbc_mode 0xD000-0xDFFF reads the same bytes as 0xC000-0xCFFF |
| GbMemory.ResetIo | src/cpu/memory.rs:139-180 | the I/O port block keeps its 0x80-byte size |
| GbMemory.ResetIoValues | src/cpu/memory.rs:139-180 | the port table reset writes holds 0xCF at P1, 0xAB at DIV, 0xE1 at IF, 0xF0 or 0xF1 at NR52 by SGB mode, 0x91 at LCDC, 0x85 at STAT, 0 at LY, 0xFF at DMA and 0xFC at BGP |
| GbMemory.ResetRegisterValues | src/cpu/memory.rs:139-180 | after reset the joypad, divider, IF, LCDC, STAT, LY, DMA, BGP and IE bytes read their post-boot values; 0xFF26 is 0xF0 in SGB mode and 0xF1 otherwise |
| GbMemory.ResetKeepsUnlistedPorts | src/cpu/memory.rs:139-180 | the I/O ports reset does not list keep their bytes |
| GbMemory.ResetKeepsRam | src/cpu/memory.rs:139-180 | reset changes no byte outside the I/O ports and the interrupt-enable byte |
| GbMemory.NextSpec | src/cpu/memory.rs:259-266 | next changes nothing but the iterator position |
| GbMemory.GetIgnoresIterator | src/cpu/memory.rs:259-266 | the iterator position plays no part in a read |
| GbMemory.Items | src/cpu/memory.rs:259-266 | n calls to next give n items |
| GbMemory.ItemsFrom | src/cpu/memory.rs:259-266 | from position k the next 0xFFFF - k calls yield the bytes of k..0xFFFE in order |
| GbMemory.IterationYieldsAddressSpace | src/cpu/memory.rs:259-266 | from 0 the iterator yields the bytes of 0..0xFFFE in order, then None: 0xFFFF itself is never yielded |
| GbMemory.Memory.constructor | src/cpu/memory.rs:61-77 | Memory::new: empty cartridge, zeroed RAM, work RAM bank 1, video RAM bank 0 |
| GbMemory.Memory.Index | src/cpu/memory.rs:187-209 | the program's Index<u16> is the corrected one: reads the byte of the corrected decoding (see Findings) |
| GbMemory.Memory.StoreIn | src/cpu/memory.rs:222-253 | a store into one array changes that byte only |
| GbMemory.Memory.IndexMut | src/cpu/memory.rs:222-253 | the new state is Put of the old: the byte at the reduced index, and nothing else, changes |
| GbMemory.Memory.WriteRamValue | src/cpu/memory.rs:79-84 | the new state is the write_ram_value store of the old |
| GbMemory.Memory.SetGbcMode | src/cpu/memory.rs:114-116 | only the work RAM bank changes, to 0 |
| GbMemory.Memory.WriteBootIo | src/cpu/memory.rs:140-179 | the I/O ports hold the reset values |
| GbMemory.Memory.Reset | src/cpu/memory.rs:139-180 | the new state is ResetSpec of the old |
| GbMemory.Memory.Next | src/cpu/memory.rs:259-266 | the new state and item are those of NextSpec |
| GbMemory.Put | src/cpu/memory.rs:222-253 | a store through IndexMut keeps the memory well-formed |
| GbMemory.WriteRamValueSpec | src/cpu/memory.rs:79-84 | write_ram_value keeps the memory well-formed |
| GbMemory.NewState | src/cpu/memory.rs:61-77 | Memory::new builds well-formed memory |
| GbMemory.ResetSpec | src/cpu/memory.rs:139-180 | Memory::reset keeps the memory well-formed |
| GbMemory.ItemsHead | src/cpu/memory.rs:256-266 | one call of next at index k below 0xFFFF yields the byte at k and moves the iterator to k + 1 |
| GbMemory.Memory.StoreBanked | src/cpu/memory.rs:224-230 | a store into video RAM or a work RAM window leaves the state at Put of the old |
| GbMemory.Memory.StoreHigh | src/cpu/memory.rs:231-249 | a store from echo RAM up to the interrupt-enable byte leaves the state at Put of the old |
| GbMemory.ResetIoKeeps | src/cpu/memory.rs:139-180 | reset's port table leaves every unlisted port byte as it was |
| LegacyCpu.SignExtend | src/cpu.rs:58-60 | an i8 widened by `as u16` keeps its low byte, fills the high byte with ones when bit 7 is set and zeroes it otherwise |
| LegacyCpu.SetFlagsByte | src/cpu.rs:85-92 | as written, every flag bit is taken from z: F is 0xF0 when z holds and 0 otherwise, with Z set iff z and the low nibble clear |
| LegacyCpu.HlSignFill | src/cpu.rs:58-60 | hl() is H:L only while bit 7 of L is clear; otherwise the sign-extended L covers H and hl() is 0xFF00 \| L |
| LegacyCpu.SetMemSpec | src/cpu.rs:95-104 | set_mem keeps the 0x10000-byte memory size |
| LegacyCpu.SetMemMirrors | src/cpu.rs:95-104 | a write in 0xC000-0xDE00 or 0xE000-0xFE00 lands at the address and at address ^ 0x2000, and nowhere else |
| LegacyCpu.SetMemDirect | src/cpu.rs:95-104 | every other address is stored directly and nothing else changes |
| LegacyCpu.AccessRegister | src/cpu.rs:106-118 | access_register gives None exactly for a literal, and otherwise the register or the byte at hl() |
| LegacyCpu.SetRegisterSpec | src/cpu.rs:120-135 | set_register keeps the memory size |
| LegacyCpu.AccessAfterSet | src/cpu.rs:106-135 | a register or (HL) read after set_register gives the value set |
| LegacyCpu.SetRegisterFrame | src/cpu.rs:120-135 | setting one register changes no other register, and memory only through HL |
| LegacyCpu.AddWide | src/cpu.rs:170-172 | the i16 sum's low byte is the wrapped 8-bit sum |
| LegacyCpu.SubWide | src/cpu.rs:192-194 | the i16 difference's low byte is the wrapped 8-bit difference |
| LegacyCpu.AddRegs | src/cpu.rs:170-179 | add sets A to the wrapped sum and F to 0xF0 exactly when A is 0 (else 0), changing nothing else |
| LegacyCpu.SubRegs | src/cpu.rs:192-201 | sub sets A to the wrapped difference and F to 0xF0 exactly when A is 0 (else 0), changing nothing else |
| LegacyCpu.AddTestSequence | src/cpu.rs:763-778 | the add test: 5 + 5 = 10 with Z clear, then + B (-10) = 0 with Z set |
| LegacyCpu.SubTestSequence | src/cpu.rs:780-795 | the sub test: 5 - 5 = 0 with Z set, then - B (-10) = 10 with Z clear |
| LegacyCpu.SwapValue | src/cpu.rs:315-322 | swap's value: the nibbles exchanged when bit 7 is clear; otherwise the arithmetic i8 shift fills the top nibble with ones |
| LegacyCpu.SwapExchangesIffBit7Clear | src/cpu.rs:315-322 | swap exchanges the nibbles exactly when bit 7 is clear or the low nibble is 0xF |
| LegacyCpu.SwapSpec | src/cpu.rs:315-323 | swap sets F to ZL exactly when the old value was 0, and 0 otherwise |
| LegacyCpu.SwapTwiceRestoresSmall | src/cpu.rs:315-323 | swapping twice restores a value whose bit 7 is clear and that does not swap into bit 7 |
| LegacyCpu.DaaValue | src/cpu.rs:326-340 | daa's new A is always packed BCD |
| LegacyCpu.DaaKeepsBcd | src/cpu.rs:326-340 | daa leaves a packed BCD value unchanged |
| LegacyCpu.DaaTestCases | src/cpu.rs:797-815 | the bcd test: 0x15, 0x70 and 0x79 kept, 0x3F becomes 0x45 |
| LegacyCpu.JumpOffsetIsSigned | src/cpu.rs:570-574 | the offset jrn adds is n's signed value |
| LegacyCpu.JumpTargetIsSignedOffset | src/cpu.rs:570-574 | jrn moves PC forward by n for n >= 0 and back by -n otherwise, wrapping at 16 bits |
| LegacyCpu.Cpu.constructor | src/cpu.rs:42-56 | Cpu::new: registers zero, SP 0xFFFE, PC 0x100, memory zeroed |
| LegacyCpu.Cpu.SetFlags | src/cpu.rs:85-92 | only F changes, to SetFlagsByte |
| LegacyCpu.Cpu.SetMem | src/cpu.rs:95-104 | memory becomes SetMemSpec of the old memory |
| LegacyCpu.Cpu.Add | src/cpu.rs:170-179 | the registers become AddRegs of the old ones |
| LegacyCpu.Cpu.Sub | src/cpu.rs:192-201 | the registers become SubRegs of the old ones |
| LegacyCpu.Cpu.SetRegister | src/cpu.rs:120-135 | registers and memory become SetRegisterSpec of the old ones |
| LegacyCpu.Cpu.Swap | src/cpu.rs:315-323 | registers and memory become SwapSpec of the old ones |
| LegacyCpu.Cpu.Daa | src/cpu.rs:326-340 | A becomes DaaValue, F 0xF0 exactly when it is 0 |
| LegacyCpu.Cpu.Cpl | src/cpu.rs:343-348 | A complemented, N and H set, Z and C kept, the low nibble cleared |
| LegacyCpu.Cpu.Ccf | src/cpu.rs:350-353 | C flipped, Z kept, every other bit cleared |
| LegacyCpu.Cpu.Scf | src/cpu.rs:355-358 | C set, Z kept, every other bit cleared |
| LegacyCpu.Cpu.Jrn | src/cpu.rs:570-574 | only PC changes, to the signed jump target |
| GbCpu.Pair | src/cpu/mod.rs:580-596 | hl(), bc() and de() read back exactly the high and low bytes they combine |
| GbCpu.PairOfHalves | src/cpu/mod.rs:580-606 | set_hl/set_bc/set_de then hl/bc/de round-trip every u16 |
| GbCpu.SignExtend | src/cpu/mod.rs:580-596 | an i8 `as u16` keeps its low byte and fills the high byte with its sign |
| GbCpu.FlagsByte | src/cpu/mod.rs:628-635 | set_flags places z, n, h, c in bits 7, 6, 5, 4 (each iff its argument) and leaves the low nibble zero |
| GbCpu.FlagsByteRoundTrip | src/cpu/mod.rs:628-635 | reading the four flags out of F and re-encoding them gives F's top nibble |
| GbCpu.WithReg16 | src/cpu/mod.rs:608-616 | set_register16 sets only the named one of BC, DE, HL, SP; A, F, PC and the other pairs are kept |
| GbCpu.WithReg8ReadBack | src/cpu/mod.rs:660-690 | an 8-bit register write is read back by access_register, and no other register moves |
| GbCpu.PostBootPairs | src/cpu/mod.rs:62-64 | reset's set_bc(0x0013), set_de(0x00D8), set_hl(0x014D) store the post-boot bytes |
| GbCpu.Mirror | src/cpu/mod.rs:645-648 | the mirror partner of an echoed address is echoed and different from it |
| GbCpu.MirrorIsXor | src/cpu/mod.rs:648 | `ad ^ 0x2000` adds 0x2000 below 0xE000 and subtracts it from 0xE000 up |
| GbCpu.DmaCopyStep | src/cpu/mod.rs:484-494 | each iteration of dma()'s loop reads a byte not yet overwritten and extends the copied prefix |
| GbCpu.DmaCopyDone | src/cpu/mod.rs:484-494 | after 0xA0 iterations and the store to 0xFF55 the memory is DmaSpec's: 0xA0 bytes from (value << 8) at 0xFE00, 0xFF55 = 1 |
| GbCpu.SetMemEcho | src/cpu/mod.rs:643-658 | a write in 0xC000-0xDE00 or 0xE000-0xFE00 lands at the address and at address ^ 0x2000 and nowhere else |
| GbCpu.SetMemCounters | src/cpu/mod.rs:650-651 | writes to 0xFF04 and 0xFF44 store 0 whatever the value |
| GbCpu.SetMemDma | src/cpu/mod.rs:652-655 | writing 0xFF46 stores the value, copies 0xA0 bytes from (value << 8) to 0xFE00.., sets 0xFF55 to 1 and changes nothing else |
| GbCpu.SetMemPlain | src/cpu/mod.rs:656 | every other address is stored directly |
| GbCpu.SetMemReadBack | src/cpu/mod.rs:643-658 | a byte written by set_mem is read back, except 0 at the two counters |
| GbCpu.PushThenPop | src/cpu/mod.rs:1371-1409 | pop_from_stack after push_onto_stack reads the pushed value |
| GbCpu.IncLyValue | src/cpu/mod.rs:461-468 | inc_ly keeps LY below 154, adding one below 153 and wrapping 153 to 0 |
| GbCpu.IncDivValue | src/cpu/mod.rs:102-105 | inc_div adds one with 8-bit wrap-around, 0xFF becoming 0 |
| GbCpu.Dec16Value | src/cpu/mod.rs:1084-1089 | dec16 wraps 0 to 0xFFFF and otherwise subtracts 1 |
| GbCpu.Inc16Value | src/cpu/mod.rs:1062-1082 | inc16 adds 1 in u32 and truncates, so 0xFFFF wraps to 0 |
| GbCpu.Inc16Dec16Inverse | src/cpu/mod.rs:1062-1089 | inc16 and dec16 undo each other |
| GbCpu.SwapNibbles | src/cpu/mod.rs:1091-1099 | swap exchanges the nibbles; the result is 0 iff the operand is |
| GbCpu.SwapNibblesInvolution | src/cpu/mod.rs:1091-1099 | swapping twice restores the value |
| GbCpu.SwapFlags | src/cpu/mod.rs:1098 | swap sets F to exactly ZL iff the old value was 0 |
| GbCpu.CplFlags | src/cpu/mod.rs:1119-1124 | cpl keeps Z and C, sets N and H, clears the low nibble |
| GbCpu.CcfFlags | src/cpu/mod.rs:1126-1129 | ccf keeps Z, flips C, clears N and H |
| GbCpu.ScfFlags | src/cpu/mod.rs:1131-1134 | scf keeps Z, sets C, clears N and H |
| GbCpu.AndWide | src/cpu/mod.rs:928-933 | the i16 AND of the sign-extended operands has the 8-bit AND as low byte and is 0 iff it is |
| GbCpu.OrWide | src/cpu/mod.rs:935-940 | the same for the OR of the zero-extended operands |
| GbCpu.XorWide | src/cpu/mod.rs:942-947 | the same for the i16 XOR |
| GbCpu.AndResult | src/cpu/mod.rs:928-933 | and: A & operand; H set, N and C clear, Z iff the result is 0 |
| GbCpu.OrResult | src/cpu/mod.rs:935-940 | or: A \| operand; N, H, C clear, Z iff the result is 0 |
| GbCpu.XorResult | src/cpu/mod.rs:942-947 | xor: A ^ operand; N, H, C clear, Z iff the result is 0 |
| GbCpu.AluTestCases | src/cpu/tests.rs:69-81 | the and/or/xor cases of the tests give the asserted A and F |
| GbCpu.Location | src/cpu/macros.rs:53-56 | the four generated accessor families target I/O-page addresses that set_mem stores directly (0xFF26, 0xFF0F, 0xFFFF, 0xFF41) |
| GbCpu.SetBits | src/cpu/macros.rs:4-13 | a generated setter makes its getter true and changes no bit outside its mask |
| GbCpu.ClearBits | src/cpu/macros.rs:15-23 | a generated unsetter clears its mask (so the getter is false) and changes no other bit |
| GbCpu.BitsSetNeedsEveryBit | src/cpu/macros.rs:25-31 | a getter tests (mem & mask) == mask: a multi-bit mask such as 0x1F holds iff both its parts do |
| GbCpu.PendingInterrupt | src/cpu/mod.rs:1456-1495 | the serviced source is the first of VBlank, LCDC, Timer, Serial that is enabled and requested; None iff none is |
| GbCpu.ServiceMemEffects | src/cpu/mod.rs:1456-1464 | servicing writes IE = 0, clears the request bit and pushes PC, changing no other byte |
| GbCpu.ButtonMask | src/cpu/mod.rs:545-552 | each button's input_state mask is a single bit |
| GbCpu.ButtonMasksDistinct | src/cpu/mod.rs:545-552 | different buttons have disjoint bits |
| GbCpu.Shades | src/cpu/mod.rs:496-521 | bgp/obp0/obp1 split the palette byte into four 2-bit shades that reassemble it |
| GbCpu.ResetSoundMemMatchesTable | src/cpu/mod.rs:65-86 | reset's timer and sound stores set exactly the listed bytes |
| GbCpu.ResetVideoMemMatchesTable | src/cpu/mod.rs:87-95 | reset's LCD and IE stores set exactly the listed bytes |
| GbCpu.ResetMemMatchesTable | src/cpu/mod.rs:65-95 | reset stores exactly the post-boot table and leaves every other byte alone |
| GbCpu.Cpu.constructor | src/cpu/mod.rs:27-46 | new(): zeroed memory followed by reset: post-boot registers, Normal state, memory ResetMem of zeros |
| GbCpu.Cpu.Reset | src/cpu/mod.rs:48-96 | post-boot registers, Normal state, memory ResetMem of the old |
| GbCpu.Cpu.ResetRegisters | src/cpu/mod.rs:49-64 | the registers become the post-boot values |
| GbCpu.Cpu.SetPostBootPairs | src/cpu/mod.rs:62-64 | set_bc(0x0013), set_de(0x00D8) and set_hl(0x014D) leave B, C, D, E, H, L at 0x00, 0x13, 0x00, 0xD8, 0x01, 0x4D |
| GbCpu.Cpu.ResetSoundRegisters | src/cpu/mod.rs:65-86 | memory becomes ResetSoundMem of the old |
| GbCpu.Cpu.ResetVideoRegisters | src/cpu/mod.rs:87-95 | memory becomes ResetVideoMem of the old |
| GbCpu.Cpu.SetHL | src/cpu/mod.rs:584-588 | only H and L change, and hl() reads back the value |
| GbCpu.Cpu.SetBC | src/cpu/mod.rs:598-601 | only B and C change, and bc() reads back the value |
| GbCpu.Cpu.SetDE | src/cpu/mod.rs:603-606 | only D and E change, and de() reads back the value |
| GbCpu.Cpu.SetRegister16 | src/cpu/mod.rs:608-616 | the registers become WithReg16 of the old |
| GbCpu.Cpu.SetFlags | src/cpu/mod.rs:628-635 | only F changes, to FlagsByte |
| GbCpu.Cpu.SetMem | src/cpu/mod.rs:643-658 | memory becomes SetMemSpec of the old |
| GbCpu.Cpu.Dma | src/cpu/mod.rs:484-494 | memory becomes DmaSpec of the old |
| GbCpu.Cpu.AccessRegister | src/cpu/mod.rs:660-672 | None exactly for an immediate operand, otherwise the register or (HL) |
| GbCpu.Cpu.SetRegister | src/cpu/mod.rs:674-690 | an 8-bit register changes alone; (HL) goes through set_mem at hl() |
| GbCpu.Cpu.And | src/cpu/mod.rs:928-933 | A and F become AndResult |
| GbCpu.Cpu.Or | src/cpu/mod.rs:935-940 | A and F become OrResult |
| GbCpu.Cpu.Xor | src/cpu/mod.rs:942-947 | A and F become XorResult |
| GbCpu.Cpu.Dec16 | src/cpu/mod.rs:1084-1089 | the register becomes Dec16Value of its old value |
| GbCpu.Cpu.Inc16 | src/cpu/mod.rs:1062-1082 | the register becomes Inc16Value of its old value |
| GbCpu.Cpu.Swap | src/cpu/mod.rs:1091-1099 | the operand's nibbles swapped (through set_mem for (HL)) and F set by SwapFlags |
| GbCpu.Cpu.Cpl | src/cpu/mod.rs:1119-1124 | A complemented, F becomes CplFlags |
| GbCpu.Cpu.Ccf | src/cpu/mod.rs:1126-1129 | only F changes, to CcfFlags |
| GbCpu.Cpu.Scf | src/cpu/mod.rs:1131-1134 | only F changes, to ScfFlags |
| GbCpu.Cpu.IncLy | src/cpu/mod.rs:461-468 | LY becomes IncLyValue, and the VBlank request bit is raised iff the new value exceeds 143 |
| GbCpu.Cpu.IncDiv | src/cpu/mod.rs:102-105 | only the divider byte changes, to IncDivValue |
| GbCpu.Cpu.SetBit | src/cpu/macros.rs:4-13 | the byte at the register's address gains the mask, nothing else changes, and the getter then holds |
| GbCpu.Cpu.UnsetBit | src/cpu/macros.rs:15-23 | the byte loses the mask, nothing else changes, and the getter then fails |
| GbCpu.Cpu.Press | src/cpu/macros.rs:97-104 | press clears the button bit, moves Stop to Normal and raises the input interrupt request |
| GbCpu.Cpu.Unpress | src/cpu/macros.rs:106-109 | unpress only sets the button bit |
| GbCpu.Cpu.PushBytes | src/cpu/mod.rs:1376-1377 | the two set_mem stores of a push |
| GbCpu.Cpu.PushOntoStack | src/cpu/mod.rs:1371-1379 | memory becomes PushSpec and SP drops by 2 |
| GbCpu.Cpu.PopFromStack | src/cpu/mod.rs:1402-1409 | returns the pair at SP-1:SP and raises SP by 2 |
| GbCpu.Cpu.DisableInterrupts | src/cpu/mod.rs:576-578 | set_mem(0xFFFF, 0) |
| GbCpu.Cpu.EnableInterrupts | src/cpu/mod.rs:572-574 | set_mem(0xFFFF, 0x1F) |
| GbCpu.Cpu.ServiceInterrupt | src/cpu/mod.rs:1456-1494 | memory becomes ServiceMem, SP drops by 2 and PC becomes the source's vector |
| GbCpu.Cpu.HandleInterrupts | src/cpu/mod.rs:1450-1500 | nothing changes unless all five IE bits are set; otherwise the first pending source is serviced |
| GbCpu.Cpu.IncPc | src/cpu/mod.rs:1446-1448 | only PC changes, by one |
| GbCpu.Cpu.IncPcLoop | src/cpu/macros.rs:76-78 | `for _ in 1..n` increments PC n - 1 times, or not at all for n = 0 |
| GbCpu.Cpu.EvenOddDispatch | src/cpu/macros.rs:64-86 | inc16 on register num/2 for even num, dec16 for odd, then the PC loop for that parity |
| GbCpu.DmaSpec | src/cpu/mod.rs:484-494 | dma() keeps the 64 KiB memory size |
| GbCpu.DmaCopied | src/cpu/mod.rs:488-492 | each prefix of dma()'s copy loop keeps the memory size |
| GbCpu.SetMemSpec | src/cpu/mod.rs:643-658 | set_mem keeps the memory size |
| GbCpu.PushSpec | src/cpu/mod.rs:1371-1379 | push_onto_stack keeps the memory size |
| GbCpu.ServiceMem | src/cpu/mod.rs:1450-1500 | servicing an interrupt keeps the memory size |
| GbCpu.ResetSoundMem | src/cpu/mod.rs:65-86 | reset()'s timer and sound stores keep the memory size |
| GbCpu.ResetVideoMem | src/cpu/mod.rs:87-95 | reset()'s LCD and IE stores keep the memory size |
| GbCpu.ResetMem | src/cpu/mod.rs:48-96 | reset()'s stores keep the memory size |
| GbCpu.Cpu.WriteByte | src/cpu/mod.rs:488-492 | a direct store changes exactly one byte and no register or other state |
| GbCpu.ResetTimerSquareMemMatchesTable | src/cpu/mod.rs:65-74 | reset's timer and square-channel stores set exactly the listed bytes and no other |
| GbCpu.ResetWaveNoiseMemMatchesTable | src/cpu/mod.rs:75-85 | reset's wave, noise and sound-control stores set exactly the listed bytes and no other |
| GbCpu.ResetTimerSquareMem | src/cpu/mod.rs:65-74 | the timer and square-channel stores keep the memory size |
| GbCpu.ResetWaveNoiseMem | src/cpu/mod.rs:75-85 | the wave, noise and sound-control stores keep the memory size |
| ApuSpec.LengthReg | src/cpu/apu.rs:439-446 | each channel's NRx1 lies in the register block and is neither NR52 nor its NRx4 |
| ApuSpec.ControlReg | src/cpu/apu.rs:497-499 | each channel's NRx4 lies in the block and is not NR52 |
| ApuSpec.EnvelopeReg | src/cpu/apu.rs:460-490 | each enveloped channel's NRx2 lies in the block and differs from NR52, its NRx1 and NRx4 |
| ApuSpec.EnvPaceReg | src/cpu/apu.rs:487-489 | the envelope pace field is 0..7 |
| ApuSpec.EnvVolumeReg | src/cpu/apu.rs:460-462 | the envelope volume field is 0..15 |
| ApuSpec.SweepPaceReg | src/cpu/apu.rs:376-378 | the sweep pace field is 0..7 |
| ApuSpec.SweepShift | src/cpu/apu.rs:384-386 | the sweep shift field is 0..7 |
| ApuSpec.Frequency1 | src/cpu/apu.rs:491-495 | channel1_frequency is 11 bits: NR14 bits 0-2 above NR13 |
| ApuSpec.UnsetSoundEffect | src/cpu/apu.rs:786-810 | unset_soundN turns exactly that channel off and changes nothing else |
| ApuSpec.SetSoundBitEffect | src/cpu/apu.rs:728-777 | the NR52 bit set by set_soundN turns exactly that channel on |
| ApuSpec.LengthByteStep | src/cpu/apu.rs:447-458 | one length count adds 1 to the 6-bit field, wrapping 63 to 0, and keeps bits 6-7 |
| ApuSpec.IncLengthCounts | src/cpu/apu.rs:447-458 | below 63 the length field counts up by one and the channel stays as it was |
| ApuSpec.IncLengthKeepsDuty | src/cpu/apu.rs:447-458 | a length count keeps the top two bits of NRx1 |
| ApuSpec.IncLengthWraps | src/cpu/apu.rs:447-458 | at 63 the field wraps to 0 and the channel's NR52 bit is cleared |
| ApuSpec.IncLengthFrame | src/cpu/apu.rs:447-458 | a no-op when length is disabled; otherwise only NRx1 and the channel's own NR52 bit change |
| ApuSpec.IncLength3Effect | src/cpu/apu.rs:585-600 | channel 3 counts the whole NR31 byte; 0xFF wraps to 0 and disables the channel |
| ApuSpec.StepEnvelopeValue | src/cpu/apu.rs:464-481 | one volume step: increasing saturates at 15, decreasing stops at 0; nothing but the volume changes |
| ApuSpec.StepEnvelopeKeepsRange | src/cpu/apu.rs:464-481 | the volume stays in 0..15 |
| ApuSpec.EnvelopeClockAsWritten | src/cpu/apu.rs:105-115 | as written: the clock panics (None) exactly when the counter is already 0 |
| ApuSpec.EnvelopeClock | src/cpu/apu.rs:105-115 | corrected clock (a reloaded pace of 0 gives counter 8): the envelope stays well-formed, keeps its direction and only counts down above 1 |
| ApuSpec.EnvelopeCounterUnderflow | src/cpu/apu.rs:108-110 | as written, a pace rewritten to 0 reloads the counter with 0 and the next clock underflows |
| ApuSpec.EnvelopeClockAgrees | src/cpu/apu.rs:105-115 | the corrected clock agrees with the source wherever the source does not reload a zero pace |
| ApuSpec.EnvelopeClockStepsOnlyAtZero | src/cpu/apu.rs:105-115 | the volume changes only when the counter runs out with a non-zero pace |
| ApuSpec.WithEnv | src/cpu/apu.rs:105-139 | replacing one channel's envelope is read back |
| ApuSpec.Shr | src/cpu/apu.rs:408 | `freq >> shift` is at most freq, and at most half of it for a non-zero shift |
| ApuSpec.Nr14WithHighBits | src/cpu/apu.rs:420-421 | the NR14 write-back sets the low three bits and keeps the upper five |
| ApuSpec.WriteFrequency1ReadBack | src/cpu/apu.rs:418-421 | the frequency written back to NR13/NR14 reads back, and NR14's upper bits are kept |
| ApuSpec.WriteFrequency1Frame | src/cpu/apu.rs:418-421 | the write-back touches only NR13 and NR14 |
| ApuSpec.SweepOverflowCheck | src/cpu/apu.rs:388-402 | the overflow check only turns channel 1 off or records a negation; NR13/NR14 are untouched |
| ApuSpec.WriteBack | src/cpu/apu.rs:417-421 | the shadow frequency and NR13/NR14 both hold the new value; NR14's upper bits and everything else are kept |
| ApuSpec.SweepStep | src/cpu/apu.rs:404-427 | the frequency stays within 11 bits and only the registers, the negation flag and the frequency change |
| ApuSpec.SweepStepOverflow | src/cpu/apu.rs:408-412 | an increasing step past 0x7FF only turns channel 1 off |
| ApuSpec.SweepStepNoShift | src/cpu/apu.rs:417 | with shift 0 the frequency and registers are kept |
| ApuSpec.SweepStepWritesBack | src/cpu/apu.rs:417-424 | otherwise the new frequency is in the shadow register and reads back from NR13/NR14 |
| ApuSpec.ClockSweep | src/cpu/apu.rs:143-158 | the sweep clock keeps div_apu, the sweep-enabled flag and every envelope |
| ApuSpec.ClockEnvelope | src/cpu/apu.rs:105-139 | one channel's envelope clock changes only that envelope, and only when the channel is on |
| ApuSpec.ClockEnvelopes | src/cpu/apu.rs:103-140 | the three envelope clocks leave registers, div_apu and sweep state alone, and the envelopes of channels that are off |
| ApuSpec.EnvelopePhase | src/cpu/apu.rs:103-140 | envelopes are clocked only when div_apu is 7 |
| ApuSpec.SweepPhase | src/cpu/apu.rs:142-159 | the sweep runs only when div_apu & 3 == 2 |
| ApuSpec.LengthPhase | src/cpu/apu.rs:160-166 | the length counters run only on even div_apu, and then are all four clocks |
| ApuSpec.StepAdvances | src/cpu/apu.rs:101-102 | step advances div_apu modulo 8 and keeps the sweep-enabled flag |
| ApuSpec.StepEnvelopesOnlyAt7 | src/cpu/apu.rs:103 | the envelopes change only when div_apu becomes 7 |
| ApuSpec.StepSweepOnlyAt2Or6 | src/cpu/apu.rs:142 | the sweep state changes only when div_apu becomes 2 or 6 |
| ApuSpec.StepKeepsRegistersOnOdd | src/cpu/apu.rs:142-166 | the registers change only on even div_apu |
| ApuSpec.StepLengthsAt0Or4 | src/cpu/apu.rs:160-166 | at 0 and 4 the registers change only by the four length counts |
| ApuSpec.EnvelopeOnlyWhenOn | src/cpu/apu.rs:105-129 | a channel that is off keeps its envelope across a step |
| ApuSpec.LoadEnvelope | src/cpu/apu.rs:731-743 | a reload takes pace, volume and direction from NRx2, with counter 8 for a zero pace |
| ApuSpec.SetSound1 | src/cpu/apu.rs:728-752 | set_sound1 reloads frequency and envelope from the registers; sweep enabled iff shift or pace is non-zero; only NR52 may change in the registers |
| ApuSpec.SetSoundEnv | src/cpu/apu.rs:753-777 | set_sound2/set_sound4 turn the channel on, reload its envelope and leave the other channels |
| ApuSpec.ClearStatusBits | src/cpu/apu.rs:812-816 | the status-bit clears of unset_sound_all touch only NR52 |
| ApuSpec.PowerOffSilences | src/cpu/apu.rs:811-821 | powering off leaves every channel and the APU off and keeps wave RAM |
| ApuSpec.PowerOffAfterClear | src/cpu/apu.rs:811-821 | the zeroing loop overwrites the status-bit clears |
| ApuSpec.WriteNr10 | src/cpu/apu.rs:204-221 | NR10 stores the value without bit 7 |
| ApuSpec.WriteEnvelopeReg | src/cpu/apu.rs:243-266 | NRx2 writes store the byte and change only registers |
| ApuSpec.WriteNr30 | src/cpu/apu.rs:268-276 | NR30 stores the byte and changes only registers |
| ApuSpec.SetMemIgnoredWhenOff | src/cpu/apu.rs:198-202 | while NR52 bit 7 is clear, writes to 0xFF10..=0xFF25 change nothing |
| ApuSpec.SetMemPowerOff | src/cpu/apu.rs:356-358 | writing NR52 with bit 7 clear turns everything off and zeroes 0xFF10..=0xFF2F |
| ApuSpec.SetMemPowerOn | src/cpu/apu.rs:359-362 | writing NR52 with bit 7 set sets only bit 7; from off div_apu restarts at 7 |
| ApuSpec.SetMemDacOff | src/cpu/apu.rs:243-266 | NR12/NR22/NR42 with the top five bits zero turn that channel off; the byte is stored |
| ApuSpec.SetMemNr30Off | src/cpu/apu.rs:268-276 | NR30 with bit 7 clear turns channel 3 off |
| ApuSpec.SetMemStoresLength | src/cpu/apu.rs:223-241 | a powered write to NRx1 stores the byte and nothing else |
| ApuSpec.SetMemWaveRam | src/cpu/apu.rs:364-366 | wave RAM is written whether or not the APU is on |
| ApuSpec.SetMemTriggerDacOn | src/cpu/apu.rs:306-353 | a trigger of channel 2, 3 or 4 with its DAC on turns the channel on |
| ApuSpec.WriteNr14DacOff | src/cpu/apu.rs:289-302 | a trigger of channel 1 with its DAC off leaves it off |
| ApuSpec.SetMemTriggerDacOff | src/cpu/apu.rs:278-303 | the same through set_mem |
| ApuSpec.ReadShowsReadableBits | src/cpu/apu.rs:170-195 | get_mem shows exactly the readable bits of the stored byte and 1s elsewhere |
| ApuSpec.WriteOnlyReadsFF | src/cpu/apu.rs:174-191 | 0xFF13, 0xFF15, 0xFF18, 0xFF1B, 0xFF1D, 0xFF1F, 0xFF20 and 0xFF27..=0xFF2F read 0xFF |
| ApuSpec.ReadNr52 | src/cpu/apu.rs:192 | NR52 reads the power and channel bits with bits 4-6 as 1 |
| ApuSpec.NewIgnoresWrites | src/cpu/apu.rs:32-55 | a new APU is off and ignores writes to 0xFF10..=0xFF25 |
| ApuSpec.ResetPowers | src/cpu/apu.rs:57-76 | after reset the APU is on, channel 1 on iff not in SGB mode, the rest off |
| ApuSpec.ResetShadowValues | src/cpu/apu.rs:78-97 | reset's shadow values derive from the post-boot registers, with div_apu 7 and counters 8 |
| ApuSpec.ResetKeepsUnlisted | src/cpu/apu.rs:57-76 | the bytes reset does not write are kept |
| ApuSpec.StepSpec | src/cpu/apu.rs:101-166 | Apu::step keeps every register a byte, div_apu below 8 and the counters in range |
| ApuSpec.SetSoundAll | src/cpu/apu.rs:778-785 | set_sound_all keeps the state well-formed |
| ApuSpec.WriteNr14 | src/cpu/apu.rs:278-303 | the NR14 write keeps the state well-formed |
| ApuSpec.WriteNr24 | src/cpu/apu.rs:306-331 | the NR24 write keeps the state well-formed |
| ApuSpec.WriteNr34 | src/cpu/apu.rs:333-342 | the NR34 write changes only the register bytes |
| ApuSpec.WriteNr44 | src/cpu/apu.rs:344-353 | the NR44 write keeps the state well-formed |
| ApuSpec.WriteNr52 | src/cpu/apu.rs:356-363 | the NR52 write keeps the state well-formed |
| ApuSpec.SetMemSpec | src/cpu/apu.rs:197-367 | Apu::set_mem keeps the state well-formed |
| ApuSpec.NewState | src/cpu/apu.rs:32-55 | Apu::new builds a well-formed state |
| ApuSpec.ResetFromRegs | src/cpu/apu.rs:57-99 | the shadow-state reload is well-formed |
| ApuSpec.ResetSpec | src/cpu/apu.rs:57-99 | Apu::reset builds a well-formed state |
| Apu.Apu.constructor | src/cpu/apu.rs:32-55 | Apu::new: the state is NewState (registers zero, div_apu 7, counters 8) |
| Apu.Apu.UnsetSound | src/cpu/apu.rs:786-810 | the registers become UnsetSound of the old |
| Apu.Apu.UnsetSoundAll | src/cpu/apu.rs:811-821 | the status bits are cleared, then 0xFF10..=0xFF2F zeroed one by one (loop invariant) |
| Apu.Apu.SetStatusBit | src/cpu/apu.rs:729 | the channel's NR52 bit is set |
| Apu.Apu.SetSound3 | src/cpu/apu.rs:764-766 | only channel 3's status bit is set |
| Apu.Apu.SetSoundAll | src/cpu/apu.rs:778-785 | the state becomes SetSoundAll of the old |
| Apu.Apu.SetSoundEnv | src/cpu/apu.rs:753-777 | the state becomes SetSoundEnv of the old |
| Apu.Apu.SetSound1 | src/cpu/apu.rs:728-752 | the state becomes SetSound1 of the old |
| Apu.Apu.IncSoundLength | src/cpu/apu.rs:447-458 | the registers become IncLength of the old |
| Apu.Apu.StoreLengthField | src/cpu/apu.rs:442-446 | only NRx1 changes, to its next length byte |
| Apu.Apu.Channel3IncSoundLength | src/cpu/apu.rs:585-600 | the registers become IncLength3 of the old |
| Apu.Apu.SetEnv | src/cpu/apu.rs:464-481 | only the channel's envelope changes |
| Apu.Apu.StepEnvelope | src/cpu/apu.rs:464-481 | the channel's envelope takes one volume step |
| Apu.Apu.ClockEnvelope | src/cpu/apu.rs:105-139 | the program's envelope clock is the corrected one: the state becomes ClockEnvelope of the old (see Findings) |
| Apu.Apu.Channel1SweepStepOverflowLogic | src/cpu/apu.rs:388-402 | the state becomes SweepOverflowCheck of the old |
| Apu.Apu.Channel1SweepStep | src/cpu/apu.rs:404-427 | the state becomes SweepStep of the old |
| Apu.Apu.WriteFrequency | src/cpu/apu.rs:418-421 | the shadow frequency and NR13/NR14 take the new value |
| Apu.Apu.ClockSweep | src/cpu/apu.rs:143-158 | the state becomes ClockSweep of the old |
| Apu.Apu.Step | src/cpu/apu.rs:101-167 | the state becomes StepSpec of the old |
| Apu.Apu.EnvelopeBlock | src/cpu/apu.rs:103-140 | the state becomes EnvelopePhase of the old |
| Apu.Apu.SweepBlock | src/cpu/apu.rs:142-159 | the state becomes SweepPhase of the old |
| Apu.Apu.LengthBlock | src/cpu/apu.rs:160-166 | the state becomes LengthPhase of the old |
| Apu.Apu.GetMem | src/cpu/apu.rs:170-195 | get_mem returns ApuRead of the registers |
| Apu.Apu.WriteSweepControl | src/cpu/apu.rs:204-221 | the state becomes WriteNr10 of the old |
| Apu.Apu.WriteEnvelopeControl | src/cpu/apu.rs:243-266 | the state becomes WriteEnvelopeReg of the old |
| Apu.Apu.WriteWaveDac | src/cpu/apu.rs:268-276 | the state becomes WriteNr30 of the old |
| Apu.Apu.LengthEnableEdgeOnWrite | src/cpu/apu.rs:279-288 | the length-enable edge count of the NR14/NR24 arms |
| Apu.Apu.LengthOnTrigger | src/cpu/apu.rs:289-296 | the length count on a trigger of the NR14/NR24 arms |
| Apu.Apu.WriteControl1 | src/cpu/apu.rs:278-303 | the state becomes WriteNr14 of the old |
| Apu.Apu.WriteControl2 | src/cpu/apu.rs:306-331 | the state becomes WriteNr24 of the old |
| Apu.Apu.WriteControl3 | src/cpu/apu.rs:333-342 | the state becomes WriteNr34 of the old |
| Apu.Apu.WriteControl4 | src/cpu/apu.rs:344-353 | the state becomes WriteNr44 of the old |
| Apu.Apu.WritePower | src/cpu/apu.rs:356-363 | the state becomes WriteNr52 of the old |
| Apu.Apu.SetMem | src/cpu/apu.rs:197-368 | the state becomes SetMemSpec of the old |
| Apu.Apu.Reset | src/cpu/apu.rs:57-99 | the state becomes ResetSpec of the old |
| Apu.Apu.WriteBootRegisters | src/cpu/apu.rs:58-76 | the registers become the reset table |
| GbaDecode.BgControlFromBits | src/gba/mod.rs:44-55 | PpuBgControl::from_bits: priority, character base and screen size are at most 3, screen base at most 31; the booleans are bits 6, 7 and 13 (both directions) |
| GbaDecode.BgControlRoundTrip | src/gba/mod.rs:44-55 | every well-formed control value is decoded back from its bits |
| GbaDecode.BgControlBitsRoundTrip | src/gba/mod.rs:44-55 | decoding loses exactly bits 4 and 5 |
| GbaDecode.AddrControlBits | src/gba/mod.rs:58-63 | each address-control variant has a two-bit code |
| GbaDecode.AddrControlRoundTrip | src/gba/mod.rs:66-74 | DmaAddrControl::from_bits and the two-bit code are inverse on 0..3 |
| GbaDecode.StartTimingBits | src/gba/mod.rs:78-83 | each start-timing variant has a two-bit code |
| GbaDecode.StartTimingRoundTrip | src/gba/mod.rs:86-94 | DmaStartTiming::from_bits and the two-bit code are inverse on 0..3 |
| GbaDecode.DmaControlFromBits | src/gba/mod.rs:112-123 | DmaControl::from_bits never reaches unreachable!() (every field is masked to two bits); enabled and irq-at-end are bits 15 and 14 (both directions) |
| GbaDecode.DmaControlRoundTrip | src/gba/mod.rs:112-123 | every control value is decoded back from its bits |
| GbaDecode.DmaControlBitsRoundTrip | src/gba/mod.rs:112-123 | decoding loses exactly the low five bits |
| GbaDecode.CondBits | src/gba/mod.rs:562-579 | each condition has a four-bit code |
| GbaDecode.CondRoundTrip | src/gba/mod.rs:582-602 | Cond::from_u8 is a bijection from 0..15 onto the conditions |
| GbaDecode.CondPairsDifferInBit0 | src/gba/mod.rs:582-602 | flipping bit 0 of the encoding gives the complementary condition (EQ/NE, ..., AL/NV) |
| GbaDecode.RegisterModeFromU8 | src/gba/mod.rs:545-558 | RegisterMode::from_u8 accepts exactly seven encodings, and User exactly for 0b10000 and 0b11111 |
| GbaDecode.ModeBitsRoundTrip | src/gba/mod.rs:545-558 | every mode is recognised from its own five bits, with bit 4 set |
| GbaDecode.ModeDecodeInjective | src/gba/mod.rs:545-558 | only User has two encodings |
| GbaDecode.ModeFromU8 | src/gba/mod.rs:523-531 | Mode::from_u8 gives User exactly for 0 and Supervisor exactly for 3 (above 3 panics) |
| GbaDecode.SplitPc | src/gba/mod.rs:775-785 | split_pc: the flags fit four bits, the word address 24 bits, the IRQ/FIQ-disable booleans are bits 27 and 26 |
| GbaRegisters.WithBit | src/gba/mod.rs:652-689 | a cpsr_set_* makes its single-bit getter return the value written and keeps every other bit |
| GbaRegisters.ModeBitsOf | src/gba/mod.rs:694-696 | mode_bits is at most 0x1F |
| GbaRegisters.SetBanked | src/gba/mod.rs:445-511 | an r13/r14 store changes only the banked copies |
| GbaRegisters.Set | src/gba/mod.rs:445-511 | IndexMut never changes CPSR or the SPSRs |
| GbaRegisters.GetAfterSet | src/gba/mod.rs:375-511 | a register written through IndexMut is read back through Index |
| GbaRegisters.SetLowOther | src/gba/mod.rs:445-511 | writing one of r0-r7 leaves the others |
| GbaRegisters.SetHighOther | src/gba/mod.rs:445-511 | writing one of r8-r12 leaves the others |
| GbaRegisters.SetHighKeeps1314 | src/gba/mod.rs:445-511 | writing r8-r12 keeps the bank's r13/r14 and is read back |
| GbaRegisters.SetLowGet | src/gba/mod.rs:445-511 | writing one of r0-r7 is read back |
| GbaRegisters.SetLowFrame | src/gba/mod.rs:375-511 | writing r0-r7 or r15 leaves every other visible register |
| GbaRegisters.SetHighFrame | src/gba/mod.rs:375-511 | writing r8-r12 leaves every other visible register |
| GbaRegisters.SetBankedFrame | src/gba/mod.rs:375-511 | writing r13 or r14 leaves every other visible register |
| GbaRegisters.GetAfterSetOther | src/gba/mod.rs:375-511 | within one mode the sixteen visible registers are distinct |
| GbaRegisters.UnbankedRegisters | src/gba/mod.rs:375-441 | r0-r7 and r15 are the same in every mode |
| GbaRegisters.FiqBankedRegisters | src/gba/mod.rs:375-441 | r8-r12 read the _fiq copies exactly in FIQ mode |
| GbaRegisters.BankedStackAndLink | src/gba/mod.rs:375-441 | r13 and r14 are the mode's own copies |
| GbaRegisters.UnknownModeUsesUndefinedBank | src/gba/mod.rs:375-441 | an unrecognised mode selects the Undefined bank for r13/r14 and the user r8-r12 |
| GbaRegisters.SystemModeUsesUserBank | src/gba/mod.rs:545-558 | both User encodings use the user registers |
| GbaRegisters.SetSpsr | src/gba/mod.rs:712-722 | a store through get_spsr_mut changes the mode's SPSR only, and it reads back |
| GbaRegisters.Lr | src/gba/mod.rs:731-741 | lr() is the mode's r14, as Index reads it |
| GbaRegisters.Sp | src/gba/mod.rs:753-763 | sp() is the mode's r13, as Index reads it |
| GbaRegisters.WithMode | src/gba/mod.rs:723-730 | set_svc_mode/set_irq_mode replace only bits 0-4 |
| GbaRegisters.WithModeSelects | src/gba/mod.rs:723-730 | after them the mode is Supervisor / IRQ |
| GbaRegisters.IrqEntryCpsrKeeps | src/gba/mod.rs:1488-1497 | the IRQ entry CPSR keeps every bit other than mode, T and I |
| GbaRegisters.IrqEntryCpsrControl | src/gba/mod.rs:1488-1497 | the IRQ entry CPSR is IRQ mode, ARM state, IRQs disabled |
| GbaRegisters.FlagSetterGetter | src/gba/mod.rs:649-692 | each flag setter (N, Z, C, V, T, I) makes its getter return the value written |
| GbaRegisters.FlagSetterKeepsMode | src/gba/mod.rs:649-692 | a flag setter keeps the mode and so every visible register |
| GbaRegisters.NewRegsState | src/gba/mod.rs:606-647 | new(): Supervisor mode, ARM state, IRQ and FIQ disabled, flags clear, registers zero |
| GbaRegisters.CondComplements | src/gba/mod.rs:840-863 | cond_should_execute: AL always, NV never, each pair complementary (ARM ARM section A3.2) |
| GbaRegisters.CondReadsOnlyFlags | src/gba/mod.rs:840-863 | a condition reads only CPSR bits 28-31 |
| GbaRegisters.Registers.constructor | src/gba/mod.rs:606-647 | the state is NewRegs |
| GbaRegisters.Registers.Index | src/gba/mod.rs:375-441 | Index reads Get of the state |
| GbaRegisters.Registers.IndexMut | src/gba/mod.rs:445-511 | the state becomes Set of the old |
| GbaRegisters.Registers.SetBankedMut | src/gba/mod.rs:445-511 | the state becomes SetBanked of the old |
| GbaRegisters.Registers.CpsrSetSignFlag | src/gba/mod.rs:652-655 | only CPSR changes, by WithBit on bit 31 |
| GbaRegisters.Registers.CpsrSetZeroFlag | src/gba/mod.rs:659-662 | only CPSR changes, by WithBit on bit 30 |
| GbaRegisters.Registers.CpsrSetCarryFlag | src/gba/mod.rs:666-669 | only CPSR changes, by WithBit on bit 29 |
| GbaRegisters.Registers.CpsrSetOverflowFlag | src/gba/mod.rs:673-676 | only CPSR changes, by WithBit on bit 28 |
| GbaRegisters.Registers.SetThumb | src/gba/mod.rs:686-689 | only CPSR changes, by WithBit on bit 5 |
| GbaRegisters.Registers.CpsrDisableIrq | src/gba/mod.rs:690-692 | only CPSR bit 7 is set |
| GbaRegisters.Registers.SetSvcMode | src/gba/mod.rs:723-726 | only CPSR changes, to WithMode(cpsr, 0x13) |
| GbaRegisters.Registers.SetIrqMode | src/gba/mod.rs:727-730 | only CPSR changes, to WithMode(cpsr, 0x12) |
| GbaRegisters.Registers.SetSpsrMut | src/gba/mod.rs:712-722 | the state becomes SetSpsr of the old |
| GbaIo.Latch | src/gba/mod.rs:251-273 | a latch step never changes the register bytes |
| GbaIo.SetMem8Spec | src/gba/mod.rs:242-283 | a byte store keeps the block at 0x400 bytes |
| GbaIo.SetMem8Frame | src/gba/mod.rs:242-283 | a byte store changes no offset but the addressed one |
| GbaIo.IfWritesOnlyClear | src/gba/mod.rs:248-250 | a write to IF (0x202) only clears bits, and it clears exactly the bits written as 1 (acknowledge) |
| GbaIo.OtherWritesStore | src/gba/mod.rs:251-281 | every offset other than IF stores the byte verbatim |
| GbaIo.LatchRule | src/gba/mod.rs:251-273 | channel k's latch is set after the write iff it was set before or the write puts bit 7 into its control high byte (0xBB, 0xC7, 0xD3, 0xDF); no write clears it |
| GbaIo.AlignDown2 | src/gba/mod.rs:284-293 | `addr & !1` is even, within 1 below addr, and stays in the I/O window with its successor |
| GbaIo.AlignDown4 | src/gba/mod.rs:294-305 | `addr & !3` is a multiple of 4, within 3 below addr, and its word stays in the I/O window |
| GbaIo.OrTwo | src/gba/mod.rs:294-305 | `addr \| 2` is never below addr |
| GbaIo.OrTwoFacts | src/gba/mod.rs:294-305 | `addr \| 2` is the upper half of the word at `addr & !3`, in the same window |
| GbaIo.OffsetsOfWord | src/gba/mod.rs:294-305 | the four bytes of an aligned word have consecutive offsets below 0x400 |
| GbaIo.OffsetsOfHalf | src/gba/mod.rs:284-293 | the two bytes of an aligned half-word have consecutive offsets below 0x400 |
| GbaIo.SetMem16Spec | src/gba/mod.rs:284-293 | a half-word store keeps the block at 0x400 bytes |
| GbaIo.SetMem32Spec | src/gba/mod.rs:294-305 | a word store keeps the block at 0x400 bytes |
| GbaIo.HalfOfBytes | src/gba/mod.rs:284-293 | a half-word is its low byte or'ed with its high byte shifted by 8 |
| GbaIo.WordOfHalves | src/gba/mod.rs:294-305 | a word is its four bytes reassembled little-endian |
| GbaIo.SetMem16Bytes | src/gba/mod.rs:284-293 | outside IF, a 16-bit store puts the low byte at `addr & !1`, the high byte after it, and changes nothing else |
| GbaIo.SetMem16Stores | src/gba/mod.rs:284-293 | outside IF, a 16-bit store reads back as the same half-word |
| GbaIo.SetMem32Bytes | src/gba/mod.rs:294-305 | outside IF, a 32-bit store puts the four bytes little-endian at `addr & !3` |
| GbaIo.SetMem32Stores | src/gba/mod.rs:294-305 | outside IF, a 32-bit store reads back as the same word |
| GbaIo.DmaLayout | src/gba/mod.rs:149-228 | channel k's registers start at 0xB0 + 12k with the word count at +8 and control at +10; channel 1's destination is at 0xC0 and its word count at 0xC4 |
| GbaIo.LatchMatchesControl | src/gba/mod.rs:112-123 | after a write that latches channel k, channel k's control decodes as enabled and its latch is set |
| GbaIo.Dma1DestOverlapsWordCount | src/gba/mod.rs:190-198 | as written, the upper 16 bits of channel 1's destination are its word count (bytes 0xC4/0xC5) |
| GbaIo.Dma1DestAsWrittenLosesAddress | src/gba/mod.rs:190-195 | as written, a destination of 1 at 0xC0 reads back as 0; the corrected getter reads 1 |
| GbaIo.DmaDestIsOwnRegister | src/gba/mod.rs:169-228 | the program's destination getter is the corrected one (see Findings): each channel's destination is unaffected by writes outside its own four bytes |
| GbaIo.DisableDma | src/gba/mod.rs:229-241 | disable_dmaN clears the enable bit of channel k's control and leaves all four latches alone |
| GbaIo.DmaWaitingAfterLatch | src/gba/mod.rs:135-147 | a fresh block has no DMA waiting; after a write that latches a channel one is waiting |
| GbaIo.IoRegisters.constructor | src/gba/mod.rs:135-143 | the new block is 0x400 zero bytes with no latch set |
| GbaIo.IoRegisters.SetMem8 | src/gba/mod.rs:242-283 | the array afterwards is SetMem8Spec of the old state |
| GbaIo.IoRegisters.SetMem16 | src/gba/mod.rs:284-293 | the array afterwards is SetMem16Spec of the old state |
| GbaIo.IoRegisters.SetMem32 | src/gba/mod.rs:294-305 | the array afterwards is SetMem32Spec of the old state |
| GbaIo.IoRegisters.DisableDmaMut | src/gba/mod.rs:229-241 | the array afterwards is DisableDma of the old state |
| GbaBus.BiosIndex | src/gba/mod.rs:1158-1165 | `addr & 0x3FFF` lies inside the 16 KiB BIOS |
| GbaBus.WramIndex | src/gba/mod.rs:1133-1136 | `addr & 0x3FFFF` lies inside the 256 KiB on-board work RAM |
| GbaBus.IwIndex | src/gba/mod.rs:1138 | `addr & 0x7FFF` lies inside the 32 KiB on-chip work RAM |
| GbaBus.SmallIndex | src/gba/mod.rs:1140-1146 | `addr & 0x3FF` lies inside the 1 KiB palette, OAM and I/O blocks |
| GbaBus.VramIndex | src/gba/mod.rs:1144 | `addr & 0x17FFF` lies inside the 96 KiB VRAM |
| GbaBus.RomIndex | src/gba/mod.rs:1147 | `addr & 0x1FFFFFF` lies inside the 32 MiB ROM window |
| GbaBus.Align2 | src/gba/mod.rs:1155 | `addr & !1` is the even address at or just below addr |
| GbaBus.Align4 | src/gba/mod.rs:1232 | `addr & !3` is the multiple of 4 at or up to 3 below addr |
| GbaBus.Le16OfBytes | src/gba/mod.rs:1154-1230 | splitting a half-word into bytes and reassembling it little-endian is the identity |
| GbaBus.WordIsRead32 | src/gba/mod.rs:1231-1316 | the I/O block's word reader and the bus's 32-bit reader agree |
| GbaBus.WordOrder | src/gba/mod.rs:1231-1316 | the shifted-or assembly of four bytes is the little-endian word |
| GbaBus.Le32OfBytes | src/gba/mod.rs:1231-1316 | splitting a word into bytes and reassembling it little-endian is the identity |
| GbaBus.BiosConsecutive | src/gba/mod.rs:1237-1246 | inside an aligned word the BIOS indices of its bytes are consecutive |
| GbaBus.WramConsecutive | src/gba/mod.rs:1247-1256 | inside an aligned word the work RAM indices are consecutive |
| GbaBus.IwConsecutive | src/gba/mod.rs:1257-1265 | inside an aligned word the on-chip RAM indices are consecutive |
| GbaBus.SmallConsecutive | src/gba/mod.rs:1266-1283 | inside an aligned word the palette/OAM/I/O indices are consecutive |
| GbaBus.RomConsecutive | src/gba/mod.rs:1302-1309 | inside an aligned word the ROM indices are consecutive |
| GbaBus.VramConsecutive | src/gba/mod.rs:1284-1292 | inside an aligned word the VRAM indices are consecutive |
| GbaBus.RomWindowOffset | src/gba/mod.rs:1203-1226 | an address in any of the three ROM windows indexes the ROM by its distance from the window base |
| GbaBus.GetMem8 | src/gba/mod.rs:1124-1153 | the program's byte read is the corrected one (see Findings): the cycle count is 0, 1, 3 or 5, and a 0-cycle read returns 0 |
| GbaBus.GetMem8AsWritten | src/gba/mod.rs:1124-1153 | as written: a 0-cycle read returns 0 |
| GbaBus.GetMem8AsWrittenMissesMirrors | src/gba/mod.rs:1133-1140 | as written, a byte read in 0x02040000..=0x02FFFFFF or at 0x04FFFFFF returns (0, 0) although the corrected read reaches memory there |
| GbaBus.GetMem8AsWrittenElsewhere | src/gba/mod.rs:1124-1153 | everywhere else the as-written and corrected byte reads agree |
| GbaBus.RomHalf | src/gba/mod.rs:1203-1226 | the program's ROM half-word read is the corrected one (see Findings): 5 cycles, and a half-word not wholly inside the ROM reads 0 |
| GbaBus.RomHalfAsWritten | src/gba/mod.rs:1203-1226 | as written, the read panics (indexes past the ROM) exactly when the half-word's high byte is at index len |
| GbaBus.RomGuardOffByOne | src/gba/mod.rs:1204 | as written, a half-word read at 0x08000002 of a 3-byte ROM passes the `>` guard and panics; the corrected guard returns (0, 5) |
| GbaBus.RomHalfAgrees | src/gba/mod.rs:1203-1226 | where the as-written guard does not panic, it agrees with the corrected one |
| GbaBus.GetMem16 | src/gba/mod.rs:1154-1230 | a half-word read takes 0, 1, 3 or 5 cycles, and a 0-cycle read returns 0 |
| GbaBus.GetMem32 | src/gba/mod.rs:1231-1316 | a word read takes 0, 1, 2, 6 or 8 cycles, and a 0-cycle read returns 0 |
| GbaBus.Put2 | src/gba/mod.rs:1357-1412 | two byte stores keep the memory's size |
| GbaBus.Put4 | src/gba/mod.rs:1413-1487 | four byte stores keep the memory's size |
| GbaBus.SetMem8Spec | src/gba/mod.rs:1317-1356 | a byte store never changes the BIOS, ROM, palette, VRAM or OAM, and changes each RAM or the I/O block only when the address is in its window |
| GbaBus.SetMem16Spec | src/gba/mod.rs:1357-1412 | a half-word store never changes the BIOS or ROM, and changes each memory only when the address is in its window |
| GbaBus.SetMem32Spec | src/gba/mod.rs:1413-1487 | a word store never changes the BIOS or ROM, and changes each memory only when the address is in its window |
| GbaBus.Put2ReadBack | src/gba/mod.rs:1357-1412 | two stored bytes read back as the half-word |
| GbaBus.Put4ReadBack | src/gba/mod.rs:1413-1487 | four stored bytes read back as the word |
| GbaBus.Write8ReadBack | src/gba/mod.rs:1317-1356 | a byte written to work RAM reads back through get_mem8 |
| GbaBus.IoWrite8ReadBack | src/gba/mod.rs:1335-1338 | a byte written to an I/O register other than IF reads back |
| GbaBus.WramHalfConsecutive | src/gba/mod.rs:1369-1375 | the two bytes of an aligned half-word have consecutive work RAM indices |
| GbaBus.IwHalfConsecutive | src/gba/mod.rs:1376-1381 | the two bytes of an aligned half-word have consecutive on-chip RAM indices |
| GbaBus.SmallHalfConsecutive | src/gba/mod.rs:1382-1386 | the two bytes of an aligned half-word have consecutive palette/OAM/I/O indices |
| GbaBus.VramHalfConsecutive | src/gba/mod.rs:1393-1398 | the two bytes of an aligned half-word have consecutive VRAM indices |
| GbaBus.WramWrite16ReadBack | src/gba/mod.rs:1369-1375 | a half-word written to work RAM reads back through get_mem16 |
| GbaBus.IwWrite16ReadBack | src/gba/mod.rs:1376-1381 | a half-word written to on-chip RAM reads back |
| GbaBus.PaletteWrite16ReadBack | src/gba/mod.rs:1387-1392 | a half-word written to the palette reads back |
| GbaBus.VramWrite16ReadBack | src/gba/mod.rs:1393-1398 | a half-word written to VRAM reads back |
| GbaBus.OamWrite16ReadBack | src/gba/mod.rs:1399-1404 | a half-word written to OAM reads back |
| GbaBus.Write16ReadBack | src/gba/mod.rs:1357-1412 | a half-word written anywhere in RAM reads back |
| GbaBus.WramWrite32ReadBack | src/gba/mod.rs:1429-1437 | a word written to work RAM reads back through get_mem32 |
| GbaBus.IwWrite32ReadBack | src/gba/mod.rs:1438-1445 | a word written to on-chip RAM reads back |
| GbaBus.PaletteWrite32ReadBack | src/gba/mod.rs:1451-1458 | a word written to the palette reads back |
| GbaBus.VramWrite32ReadBack | src/gba/mod.rs:1459-1466 | a word written to VRAM reads back |
| GbaBus.OamWrite32ReadBack | src/gba/mod.rs:1467-1476 | a word written to OAM reads back |
| GbaBus.Write32ReadBack | src/gba/mod.rs:1413-1487 | a word written anywhere in RAM reads back |
| GbaBus.IoWrite16ReadBack | src/gba/mod.rs:1382-1386 | a half-word written to I/O registers other than IF reads back |
| GbaBus.IoWrite32ReadBack | src/gba/mod.rs:1446-1450 | a word written to I/O registers other than IF reads back |
| GbaBus.IoRead32 | src/gba/mod.rs:1231-1316 | a word read in the I/O window is the I/O block's little-endian word at `(addr & !3) & 0x3FF` |
| GbaBus.HalfReadIsTwoByteReads | src/gba/mod.rs:1154-1230 | in the RAM and I/O windows a half-word read is the byte reads at `addr & !1` and `addr \| 1` |
| GbaInterrupts.BitMask | src/gba/mod.rs:1051-1106 | the mask of one bit is non-zero with exactly one bit set |
| GbaInterrupts.SetRequest | src/gba/mod.rs:1051-1106 | a set_*_interrupt setter keeps the I/O block at 0x400 bytes |
| GbaInterrupts.SetRequestGetter | src/gba/mod.rs:1008-1106 | after set_X_interrupt(v), X_interrupt_requested() returns v |
| GbaInterrupts.SetRequestOther | src/gba/mod.rs:1008-1106 | a setter leaves every other source's request bit as it was |
| GbaInterrupts.SetRequestFrame | src/gba/mod.rs:1051-1106 | a setter writes only IF (0x202/0x203): every other register byte and every enable bit stays |
| GbaInterrupts.SameMask | src/gba/mod.rs:1051-1106 | clearing a bit then or-ing in v makes that bit equal v |
| GbaInterrupts.DistinctMasks | src/gba/mod.rs:1051-1106 | clearing and setting one bit leaves every other bit of the byte |
| GbaInterrupts.SourceMakesPending | src/gba/mod.rs:1499-1548 | a source that is both enabled and requested makes an IRQ pending |
| GbaInterrupts.PendingSource | src/gba/mod.rs:1499-1548 | a pending IRQ has some source below 14 that is enabled and requested |
| GbaInterrupts.PendingIffSomeSource | src/gba/mod.rs:1499-1548 | the program's pending test (see Findings) holds iff some source is both enabled and requested |
| GbaInterrupts.LowMask | src/gba/mod.rs:1008-1050 | masking a byte with 0x3F keeps its bits 0-5 |
| GbaInterrupts.LowestBit | src/gba/mod.rs:1008-1050 | a non-zero byte has a set bit, below 6 when bits 6-7 are clear |
| GbaInterrupts.AndBit | src/gba/mod.rs:1499-1548 | bit k of IE & IF is set iff it is set in both |
| GbaInterrupts.VblankArmTestsHblankEnable | src/gba/mod.rs:1504 | as written: with IE = IF = VBlank no interrupt is taken; with IE = HBlank and IF = VBlank one is taken although nothing is pending |
| GbaInterrupts.PendingAsWrittenElsewhere | src/gba/mod.rs:1499-1548 | as written: when VBlank is not requested, the written test and the corrected one agree |
| GbaInterrupts.IrqModeCpsr | src/gba/mod.rs:727-730 | set_irq_mode selects the IRQ bank and changes only the mode bits |
| GbaInterrupts.IrqEntryRegisters | src/gba/mod.rs:1488-1497 | the program's IRQ entry is the corrected one (see Findings): it writes the entry CPSR, pc = 0x18, r14_irq = pc + 4 and SPSR_irq = the interrupted CPSR, and nothing else |
| GbaInterrupts.IrqLinkStore | src/gba/mod.rs:445-511 | in IRQ mode a store to r14 writes r14_irq |
| GbaInterrupts.IrqSpsrStore | src/gba/mod.rs:712-722 | in IRQ mode get_spsr_mut reaches SPSR_irq |
| GbaInterrupts.IrqEntryCpsr | src/gba/mod.rs:1488-1497 | after IRQ entry the processor is in IRQ mode and ARM state with IRQs disabled; flags, the F bit and the reserved bits are kept |
| GbaInterrupts.IrqEntrySavesNewMode | src/gba/mod.rs:1489-1493 | as written, SPSR_irq holds IRQ mode bits instead of the interrupted mode, so it differs from the corrected entry whenever the interrupted code was not in IRQ mode |
| GbaInterrupts.HandleInterrupts | src/gba/mod.rs:1499-1548 | nothing happens while the I bit is set or nothing is pending; otherwise the entry vectors to 0x18 with SPSR_irq = the old CPSR and the I bit set |
| GbaInterrupts.HandleInterruptsMasks | src/gba/mod.rs:1499-1548 | once an interrupt is taken, handling again does nothing, because the I bit is now set |
| Gba.Store2 | src/gba/mod.rs:1357-1412 | the array afterwards is Put2 of the old one |
| Gba.Store4 | src/gba/mod.rs:1413-1487 | the array afterwards is Put4 of the old one |
| Gba.GameboyAdvance.constructor | src/gba/mod.rs:788-801 | fresh zeroed memories of the hardware sizes, an empty ROM and the reset registers |
| Gba.GameboyAdvance.LoadRom | src/gba/mod.rs:804-834 | the whole image becomes the cartridge ROM and nothing else changes |
| Gba.GameboyAdvance.LoadBios | src/gba/mod.rs:836-838 | the BIOS becomes the given 16 KiB and nothing else changes |
| Gba.GameboyAdvance.SetMem8 | src/gba/mod.rs:1317-1356 | the memories and cycle count afterwards are SetMem8Spec of the old memories |
| Gba.GameboyAdvance.SetMem16 | src/gba/mod.rs:1357-1412 | the memories and cycle count afterwards are SetMem16Spec of the old memories |
| Gba.GameboyAdvance.SetMem32 | src/gba/mod.rs:1413-1487 | the memories and cycle count afterwards are SetMem32Spec of the old memories |
| Gba.GameboyAdvance.SetInterrupt | src/gba/mod.rs:1051-1106 | the I/O bytes afterwards are SetRequest of the old ones |
| Gba.GameboyAdvance.IrqInterrupt | src/gba/mod.rs:1488-1497 | the registers afterwards are IrqEntry of the old registers (the corrected entry, see Findings) |
| Gba.GameboyAdvance.SaveReturnState | src/gba/mod.rs:1489-1493 | IRQ mode, r14_irq = pc + 4 and SPSR_irq = the interrupted CPSR |
| Gba.GameboyAdvance.StoreLink | src/gba/mod.rs:1492 | in IRQ mode the pc + 4 store lands in r14_irq and nowhere else |
| Gba.GameboyAdvance.MaybeHandleInterrupts | src/gba/mod.rs:1499-1548 | the registers afterwards are HandleInterrupts of the old registers and the I/O bytes |
| GbaRenderer.NewRgb | src/io/deferred_renderer_gba.rs:9-15 | Rgb15::new never yields a transparent colour |
| GbaRenderer.FromBits | src/io/deferred_renderer_gba.rs:16-18 | from_bits keeps exactly the 15 colour bits and is never transparent |
| GbaRenderer.FromLoHi | src/io/deferred_renderer_gba.rs:19-22 | from_lo_hi is never transparent |
| GbaRenderer.FromLoHiIsFromBits | src/io/deferred_renderer_gba.rs:16-22 | from_lo_hi is from_bits of the little-endian half-word |
| GbaRenderer.OnlyTransparentIsTransparent | src/io/deferred_renderer_gba.rs:23-34 | transparent() is transparent, black() and white() are not |
| GbaRenderer.NewToRgb | src/io/deferred_renderer_gba.rs:9-44 | new then to_rgb keeps the top five bits of each channel |
| GbaRenderer.ToRgbNew | src/io/deferred_renderer_gba.rs:9-44 | to_rgb then new loses only the transparency bit |
| GbaRenderer.WhiteToRgb | src/io/deferred_renderer_gba.rs:29-44 | white() expands to 0xF8 in each channel |
| GbaRenderer.ObjectModeBits | src/io/deferred_renderer_gba.rs:45-63 | an object mode's field value is at most 3 |
| GbaRenderer.ObjectModeRoundTrip | src/io/deferred_renderer_gba.rs:52-63 | ObjectMode::from_bits is a bijection between 0..=3 and the four modes |
| GbaRenderer.ObjectShapeBits | src/io/deferred_renderer_gba.rs:65-84 | an object shape's field value is at most 3 |
| GbaRenderer.ObjectShapeRoundTrip | src/io/deferred_renderer_gba.rs:72-84 | ObjectShape::from_bits is a bijection between 0..=3 and the four shapes |
| GbaRenderer.ObjectSize | src/io/deferred_renderer_gba.rs:139-158 | each side is 8, 16, 32 or 64; square objects are square, horizontal ones wider, vertical ones taller |
| GbaRenderer.ObjectYRange | src/io/deferred_renderer_gba.rs:95-101 | the signed y is in -96..160 and agrees with the raw 8-bit field modulo 256 |
| GbaRenderer.ObjectXRange | src/io/deferred_renderer_gba.rs:102-108 | the signed x is in -272..240 and agrees with the raw 9-bit field modulo 512 |
| GbaRenderer.Attribute0Bytes | src/io/deferred_renderer_gba.rs:92-127 | the y field is byte 0 and the shape field the top two bits of byte 1 |
| GbaRenderer.Attribute1Bytes | src/io/deferred_renderer_gba.rs:92-139 | the x field is byte 2 plus bit 0 of byte 3; the size index is the top two bits of byte 3 |
| GbaRenderer.Attribute2Bytes | src/io/deferred_renderer_gba.rs:159-167 | tile number is byte 4 plus two bits of byte 5; priority and palette number are the next fields of byte 5 |
| GbaRenderer.ObjectDisabledIff | src/io/deferred_renderer_gba.rs:109-117 | an object is disabled iff rotation is off and the double-size bit is set |
| GbaRenderer.SquareSize | src/io/deferred_renderer_gba.rs:139-158 | square objects are 8 << size-index pixels on a side |
| GbaRenderer.VerticalIsTransposed | src/io/deferred_renderer_gba.rs:139-158 | a vertical object is the horizontal one of the same size index turned on its side |
| GbaRenderer.ObjectAtBytes | src/io/deferred_renderer_gba.rs:184-202 | OAM entry i is built from bytes 8i..8i+5 with the top two bytes zero |
| GbaRenderer.ObjectAtTopZero | src/io/deferred_renderer_gba.rs:184-202 | an OAM entry never has bits 48-63 set |
| GbaRenderer.RemainingObjects | src/io/deferred_renderer_gba.rs:184-207 | from position i the iterator yields entries i..127 in order, 128 - i of them |
| GbaRenderer.RemainingStep | src/io/deferred_renderer_gba.rs:184-202 | one iterator step yields entry i then the rest, and nothing from 128 on |
| GbaRenderer.AllObjects | src/io/deferred_renderer_gba.rs:175-202 | a fresh iterator yields exactly the 128 OAM entries |
| GbaRenderer.ObjectIter.constructor | src/io/deferred_renderer_gba.rs:176-179 | the iterator starts at entry 0 of the given machine |
| GbaRenderer.ObjectIter.Next | src/io/deferred_renderer_gba.rs:184-202 | next yields the head of the remaining entries and leaves the rest; None once all are yielded |
| GbaRenderer.ObjectIter.SizeHint | src/io/deferred_renderer_gba.rs:203-206 | size_hint is exact: the number of entries still to come, as both bounds |
| GbaRenderer.BgPriorityByte | src/gba/mod.rs:44-55 | a background's priority is the two low bits of BGnCNT's low byte, at most 3 |
| GbaRenderer.InsertByPriority | src/io/deferred_renderer_gba.rs:854 | one insertion step adds exactly the new entry |
| GbaRenderer.SortByPriority | src/io/deferred_renderer_gba.rs:854 | sort_by_key is a permutation of its input |
| GbaRenderer.AppendOrdered | src/io/deferred_renderer_gba.rs:854 | appending an entry that every entry precedes keeps the order |
| GbaRenderer.InsertOrdered | src/io/deferred_renderer_gba.rs:854 | inserting an entry numbered above every entry keeps the order |
| GbaRenderer.InsertedPrecede | src/io/deferred_renderer_gba.rs:854 | insertion keeps an upper bound that bounds the entry and the sequence |
| GbaRenderer.SortOrdered | src/io/deferred_renderer_gba.rs:854 | sorting entries listed by increasing background number orders them by priority, ties by number (stable) |
| GbaRenderer.SortKeepsEntries | src/io/deferred_renderer_gba.rs:854 | sorting keeps exactly the entries it is given |
| GbaRenderer.LayerOrderOf | src/io/deferred_renderer_gba.rs:855-859 | the order is 4 (objects) then the sorted entries' background numbers |
| GbaRenderer.LayerOrder | src/io/deferred_renderer_gba.rs:836-860 | layer_order names layers 0..4, each at most once |
| GbaRenderer.BgEntriesContents | src/io/deferred_renderer_gba.rs:837-853 | bg_order holds each enabled background once, with its priority, by increasing number |
| GbaRenderer.SortedBgEntriesContents | src/io/deferred_renderer_gba.rs:837-854 | after sorting bg_order still holds each enabled background once with its priority |
| GbaRenderer.SortedBgNumbers | src/io/deferred_renderer_gba.rs:837-854 | every sorted entry names a background 0..3 |
| GbaRenderer.SortedBgEntriesOrdered | src/io/deferred_renderer_gba.rs:854 | sorted bg_order is ordered by priority, ties by background number |
| GbaRenderer.LayerOrderShape | src/io/deferred_renderer_gba.rs:836-860 | objects come first and one entry follows per enabled background |
| GbaRenderer.LayerOrderEnabledOnly | src/io/deferred_renderer_gba.rs:836-860 | after the objects come only enabled backgrounds |
| GbaRenderer.LayerOrderHasEnabled | src/io/deferred_renderer_gba.rs:836-860 | every enabled background appears in the layer order |
| GbaRenderer.SortedEntryEnabled | src/io/deferred_renderer_gba.rs:837-854 | a sorted entry names an enabled background |
| GbaRenderer.EnabledEntrySorted | src/io/deferred_renderer_gba.rs:837-854 | every enabled background has its entry among the sorted ones |
| GbaRenderer.LayerOrderSorted | src/io/deferred_renderer_gba.rs:836-860 | backgrounds follow by ascending priority, ties broken by background number |
| GbaRenderer.SortedEntryPriority | src/io/deferred_renderer_gba.rs:837-854 | a sorted entry carries its background's priority |
| GbaRenderer.FirstOpaque | src/io/deferred_renderer_gba.rs:873-879 | the result is the first layer position from k whose pixel is opaque, with every earlier one transparent; None iff all are transparent |
| GbaRenderer.BlendedPixelChoice | src/io/deferred_renderer_gba.rs:863-882 | a pixel is the backdrop if every layer is transparent there, else the colour of the first opaque layer in order |
| GbaRenderer.ScanlineBlend | src/io/deferred_renderer_gba.rs:863-882 | the blended line has 240 pixels, each BlendedPixel of the backdrop, the layers and the order |
| GbaRenderer.BlendPixel | src/io/deferred_renderer_gba.rs:873-879 | pixel x becomes BlendedPixel and pixel_written[x] records whether some layer was opaque |
| GbaRenderer.LayerLines | src/io/deferred_renderer_gba.rs:898-985 | a layer the current mode does not draw stays wholly transparent |
| GbaRenderer.DrawGbaScanline | src/io/deferred_renderer_gba.rs:894-987 | under forced blank the line is all white; otherwise every pixel is BlendedPixel of the palette backdrop, the drawn layers and layer_order |
| DbgLexer.LiteralsNotNumbers | src/debugger/dbglanguage.rs:2479-3192 | no fixed terminal starts with a digit or spells a decimal or hexadecimal literal |
| DbgLexer.LiteralKind | src/debugger/dbglanguage.rs:2479-3192 | each fixed terminal's spelling is recognised as that terminal, so the spellings are distinct |
| DbgLexer.FixedSpelling | src/debugger/dbglanguage.rs:2479-3192 | a string recognised as a fixed terminal is exactly that terminal's spelling |
| DbgLexer.WalkSnoc | src/debugger/dbglanguage.rs:2479-3192 | reading one more character extends the DFA walk by one transition |
| DbgLexer.DecimalKind | src/debugger/dbglanguage.rs:2479-3192 | a decimal literal spells the decimal terminal |
| DbgLexer.HexKind | src/debugger/dbglanguage.rs:2479-3192 | a hexadecimal literal spells the hexadecimal terminal |
| DbgLexer.Parent | src/debugger/dbglanguage.rs:2479-3192 | each keyword/operator state has a parent state numbered below it |
| DbgLexer.DeltaParent | src/debugger/dbglanguage.rs:2479-3192 | every transition into a trie state comes from that state's parent on that character |
| DbgLexer.ParentDelta | src/debugger/dbglanguage.rs:2479-3192 | each trie state is entered from its parent on its character |
| DbgLexer.StepFixed | src/debugger/dbglanguage.rs:2479-3192 | a transition into a trie state extends the string it stands for by the character read |
| DbgLexer.StepNumber | src/debugger/dbglanguage.rs:2479-3192 | a transition into a number state keeps the meaning "a prefix of a number literal" |
| DbgLexer.NumberSources | src/debugger/dbglanguage.rs:2479-3192 | besides the start state only the "-" and "0" states lead into a number state |
| DbgLexer.StepDecimal | src/debugger/dbglanguage.rs:2479-3192 | another digit keeps a decimal number decimal |
| DbgLexer.StepHex | src/debugger/dbglanguage.rs:2479-3192 | a hexadecimal digit after "0x", "0X" or more hexadecimal digits stays in the hexadecimal state |
| DbgLexer.WalkMeans | src/debugger/dbglanguage.rs:2479-3192 | whatever state the DFA reaches, it has read a string that state stands for |
| DbgLexer.WalkWord | src/debugger/dbglanguage.rs:2479-3192 | the DFA reaches each trie state by reading that state's word |
| DbgLexer.WordStep | src/debugger/dbglanguage.rs:2479-3192 | one trie edge extends the parent's word by the edge's character |
| DbgLexer.AcceptStateRecords | src/debugger/dbglanguage.rs:2479-3192 | each fixed terminal's state records that terminal as the current match |
| DbgLexer.AcceptStateSpelling | src/debugger/dbglanguage.rs:2479-3192 | the state of each fixed terminal is reached by that terminal's spelling and records it |
| DbgLexer.AcceptingTrieState | src/debugger/dbglanguage.rs:2479-3192 | the accepting trie states other than "0" are exactly the fixed terminals' states |
| DbgLexer.AcceptMeans | src/debugger/dbglanguage.rs:2479-3192 | a string the DFA accepts spells the terminal the DFA records for it |
| DbgLexer.WalkDigits | src/debugger/dbglanguage.rs:2479-3192 | any run of digits keeps the decimal state |
| DbgLexer.WalkHexDigits | src/debugger/dbglanguage.rs:2479-3192 | any run of hexadecimal digits keeps the hexadecimal state |
| DbgLexer.KindWalks | src/debugger/dbglanguage.rs:2479-3192 | every string that spells a terminal leads the DFA to a state recording that terminal |
| DbgLexer.WalkKind | src/debugger/dbglanguage.rs:2479-3192 | the DFA records a match exactly for the prefixes that spell a terminal |
| DbgLexer.StuckStays | src/debugger/dbglanguage.rs:2479-3192 | once the DFA has no transition, it has none for any longer prefix |
| DbgLexer.Classify | src/debugger/dbglanguage.rs:2479-3192 | there is one classification per character of the text |
| DbgLexer.ClassifyAt | src/debugger/dbglanguage.rs:2479-3192 | entry i of the classification is the terminal spelled by the first i + 1 characters |
| DbgLexer.LastMatch | src/debugger/dbglanguage.rs:2479-3192 | a last match has a length between 1 and n and that prefix spells its terminal |
| DbgLexer.LastMatchIsLast | src/debugger/dbglanguage.rs:2479-3192 | no later prefix matches, and there is no match only when no prefix matches |
| DbgLexer.LastMatchSkip | src/debugger/dbglanguage.rs:2479-3192 | entries past the point where nothing more matches do not change the last match |
| DbgLexer.Stuck | src/debugger/dbglanguage.rs:2479-3192 | once the DFA has no transition, no longer prefix spells a terminal |
| DbgLexer.Advance | src/debugger/dbglanguage.rs:2479-3192 | one DFA transition: the state entered records what the longer prefix spells |
| DbgLexer.Tokenize | src/debugger/dbglanguage.rs:2479-3192 | __tokenize returns the longest match of the text |
| DbgLexer.LongestMatch | src/debugger/dbglanguage.rs:2479-3192 | the prefix returned spells the terminal returned and no longer prefix spells any; None iff no prefix does |
| DbgLexer.ZeroXNoKind | src/debugger/dbglanguage.rs:2479-3192 | "0x" with no hexadecimal digit after it spells no terminal |
| DbgLexer.ZeroXIsDecimalZero | src/debugger/dbglanguage.rs:2479-3192 | "0x" not followed by a hexadecimal digit lexes as the decimal "0" of length one |
| DbgLexer.MinusDigitIsDecimal | src/debugger/dbglanguage.rs:2479-3192 | a minus sign followed by a digit lexes as a negative decimal literal, never the minus operator |
| DbgLexer.MinusKind | src/debugger/dbglanguage.rs:2479-3192 | a string longer than "-" that starts with "-" and spells a terminal is a decimal literal |
| DbgLexer.TrimStart | src/debugger/dbglanguage.rs:3204 | trim_left never lengthens the text |
| DbgLexer.TrimStartSpec | src/debugger/dbglanguage.rs:3204 | trimming keeps a suffix that does not start with whitespace and drops only whitespace |
| DbgLexer.TrimmedRest | src/debugger/dbglanguage.rs:3203-3206 | the next item starts after exactly the whitespace following the consumed offset |
| DbgLexer.NextEnd | src/debugger/dbglanguage.rs:3207-3210 | the matcher ends exactly when only whitespace is left, and then consumes all of it |
| DbgLexer.TrimmedSlice | src/debugger/dbglanguage.rs:3203-3206 | the trimmed rest is the input from the next item's start |
| DbgLexer.NextLocated | src/debugger/dbglanguage.rs:3212-3219 | a located token starts past the whitespace, is the input slice [start, end), is the longest match there, is never " ", and moves the matcher to its end |
| DbgLexer.SliceSplit | src/debugger/dbglanguage.rs:3213-3214 | slicing the rest at the match length splits the input at start and end |
| DbgLexer.NextInvalid | src/debugger/dbglanguage.rs:3221-3223 | InvalidToken names the first offset past the whitespace, where no prefix matches, and leaves the matcher where it was |
| DbgLexer.Matcher.constructor | src/debugger/dbglanguage.rs:3195-3197 | a new matcher holds the whole text with nothing consumed |
| DbgLexer.Matcher.Next | src/debugger/dbglanguage.rs:3203-3227 | the item and the matcher's new text and offset are NextSpec of the old ones |
| DbgLexer.Tokens | src/debugger/dbglanguage.rs:3203-3227 | the matcher never yields the " " terminal |
| DbgLexer.NotSpaceKind | src/debugger/dbglanguage.rs:2479-3192 | a string starting with a non-blank character does not spell " " |
| DbgLexer.NextShrinks | src/debugger/dbglanguage.rs:3212-3219 | a located token consumes at least one character and is never " " |
| DbgLexer.DeltaNotStart | src/debugger/dbglanguage.rs:2479-3192 | no transition leads back to the start state |
| DbgLexer.WhitespaceStuck | src/debugger/dbglanguage.rs:2479-3192 | past the start state, no state has a transition on whitespace |
| DbgLexer.WalkLeavesStart | src/debugger/dbglanguage.rs:2479-3192 | reading a non-empty string never ends in the start state |
| DbgLexer.BlankEnds | src/debugger/dbglanguage.rs:2479-3192 | a terminal followed by whitespace cannot be extended |
| DbgLexer.LongestWord | src/debugger/dbglanguage.rs:2479-3192 | a terminal that cannot be extended is the longest match at the head of the text |
| DbgLexer.NextWord | src/debugger/dbglanguage.rs:3203-3227 | the matcher's step on such a terminal yields it located at the consumed offset |
| DbgLexer.TokensWord | src/debugger/dbglanguage.rs:3203-3227 | such a terminal is read as one token followed by the rest's tokens |
| DbgLexer.TokensLocated | src/debugger/dbglanguage.rs:3203-3227 | after a located token the token list continues with the rest's tokens |
| DbgLexer.NextBlank | src/debugger/dbglanguage.rs:3204-3206 | trimming skips a leading whitespace character |
| DbgLexer.TokensBlank | src/debugger/dbglanguage.rs:3204-3206 | the matcher skips a leading whitespace character |
| DbgLexer.TokensEmpty | src/debugger/dbglanguage.rs:3207-3210 | the empty text has no tokens |
| DbgNumbers.DigitValue | src/debugger/dbglanguage.rs:3530-3551 | a digit's value is below 16, below 10 for a decimal digit |
| DbgNumbers.ShortDigits | src/debugger/dbglanguage.rs:3530-3551 | one digit is its value; two digits are the first times the base plus the second |
| DbgNumbers.DigitChar | src/debugger/dbglanguage.rs:3297-3307 | the character of a decimal digit is a digit with that value |
| DbgNumbers.NatDigits | src/debugger/dbglanguage.rs:3297-3307 | a natural number's decimal digits are non-empty and all digits |
| DbgNumbers.NatDigitsValue | src/debugger/dbglanguage.rs:3297-3307 | the digits read back as the number, and only zero starts with '0' |
| DbgNumbers.RenderReadsBack | src/debugger/dbglanguage.rs:3297-3307 | Echo's format!("{}") text is a decimal literal that reads back as the value, without leading zeros or "-0"; i32::from_str of it gives the value back |
| DbgNumbers.DivRem | src/debugger/dbglanguage.rs:3447-3471 | Rust's i32 / and %: dividend = divisor * quotient + remainder, the remainder is smaller than the divisor and has the dividend's sign, the quotient rounds toward zero |
| DbgNumbers.Euclid | src/debugger/dbglanguage.rs:3447-3471 | Euclidean division of magnitudes |
| DbgNumbers.SignedDivision | src/debugger/dbglanguage.rs:3447-3471 | restoring the signs of a division of magnitudes keeps dividend = divisor * quotient + remainder |
| DbgNumbers.NegateProduct | src/debugger/dbglanguage.rs:3447-3471 | negating either factor negates the product |
| DbgNumbers.QuotientFits | src/debugger/dbglanguage.rs:3447-3471 | a quotient and remainder of i32 values other than i32::MIN / -1 fit in an i32 |
| DbgNumbers.Apply | src/debugger/dbglanguage.rs:3397-3471 | an operator either panics or yields an i32; it never rejects |
| DbgNumbers.AsU16 | src/debugger/dbglanguage.rs:3317-3360 | `v as u16` is the u16 congruent to v modulo 65536 |
| DbgNumbers.Residue | src/debugger/dbglanguage.rs:3317-3360 | a residue differs from its number by a multiple of the modulus |
| DbgGrammar.ParseExpression | src/debugger/dbglanguage.rs:620-656 | a parsed Expression consumes at least one token |
| DbgGrammar.ExpressionTail | src/debugger/dbglanguage.rs:620-645 | the ("+" \| "-") Factor repetitions never lengthen the token list |
| DbgGrammar.ParseFactor | src/debugger/dbglanguage.rs:657-706 | a parsed Factor consumes at least one token |
| DbgGrammar.FactorTail | src/debugger/dbglanguage.rs:657-695 | the ("*" \| "/" \| "%") Term repetitions never lengthen the token list |
| DbgGrammar.ParseTerm | src/debugger/dbglanguage.rs:1002-1025 | a parsed Term (a Number, or a parenthesised Expression) consumes at least one token |
| DbgGrammar.TermRoundTrip | src/debugger/dbglanguage.rs:1002-1025 | parsing a printed Term gives the tree back and leaves whatever follows |
| DbgGrammar.FactorRoundTrip | src/debugger/dbglanguage.rs:657-706 | parsing a printed Factor reads the tree and goes on with the Factor operators that follow |
| DbgGrammar.ExpressionRoundTrip | src/debugger/dbglanguage.rs:620-656 | parsing a printed Expression reads the tree and goes on with the Expression operators that follow |
| DbgGrammar.PrintParse | src/debugger/dbglanguage.rs:609-1025 | every tree's printed form parses back to that tree: left-associative, * / % below + -, parentheses honoured |
| DbgGrammar.PrintNumber | src/debugger/dbglanguage.rs:773-794 | a number prints as its own token at every level |
| DbgGrammar.AdditiveLeftAssociative | src/debugger/dbglanguage.rs:620-645 | `a - b - c` and any mix of + and - group to the left |
| DbgGrammar.MultiplicativeLeftAssociative | src/debugger/dbglanguage.rs:657-695 | `a / b * c` and any mix of * / % group to the left |
| DbgGrammar.Precedence | src/debugger/dbglanguage.rs:620-706 | * / % bind tighter than + - on either side |
| DbgGrammar.Parentheses | src/debugger/dbglanguage.rs:1013-1025 | `(a + b) * c` multiplies the sum |
| DbgGrammar.Eval | src/debugger/dbglanguage.rs:3397-3551 | evaluation either panics or yields an i32, never a rejection |
| DbgInput.LeadingSpaces | src/debugger/dbglanguage.rs:925-990 | the count n covers exactly the Space tokens at the head: all before n are Space, the one at n is not |
| DbgInput.AddressOf | src/debugger/dbglanguage.rs:3308-3363 | the address panics iff the expression does, and is congruent to its value modulo 65536 |
| DbgInput.Execute | src/debugger/dbglanguage.rs:3231-3363 | a command never rejects; it panics iff its expression does; Echo's text is a decimal literal of the value; the address commands give address actions |
| DbgInput.FactorStarts | src/debugger/dbglanguage.rs:657-706 | a printed Factor starts with a number or "(" |
| DbgInput.ExpressionStarts | src/debugger/dbglanguage.rs:620-656 | a printed Expression starts with a number or "(" |
| DbgInput.BreakpointRoundTrip | src/debugger/dbglanguage.rs:867-924 | a printed breakpoint command parses back to itself under Space+ and under Space* |
| DbgInput.CommandRoundTrip | src/debugger/dbglanguage.rs:718-924 | every printed command parses back to itself under either Space rule |
| DbgInput.LexWord | src/debugger/dbglanguage.rs:3203-3227 | a word that spells a terminal lexes, alone, to that one token |
| DbgInput.ParseNumberWord | src/debugger/dbglanguage.rs:1495-1654 | parse_Number of a single literal is its value read in its base, panicking when it does not fit in an i32 |
| DbgInput.NumberDecimalExample | src/debugger/dbglanguage.rs:1495-1654 | parse_Number("12") is 12 |
| DbgInput.NumberNegativeExample | src/debugger/dbglanguage.rs:1495-1654 | parse_Number("-02") is -2 |
| DbgInput.NumberHexExample | src/debugger/dbglanguage.rs:1495-1654 | parse_Number("0x12") is 18 |
| DbgInput.RunExample | src/debugger/dbglanguage.rs:436-595 | "run" is the Run action under both grammars |
| DbgInput.EchoParseExample | src/debugger/dbglanguage.rs:620-645 | the tokens of "9 - 4 - 3" group to the left |
| DbgInput.EchoValueExample | src/debugger/dbglanguage.rs:3297-3307 | (9 - 4) - 3 echoes "2" |
| DbgInput.WatchExample | src/debugger/dbglanguage.rs:817-841 | "watch -1" watches address 0xFFFF |
| DbgInput.DivideByZeroExample | src/debugger/dbglanguage.rs:3447-3458 | 1 / 0 panics |
| DbgInput.BareBreakpointAsWritten | src/debugger/dbglanguage.rs:867-924 | as written: with Space+, "breakpoint" directly after "set"/"unset" is a syntax error |
| DbgInput.BareBreakpointCorrected | src/debugger/dbglanguage.rs:867-924 | the program's grammar is the corrected one (see Findings): with Space*, "set"/"unset" directly followed by "breakpoint" goes on with the value |
| DbgInput.SetBreakpointAsWritten | src/debugger/dbglanguage.rs:867-924 | as written: every input whose tokens begin "set breakpoint" or "unset breakpoint", such as "set breakpoint 1", is rejected |
| DbgInput.AsWrittenNeedsTab | src/debugger/dbglanguage.rs:867-940 | as written: a breakpoint command parses only when the two-character "\\t" token follows "set"/"unset" |
| DbgInput.SetBreakpointAccepted | src/debugger/dbglanguage.rs:867-924 | with Space*, "set"/"unset" then "breakpoint" then an expression gives the breakpoint action |
| GbRenderer.Shade | src/cpu/mod.rs:496-521 | each of the four shades bgp() and obp0() unpack is a two-bit value |
| GbRenderer.Bit | src/io/deferred_renderer.rs:195-196 | a bit of a byte is 0 or 1 |
| GbRenderer.TileColor | src/io/deferred_renderer.rs:77-86 | a tile pixel's colour number is a two-bit value |
| GbRenderer.BgColor | src/io/deferred_renderer.rs:65-88 | the background colour number at a column is a two-bit value |
| GbRenderer.WindowX | src/io/deferred_renderer.rs:100-105 | win_x is a byte value |
| GbRenderer.WindowColor | src/io/deferred_renderer.rs:99-123 | the program's window read is the corrected one (see Findings): window line `window_counter`, and the colour number is a two-bit value |
| GbRenderer.WindowFitsOnScreen | src/io/deferred_renderer.rs:99-107 | with the corrected window line, a counter below 144 never overflows the u16 map-address sum |
| GbRenderer.LineSafeOnScreen | src/io/deferred_renderer.rs:92-126 | a visible line drawn with a window counter no larger than its line number never panics |
| GbRenderer.WindowUnderflowAsWritten | src/io/deferred_renderer.rs:99 | as written, a window pixel drawn while the counter is below WY underflows `*window_counter - window_y_pos()` |
| GbRenderer.BackdropAt | src/io/deferred_renderer.rs:65-127 | the backdrop is a two-bit shade; it is a window pixel iff the window is drawn there; the column skips its sprites iff background and window are on and the column lies outside the window; with the background off it is shade 0 |
| GbRenderer.OamEntry | src/io/deferred_renderer.rs:135-138 | the four fields of an OAM entry are bytes |
| GbRenderer.SpriteHeight | src/io/deferred_renderer.rs:146 | sprites are 8 or 16 lines tall |
| GbRenderer.SpriteRow | src/io/deferred_renderer.rs:174-190 | the program reads the corrected row (see Findings): without Y-flip row yth, with it the mirrored row height - 1 - yth |
| GbRenderer.SpriteRowAsWritten | src/io/deferred_renderer.rs:177 | as written: `7 - yth_pixel` is defined iff there is no Y-flip or yth is at most 7 |
| GbRenderer.SpriteTile | src/io/deferred_renderer.rs:179-188 | in 8x16 mode the tile number has bit 0 cleared for rows 0..7 and set for rows 8..15; in 8x8 mode it is the entry's tile |
| GbRenderer.SpriteColor | src/io/deferred_renderer.rs:173-199 | a sprite pixel's colour number is a two-bit value |
| GbRenderer.SpriteColorAsWritten | src/io/deferred_renderer.rs:173-199 | as written: defined iff there is no Y-flip or the row is at most 7, then a two-bit value; without Y-flip it equals the corrected colour |
| GbRenderer.SpriteShade | src/io/deferred_renderer.rs:200-204 | the shade a sprite gives a pixel is a two-bit value, always through OBP0 |
| GbRenderer.SpriteStep | src/io/deferred_renderer.rs:132-215 | one OAM entry raises the sprite count by at most one |
| GbRenderer.LineUpTo | src/io/deferred_renderer.rs:65-218 | a line after n columns has n pixels |
| GbRenderer.WindowPixel | src/io/deferred_renderer.rs:99-123 | the window block computes WindowColor of the column, reading window line `window_counter` |
| GbRenderer.DrawBackdrop | src/io/deferred_renderer.rs:65-127 | the background half of a column computes BackdropAt |
| GbRenderer.DrawSprites | src/io/deferred_renderer.rs:130-216 | the OAM loop computes SpriteScan from entry 0 |
| GbRenderer.DrawColumn | src/io/deferred_renderer.rs:65-217 | the column's pixel and count are ColumnAt, and no other column of bg_pixels or bg_opacities changes |
| GbRenderer.DrawScanline | src/io/deferred_renderer.rs:17-223 | the line is Scanline of the registers and memory, and the window counter afterwards is CounterAfter |
| GbRenderer.StepEffect | src/io/deferred_renderer.rs:132-215 | one entry leaves the pixel alone unless it paints it; a hidden entry leaves pixel and count alone |
| GbRenderer.ScanBounds | src/io/deferred_renderer.rs:132-135 | the OAM loop never lowers the count nor lifts it past the limit of 11, and leaves a two-bit shade |
| GbRenderer.ScanSource | src/io/deferred_renderer.rs:132-215 | the pixel the OAM loop leaves is its old value or the shade of an entry that paints it |
| GbRenderer.ColumnCount | src/io/deferred_renderer.rs:132-135 | a column's count lies between the one it started with and 11 |
| GbRenderer.ColumnShade | src/io/deferred_renderer.rs:65-217 | a column's pixel is a two-bit shade |
| GbRenderer.ColumnAtLimit | src/io/deferred_renderer.rs:133-135 | with 11 sprites already counted, a column shows its backdrop and keeps the count |
| GbRenderer.LineCount | src/io/deferred_renderer.rs:44-217 | a line's sprite count stays within 11 |
| GbRenderer.LineShades | src/io/deferred_renderer.rs:65-217 | every pixel of a line is a two-bit shade |
| GbRenderer.AppendShades | src/io/deferred_renderer.rs:65-217 | appending a shade to shades gives shades |
| GbRenderer.LineWindow | src/io/deferred_renderer.rs:62-125 | a line's window flag is set exactly when one of its columns drew a window pixel |
| GbRenderer.WindowCounterStep | src/io/deferred_renderer.rs:219-221 | the window counter rises by one exactly on the visible lines where the window shows |
| GbRenderer.LimitFreezesSprites | src/io/deferred_renderer.rs:133-135 | once 11 sprite corners have been met, every later column shows its background or window pixel and the count stays |
| GbRenderer.OutsideWindowHidesSprites | src/io/deferred_renderer.rs:95-98 | outside the window the `continue` also skips the sprites, so the column shows the background whatever OAM holds |
| GbRenderer.TallFlipMirrors | src/io/deferred_renderer.rs:177-190 | with the corrected flip, each row of a Y-flipped 16-line sprite is read from the other tile of the pair at the mirrored line |
| GbRenderer.TallFlipPanicsAsWritten | src/io/deferred_renderer.rs:177 | as written, every covered row from the ninth on of a Y-flipped 16-line sprite underflows `7 - yth_pixel` |
| GbRenderer.TallFlipExample | src/io/deferred_renderer.rs:174-190 | a concrete scene reaches that row: line 8, column 0 is the sprite's ninth row, which the corrected flip reads as row 7 |
| GbRenderer.TallFlipTopRowsDiffer | src/io/deferred_renderer.rs:177-199 | in that scene the top row shows colour 1 from tile 0 as written, but colour 0 from tile 1 with the corrected flip |
| PpuStep.StepTiming | src/io/applicationstate.rs:123-151 | OamScan ends at 80 cycles, VramScan at 248 and HBlank at 456, all doubled in GBC double speed, and so is the divider period |
| PpuStep.TimesProduct | src/io/applicationstate.rs:309-313 | k divider periods of m cycles are k * m cycles |
| PpuStep.LinesCalls | src/io/applicationstate.rs:190-268 | the first n visible lines make four hardware calls each |
| PpuStep.LinesSplit | src/io/applicationstate.rs:190-268 | the calls of n + 1 lines are those of n lines followed by those of line n |
| PpuStep.ProgressInLine | src/io/applicationstate.rs:195-217 | ending OamScan adds set_oam_and_display_lock; ending VramScan adds set_hblank |
| PpuStep.ProgressEndLine | src/io/applicationstate.rs:224-267 | the end of a visible line adds inc_ly and then set_vblank after the last line or set_oam_lock otherwise |
| PpuStep.ProgressVBlankLine | src/io/applicationstate.rs:299-304 | a VBlank line period adds one inc_ly |
| PpuStep.LinesCallCount | src/io/applicationstate.rs:190-268 | the first n lines make each call as often as LinesCount says |
| PpuStep.LinesCallsStep | src/io/applicationstate.rs:190-268 | each line adds its own calls to those of the lines before it |
| PpuStep.LineCallCount | src/io/applicationstate.rs:190-268 | line y makes each call as often as it adds to LinesCount |
| PpuStep.LinesCallCounts | src/io/applicationstate.rs:190-268 | n lines lock OAM and the display n times, enter HBlank n times, step LY n times, lock OAM n - 1 or n times and enter VBlank once only after the 144th line; none draws a frame |
| PpuStep.FrameConcat | src/io/applicationstate.rs:170-293 | a step's calls are its start, its 144 lines, nine VBlank LY steps and one draw_frame |
| PpuStep.FrameMultiset | src/io/applicationstate.rs:170-293 | the same calls counted as a multiset |
| PpuStep.FrameDrawsOnce | src/io/applicationstate.rs:291 | a step ends with its only draw_frame |
| PpuStep.FrameLineCall | src/io/applicationstate.rs:190-268 | within a step's lines, call 4y + j is call j of line y |
| PpuStep.FrameVBlankOnce | src/io/applicationstate.rs:242-243 | a step calls set_vblank exactly once |
| PpuStep.FrameEntersVBlank | src/io/applicationstate.rs:233-254 | VBlank is entered right after the HBlank and LY step of the last visible line |
| PpuStep.FrameLineCalls | src/io/applicationstate.rs:170-268 | a step locks OAM 144 times, locks OAM and the display 144 times and enters HBlank 144 times |
| PpuStep.FrameLySteps | src/io/applicationstate.rs:182-185 | a step calls inc_ly 153 times, or 154 when LY first had to roll over to 0 |
| PpuStep.LcdcRequest | src/io/applicationstate.rs:171-181 | after entering OamScan or HBlank, IF's LCDC bit is set iff it was set or its source is on; no other bit changes |
| PpuStep.VBlankRequest | src/io/applicationstate.rs:242-253 | after entering VBlank, the VBlank bit is set iff it was or interrupts are enabled, the LCDC bit iff it was or the VBlank STAT source is on; bits 2-7 are kept |
| PpuStep.IncLyCounts | src/cpu/mod.rs:461-468 | below 153, inc_ly steps LY by one, and the step takes LY past 143 exactly from 143 on |
| PpuStep.LyAtValue | src/cpu/mod.rs:461-468 | after n steps from 0, LY reads n |
| PpuStep.IncLyAt | src/cpu/mod.rs:461-468 | below line 153, inc_ly takes LY from line n to line n + 1, and requests VBlank exactly from the step onto line 144 on |
| PpuStep.RequestsAccumulate | src/io/applicationstate.rs:171-253 | requests only accumulate, and a request made twice is the same as one |
| PpuStep.FinalFlags | src/io/applicationstate.rs:170-293 | after a step IF holds the VBlank request, and the LCDC request when any source of the step was on |
| PpuStep.WindowCounter | src/io/applicationstate.rs:154-231 | the window counter at line y is at most y |
| PpuStep.SafePrefix | src/io/applicationstate.rs:154-231 | a prefix of a frame whose lines all draw is such a frame |
| PpuStep.CounterThreads | src/io/applicationstate.rs:227-231 | drawing line y takes the window counter of line y to that of line y + 1 |
| PpuStep.WindowCounterCounts | src/io/applicationstate.rs:154-231 | the window counter at line y counts the lines above y that showed the window |
| PpuStep.CounterZeroBeforeWindow | src/io/applicationstate.rs:154 | the window counter is still 0 on a line when no line above it showed the window |
| PpuStep.EveryFrameSafe | src/io/deferred_renderer.rs:99 | with the corrected window line every frame of well-formed scenes is drawn without a panic |
| PpuStep.FirstWindowLinePanicsAsWritten | src/io/deferred_renderer.rs:99 | as written, a frame whose window first shows on a line with WY >= 1 panics there, because the counter is 0 |
| PpuStep.FrameUpTo | src/io/applicationstate.rs:186-233 | a frame of n drawn lines has n lines |
| PpuStep.FrameLines | src/io/applicationstate.rs:227-233 | line y of the frame is the renderer's scanline y, drawn with line y's window counter |
| PpuStep.FrameShades | src/io/applicationstate.rs:227-233 | every line of the frame has 160 pixels, each a shade 0 to 3 |
| PpuStep.DrawnFrame | src/io/applicationstate.rs:186-233 | a frame whose 144 lines are all drawn is the renderer's frame |
| PpuStep.DrawLine | src/io/applicationstate.rs:227-233 | line y goes into the frame and nothing else changes; the window counter advances to that of line y + 1 |
| PpuStep.DivAfterAdd | src/cpu/mod.rs:102-105 | DIV steps compose |
| PpuStep.ByteSucc | src/cpu/mod.rs:102-105 | a byte's successor wraps at 256 |
| PpuStep.DivAfterWraps | src/cpu/mod.rs:102-105 | DIV counts inc_div calls modulo 256 |
| PpuStep.ModSucc | src/cpu/mod.rs:102-105 | adding one commutes with reduction modulo 256 |
| PpuStep.MultipleBounds | src/io/applicationstate.rs:309-313 | a non-zero multiple of a positive number is at least it in size |
| PpuStep.DivisionUnique | src/io/applicationstate.rs:309-313 | a quotient and remainder with the remainder below the divisor are those of Euclidean division |
| PpuStep.CatchUpSplits | src/io/applicationstate.rs:309-313 | the divider loop leaves less than one period and takes one whole period per inc_div |
| PpuStep.CatchUpDivides | src/io/applicationstate.rs:309-313 | the inc_div calls are the quotient of the cycles by the period, and what is left is the remainder |
| PpuStep.CatchUpTwice | src/io/applicationstate.rs:309-313 | stepping the divider pass by pass is stepping it once over all the cycles |
| PpuStep.NothingDispatched | src/io/applicationstate.rs:152-187 | before the first opcode the loop is at the start of line 0 |
| PpuStep.LoopBegins | src/io/applicationstate.rs:169-187 | the loop begins in OamScan on line 0 after the OAM lock, its request and LY's roll-over |
| PpuStep.DispatchAdvances | src/io/applicationstate.rs:191-194 | an opcode's cycles count toward the line and the step |
| PpuStep.DividerSeenStep | src/io/applicationstate.rs:309-313 | the divider after one more opcode is the divider so far catching up with that opcode's cycles |
| PpuStep.DividerAdvances | src/io/applicationstate.rs:309-313 | the divider catching up with an opcode's cycles is the divider having seen one more opcode |
| PpuStep.OamScanEnds | src/io/applicationstate.rs:195-198 | the end of OamScan adds set_oam_and_display_lock and goes on in VramScan |
| PpuStep.VramScanEnds | src/io/applicationstate.rs:205-217 | the end of VramScan adds set_hblank and the HBlank LCDC request, and goes on in HBlank |
| PpuStep.HBlankEnds | src/io/applicationstate.rs:224-267 | the end of a visible line steps LY, makes the next mode's requests, leaves a line period and starts the next line |
| PpuStep.VBlankLineEnds | src/io/applicationstate.rs:299-304 | the end of a VBlank line period steps LY (which is never 0xFF) and leaves a line period |
| PpuStep.CatchUpWraps | src/io/applicationstate.rs:309-313 | catching up leaves the cycles modulo the period and steps DIV by their quotient modulo 256 |
| PpuStep.AfterFrameDivider | src/io/applicationstate.rs:309-313 | after a step div_timer_cycles and DIV hold the remainder and (modulo 256) the quotient of the divider's cycles by its period |
| PpuStep.LoopEnds | src/io/applicationstate.rs:271-293 | the loop breaks after 153 whole line periods and less than one more, with the fields of a whole step |
| PpuStep.ExpectedAtEnd | src/io/applicationstate.rs:271-293 | the fields expected after the nine VBlank line periods, with the frame drawn, are those after a step |
| PpuStep.ApplicationState.Record | src/io/applicationstate.rs:170-257 | a mode-change call is appended to the calls |
| PpuStep.ApplicationState.IncLyStep | src/cpu/mod.rs:461-468 | inc_ly steps LY modulo 154 and sets the VBlank request past line 143; from 153 it rolls to 0 and changes no request |
| PpuStep.ApplicationState.RequestLcdc | src/io/applicationstate.rs:171-181 | IF becomes LcdcRequest of the old IF |
| PpuStep.ApplicationState.RequestVBlank | src/io/applicationstate.rs:244-253 | IF becomes VBlankRequest of the old IF |
| PpuStep.ApplicationState.StepDivider | src/io/applicationstate.rs:309-313 | div_timer_cycles ends below one period, and DIV has stepped once per period taken |
| PpuStep.ApplicationState.BeginFrame | src/io/applicationstate.rs:169-185 | LY ends at 0 after the start calls, with the OamScan LCDC request made |
| PpuStep.ApplicationState.DrawFrameCall | src/io/applicationstate.rs:282-291 | prev_time catches up with cycle_count and the frame is handed to the renderer once |
| PpuStep.ApplicationState.EndLine | src/io/applicationstate.rs:234-266 | LY advances, the next mode is VBlank after line 143 and OamScan otherwise, with that mode's calls and requests |
| PpuStep.ApplicationState.DispatchOpcode | src/io/applicationstate.rs:191-194 | one opcode runs and its cycles count toward the line and the step |
| PpuStep.ApplicationState.DividerCatchUp | src/io/applicationstate.rs:309-313 | DIV catches up with the pass's cycles |
| PpuStep.ApplicationState.EndOamScan | src/io/applicationstate.rs:195-198 | the line goes on in VramScan with set_oam_and_display_lock |
| PpuStep.ApplicationState.EndVramScan | src/io/applicationstate.rs:205-217 | the line goes on in HBlank with set_hblank and its request |
| PpuStep.NextLine | src/io/applicationstate.rs:224-267 | the position after a visible line: that line of the frame is the scanline of its scene, the other lines are unchanged, the window counter advances as the scenes say, and the next line starts in OAM scan or VBlank after line 143 |
| PpuStep.ApplicationState.EndHBlank | src/io/applicationstate.rs:224-267 | the line is drawn into the frame, LY steps, fewer than a line period's cycles remain, and the next line or VBlank starts |
| PpuStep.ApplicationState.EndVBlankLine | src/io/applicationstate.rs:299-304 | a line period leaves scanline_cycles and LY steps |
| PpuStep.ApplicationState.Pass | src/io/applicationstate.rs:187-313 | one pass either advances the loop or, after nine VBlank line periods, ends it with the fields of a whole step |
| PpuStep.ApplicationState.EndFrame | src/io/applicationstate.rs:271-293 | prev_time catches up and the renderer receives the 144-line frame, after 153 whole line periods and part of one more |
| PpuStep.ApplicationState.Step | src/io/applicationstate.rs:123-327 | every frame of well-formed scenes is drawn without a panic, and one step's fields are AfterFrame of the old ones: the calls of a frame, its IF requests, the divider caught up, the frame of the 144 scanlines handed over once, after 153 to 154 line periods |
| PpuStep.ApplicationState.StepFrame | src/io/applicationstate.rs:123-327 | the same fields once the frame is known to be drawable |
| PpuStep.ApplicationState.RunLoop | src/io/applicationstate.rs:187-313 | from the start of line 0 the loop ends with the fields of a whole step, after 153 whole line periods and part of one more, with prev_time caught up |
| LinkedList.Node.Alloc | src/C/linked_list.c:10-29 | malloc of a node gives a live node |
| LinkedList.Free | src/C/linked_list.c:78-95 | a freed node is no longer live |
| LinkedList.LinkedForward | src/C/linked_list.c:48-75 | in a doubly linked chain, each next link is followed by the matching previous link up to the index |
| LinkedList.AllocateNodes | src/C/linked_list.c:53-57 | the first loop of new_empty_list_n allocates n distinct fresh live nodes with NULL data |
| LinkedList.LinkPrevious | src/C/linked_list.c:58-63 | each node's previous link is the node allocated before it, NULL for the first |
| LinkedList.LinkNext | src/C/linked_list.c:64-68 | each node's next link is the node allocated after it, NULL for the last |
| LinkedList.List.Single | src/C/linked_list.c:10-29 | new_list gives one fresh node holding data with NULL links, both front and back, size 1 |
| LinkedList.List.Empty | src/C/linked_list.c:33-44 | new_empty_list holds no nodes |
| LinkedList.List.EmptyN | src/C/linked_list.c:48-75 | new_empty_list_n gives a list holding n fresh nodes with NULL data, linked front to back in allocation order |
| LinkedList.List.Destroy | src/C/linked_list.c:78-95 | every node is freed, the links are untouched, and the list is emptied |
| LinkedList.List.PushBack | src/C/linked_list.c:98-112 | as written: the new node becomes back and the old back's successor, but its previous link points at itself |
| LinkedList.List.PushFront | src/C/linked_list.c:115-129 | as written: the new node becomes front and the old front's predecessor, but its next link points at itself |
| LinkedList.List.Insert | src/C/linked_list.c:132-147 | a new node holding data sits between the two given nodes, which now point at it; size grows by one |
| LinkedList.List.PopBack | src/C/linked_list.c:150-162 | as written: the back node is freed and its predecessor cut loose, but back still names the freed node |
| LinkedList.List.PopFront | src/C/linked_list.c:165-177 | as written: the front node is freed and its successor cut loose, but front still names the freed node |
| LinkedList.List.Delete | src/C/linked_list.c:180-194 | the node is freed, its neighbours are linked to each other, front and back are untouched, size shrinks by one |
| LinkedList.List.DereferenceIndex | src/C/linked_list.c:198-213 | the lookup fails exactly when the index is outside 0 .. size - 1 |
| LinkedList.PushBackBreaksChain | src/C/linked_list.c:98-112 | after push_back on a non-empty list the nodes no longer form a doubly linked chain |
| LinkedList.PopBackLeavesNoChain | src/C/linked_list.c:150-162 | after pop_back the list holds no chain of live nodes, since back is freed |
| LinkedList.InsertKeepsLinked | src/C/linked_list.c:132-147 | inserting between neighbours of a linked chain keeps it linked, with the node in between |
| CGraphics.CounterBounded | src/C/graphics.c:87-117 | whatever the loads and unloads, a sprite counter starting in -1..10 stays there |
| CGraphics.LoadsKeepSize | src/C/graphics.c:87-105 | loads never change the size of the sprite list |
| CGraphics.LoadsFill | src/C/graphics.c:87-105 | from counter j in a list of ten nodes, k more loaded textures are all accepted while j + k stays within ten |
| CGraphics.FullCacheRefuses | src/C/graphics.c:87-105 | with all ten slots in use the next load is refused and the counter stays |
| CGraphics.UnloadFromEmpty | src/C/graphics.c:108-117 | as written, unload_sprite accepts a counter of zero and takes it to -1; a load from there fails its lookup but moves the counter back to zero |
| CGraphics.Window.Init | src/C/graphics.c:22-33 | the new window has the given name, size and sprite list, counter 0 and no SDL handles |
| CGraphics.Window.LoadSprite | src/C/graphics.c:87-105 | the result and the new counter and list are LoadStep of the old ones |
| CGraphics.Window.UnloadSprite | src/C/graphics.c:108-117 | the result and the new counter and list are UnloadStep of the old ones |
| CGraphics.CreateWindow | src/C/graphics.c:11-47 | create_window succeeds iff SDL_Init, IMG_Init, malloc, SDL_CreateWindow and SDL_CreateRenderer all succeed |
| CGraphics.FreeWindow | src/C/graphics.c:50-72 | as written, free_window never returns true, and the window is freed only when both handles are NULL |

## Left out

- PpuStep.ApplicationState.Step: the TIMA timer block (src/io/applicationstate.rs:315-325) is left out, because it steps through a cycle count computed in f64 from timer_frequency_hz; timer_cycles and timer_cycle are not modelled.
- PpuStep.FinalFlags: the IF it describes leaves out the timer interrupt request. Step's TIMA block (src/io/applicationstate.rs:316-325) calls timer_cycle, which calls inc_timer when the timer is on (src/cpu/mod.rs:287-308); inc_timer sets IF's timer bit when TIMA overflows with interrupts enabled. That block is not modelled, so FinalFlags and the IF bits of AfterFrame say nothing about the timer bit a real frame may also set.
- PpuStep.ApplicationState.Step: the debugger step (dbg.step) and the call of remove_old_events, both run at the end of a frame (src/io/applicationstate.rs:278-288), are not modelled. The debugger is optional and outside the frame loop, and remove_old_events is not modelled. The pruning inside draw_memory_events (src/io/memvis.rs:164-171) is modelled as MemVis.PruneEvents.
- PpuStep.ApplicationState.Step: dispatch_opcode is an oracle that gives each dispatched opcode's cycle count and is assumed to write none of IF (0xFF0F), IE (0xFFFF), STAT (0xFF41) or LY (0xFF44). The real dispatch_opcode can write all four, for example `LDH (0x0F),A`. So FrameVBlankOnce, FrameLySteps, FinalFlags and the IF bits of AfterFrame hold only under that assumption, and cover only the VBlank and STAT requests the modelled PPU code makes.
- PpuStep.ApplicationState.Step: draw_frame and the renderer are calls recorded in order, not I/O; the line renderer's scene for line y is the input `scenes[y]`.
- DbgLexer.Tokenize, DbgLexer.Matcher.Next: offsets count characters, while the generated matcher counts bytes. The two agree on ASCII input, which is all the terminals spell, but differ after any non-ASCII character in the skipped whitespace or in an invalid token.
- The debugger parser (DbgInput.ParseInput): lexing, parsing and evaluation run one after another, so a syntax error anywhere wins over a panic in a semantic action. The LALRPOP driver reduces on lookahead and runs each action as soon as its production is reduced. So `(1/0))` panics in the source (division by zero at the first `)`) but is Rejected in the model. `(99999999999))` panics in the source (the from_str unwrap) and is also Rejected in the model. Without a stray token both give Panic here too.
- GbCartridge.Load: requires a ROM image of at least 0x8000 bytes. With a shorter file, read_exact fails and the source only logs the error, loading whatever part of the buffers was filled, and the model does not cover that path. Opening the file is I/O and is left out.
- SdlMemVis.MemVisState.Click: a left click calls print_address_info, which only prints but indexes mem[pc + 1] and mem[pc + 2] and can panic near 0xFFFF. The model treats the left click as changing no state and does not model those panics.
- GbaInterrupts.IrqEntryRegisters: r14_irq is pc + 4 wrapped to 32 bits. A debug build of the source panics on that overflow for pc >= 0xFFFF_FFFC; the model does not exclude it.
- Gba.GameboyAdvance.IrqInterrupt: builds on IrqEntryRegisters, so it has the same 32-bit wrap of pc + 4.
- GbaBus.SetMem8Spec, Gba.GameboyAdvance.SetMem8: set_mem8 on palette RAM, VRAM or OAM is `todo!()` in the source, and these writes are excluded by the precondition Set8Defined.
- GbaRenderer.DrawGbaScanline: background mode 5 is `todo!()` and modes 6 and 7 panic, so these are excluded by precondition.
- GbaRenderer.DrawGbaScanline: the per-layer renderers (text, rotated and bitmap backgrounds, the naive object layer) are not modelled, because each is a long per-pixel renderer over VRAM. Their output lines are the input `rendered`, and ppu_force_blank, which the source does not define, is the input `forceBlank`.
- The GBA instruction executors (dispatch, the Thumb dispatchers, dispatch_alu/mem/block_data), run_dma and handle_dma are not modelled. They are long, full of `todo!()`s, and would need the whole ARM and Thumb instruction set.
- The Game Boy dispatch_opcode and the CPU instructions only it uses are not modelled. This is why PpuStep takes it as an oracle.
- LegacyCpu: of the legacy CPU only new, set_flags, set_mem, add, sub, swap, daa, cpl, ccf, scf and jrn are modelled. The other ALU, rotate, load and jump operations belong to its dispatcher, which is left out like the current one.
- The file reads of Cpu::load_rom, Memory::load, load_saved_ram, save_ram and Cartridge::load are left out as I/O. So are the console prints in run_dma, the I/O timer arm and the serial port hack, and the log macros.
- GbCartridge: a Cartridge with an MBC1 sub-type is not cloned, because the source panics there; the read_rom_value and read_ram_value stubs are kept as constants.
- The whole-frame deferred_renderer wrapper (src/io/deferred_renderer.rs:227-236) is not modelled: it writes rows up to 153 into a 144-row array and is not called by the modelled step.
- GbRenderer.DrawScanline: both sprite palettes read OBP0, while the window is enabled the window `continue` skips the sprites of every pixel outside the window, and the OAM loop visits entry 40 at 0xFEA0. These are modelled as written and stated as lemmas, not as findings.
- Apu.Apu: the four envelope fields of channels 1, 2 and 4 are grouped in one Envelope value per channel. The audio synthesis and the f32 getters (sweep time, wave duty, output level, clock divider) are left out, because they are floating point.
- MemVis, SdlMemVis: scale_col (floating point) and the SDL drawing calls are not modelled. The drawing loop is modelled as the number of events it visits.
- CpuMemVis: the logger's `cpu.mem.logger` and `cpu.cycles` fields are missing from the struct definitions, so the timestamp is a parameter.
- CGraphics: SDL_Init, IMG_Init, SDL_CreateWindow, SDL_CreateRenderer, IMG_LoadTexture and the SDL destroy calls are parameters or outcomes, not modelled I/O.
- draw_pixel and logSDLError only call SDL or print, and are not modelled.
- CGraphics.Window.LoadSprite: as written, load_sprite stores the texture through `data`, an uninitialised pointer that dereference_index never sets. That store is undefined behaviour in C, and the model keeps the sprite list unchanged there.
- CGraphics.CreateWindow: the Window malloc'd by create_window is assigned only to the local parameter and is never freed, so it leaks. The model states that the caller's window is untouched, but does not track the leak.
- LinkedList: C `int` overflow of size and index, and malloc returning NULL, are not modelled: sizes are unbounded integers and allocation always succeeds.
- LinkedList.List.Destroy: requires a well-linked list of at least one node. destroy_list on an empty list dereferences NULL; on a list whose links push_back or pop_back corrupted, it walks freed or self-linked nodes; neither case is modelled.
- GbCpu.Cpu.Press: the press_*/unpress_* methods that `button!` generates per button are one Press/Unpress pair that takes the button as a parameter.

## Findings

| source | as written | input that shows it | evidently intended | confidence | as-written member | corrected member |
|---|---|---|---|---|---|---|
| src/cpu/apu.rs:107-115 | a clocked envelope whose pace was rewritten to 0 reloads its counter with 0, and the next clock's `counter -= 1` underflows (a panic in a debug build) | NR12 rewritten with pace 0 while the envelope runs, then two envelope clocks | a pace of 0 reloads the counter with 8, as the hardware does | not executed | ApuSpec.EnvelopeClockAsWritten, ApuSpec.EnvelopeCounterUnderflow | ApuSpec.EnvelopeClock, Apu.Apu.ClockEnvelope |
| src/cpu/memory.rs:197-199 | Index reads 0xE000-0xEFFF from work RAM bank gbc_wram_bank, while IndexMut writes that range to bank 0 | work RAM bank 1, write v at 0xE000, read 0xE000 | echo RAM at 0xE000-0xEFFF mirrors bank 0 for reads as well as writes | not executed | GbMemory.IndexAsWrittenMissesEchoWrite, GbMemory.MutLocVsIndexAsWritten | GbMemory.ReadLoc, GbMemory.Memory.Index |
| src/gba/mod.rs:190-195 | dma1_dest_addr reads bytes 0xC2..0xC5, whose top half is channel 1's word count | a destination of 1 written at 0xC0 reads back as 0 | bytes 0xC0..0xC3, like the other channels' destinations | not executed | GbaIo.Dma1DestOverlapsWordCount, GbaIo.Dma1DestAsWrittenLosesAddress | GbaIo.DmaDestIsOwnRegister |
| src/gba/mod.rs:1133-1140 | get_mem8 matches only the first 256 KiB of the work RAM window and one I/O address, so mirrored addresses read (0, 0) | a byte read at 0x02040000 or at 0x04FFFFFF | the full windows 0x02000000..=0x02FFFFFF and 0x04000000..=0x04FFFFFF that get_mem16 and set_mem8 decode | not executed | GbaBus.GetMem8AsWritten, GbaBus.GetMem8AsWrittenMissesMirrors | GbaBus.GetMem8 |
| src/gba/mod.rs:1204 | the ROM half-word guard uses `>` where the high byte's index can equal the ROM length, and the read then panics | a half-word read at 0x08000002 of a 3-byte ROM | `>=`, so a half-word not wholly inside the ROM reads 0 | not executed | GbaBus.RomHalfAsWritten, GbaBus.RomGuardOffByOne | GbaBus.RomHalf, GbaBus.RomHalfAgrees |
| src/gba/mod.rs:1504 | the VBlank arm of maybe_handle_interrupts tests the HBlank enable bit | IE = VBlank and IF = VBlank: no interrupt; IE = HBlank and IF = VBlank: one is taken | the VBlank enable bit | not executed | GbaInterrupts.VblankArmTestsHblankEnable, GbaInterrupts.PendingAsWrittenElsewhere | GbaInterrupts.PendingIffSomeSource, Gba.GameboyAdvance.MaybeHandleInterrupts |
| src/gba/mod.rs:1489-1493 | irq_interrupt switches to IRQ mode before saving the CPSR, so SPSR_irq holds IRQ mode bits | an interrupt taken in System or User mode | SPSR_irq holds the interrupted CPSR (ARM ARM section A2.6.8) | not executed | GbaInterrupts.IrqEntrySavesNewMode | GbaInterrupts.IrqEntryRegisters, Gba.GameboyAdvance.IrqInterrupt |
| src/cpu/cartridge.rs:137-147 | the MBC1 bank number is assigned to a by-value copy of the sub-type, so the selector never changes | an MBC1 cartridge with selector 1, write 2 to 0x2000 | the cartridge's own selector becomes the bank number | not executed | LegacyCartridge.IndexSetAsWritten, LegacyCartridge.BankSelectLost | LegacyCartridge.BankSelectStored, LegacyCartridge.Cartridge.IndexSet |
| src/debugger/dbglanguage.rs:867-924 | "set"/"unset" Space+ "breakpoint", with a matcher that skips whitespace and never yields " " | "set breakpoint 1" is a syntax error | Space*, so the command parses | not executed | DbgInput.SetBreakpointAsWritten, DbgInput.BareBreakpointAsWritten, DbgInput.AsWrittenNeedsTab | DbgInput.SetBreakpointAccepted, DbgInput.BareBreakpointCorrected |
| src/io/deferred_renderer.rs:177 | Y-flip computes `7 - yth_pixel` before picking the tile of an 8x16 sprite: rows 8-15 underflow (a panic), rows 0-7 read the top tile | a Y-flipped 16-line sprite at line 8, column 0 | the row mirrored over all 16 lines, `height - 1 - yth`, so the top rows read the bottom tile | not executed | GbRenderer.SpriteRowAsWritten, GbRenderer.TallFlipPanicsAsWritten, GbRenderer.TallFlipTopRowsDiffer | GbRenderer.SpriteRow, GbRenderer.TallFlipMirrors |
| src/io/deferred_renderer.rs:99 | the window line is the u16 `*window_counter - window_y_pos()`, but the counter already counts window lines from 0, so the subtraction underflows while the counter is below WY | WY = 10 with the background and the window on: line 11 is the first to draw the window, with counter 0, and 0 - 10 underflows | the window line is `window_counter` itself, as the commented-out alternative beside it suggests, so the first window line reads window row 0 | not executed | GbRenderer.WindowUnderflowAsWritten, PpuStep.FirstWindowLinePanicsAsWritten | GbRenderer.WindowColor, PpuStep.EveryFrameSafe |
