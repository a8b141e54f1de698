# CHIP-8 emulator core in Dafny

This project models the core of a small CHIP-8 emulator written in Rust:

- the instruction decoder (`From<u16> for Instruction`);
- the processor's single step (`Chip8::tick`) over its 4096-byte memory, 16 byte registers, index register, delay and sound timers, program counter and call stack;
- the bounded call stack (`Stack<T>`).

It models the code **as written**, not the textbook CHIP-8 instruction set, and it proves what that code does.

Modules, one per source file:

- `Wrappers` (`wrappers.dfy`): the `u8`/`u16` integer widths, `Option`, `Result`, and byte-wide `|`, `&`, `^`.
- `BoundedStack` (`stack.dfy`): `StackState`, the stack as a value, with `Push`/`Pop` as functions, and the class `Stack`, whose methods update `capacity`/`buffer` in place and are proved against those functions.
- `Instruction` (`instruction.dfy`): the `Instruction` datatype (one constructor per Rust variant, in the same order) and `Decode`.
- `Cpu` (`cpu.dfy`): the processor.
  - `Machine` is the processor state as a value.
  - `Transition` covers the arms of the `match` in `tick`. `Step` is the whole of `tick`. `Run` is several ticks in a row.
  - The class `Chip8` holds the state in place: a `memory` array, a `v` array, a `Stack` object, and `pc`, `i`, `dt`, `st`.
  - `Chip8.Tick` and the methods it calls are proved to produce exactly the state `Step` describes.
- `CpuProperties` (`cpu_properties.dfy`): what a tick does, instruction by instruction and over runs of ticks.

A Rust panic is a `Fatal` outcome (`Err`) of `Step` and `Tick`:

- `StackOverflow` on a call;
- `StackUnderflow` on a return;
- `IndexOutOfRange` for an array, slice or `Vec` index;
- `ArithmeticOverflow` for the overflow checks of a debug build: `v[y] - v[x]` on `u8`, `v[x] *= 2`, and `i += v[x]` on `u16`.

The random byte of `RND_VX_KK` is a parameter (`rnd`) of `Step`, `Tick` and `Transition`.

Behaviour of the code as written, which the model keeps:

- `inst & 0x0F00 >> 8` and `inst & 0x00F0 >> 4` mask with `0xF` because `>>` binds tighter than `&`. So both register operands are the lowest nibble.
- `low` is a single nibble. So every `E` word is `INVALID`, and of the `F` family only the low nibbles 7 and A decode. `LD_DT_VX`, `LD_ST_VX`, `ADD_I_VX`, `LD_F_VX`, `LD_BCD_VX`, `LD_I_VX` and `LD_VX_I` are never decoded. Neither are `SYS`, `LD_X_KK`, `JP_V0_ADDR`, `SKP_VX` or `SKNP_VX`.
- As a consequence, a tick that does not panic never writes memory and never changes the sound timer. It decrements the delay timer towards 0 (`RunTimersAndMemory`).
- `tick` advances pc by 2 before fetching, and it fetches at the advanced pc.
- The image is read to address 0; `PROGRAM_LOAD_MEMORY_OFFSET` is unused.
- `ADD_VX_KK` assigns. `LD_VX_VY`, `OR`, `AND` and `XOR` combine register indices. `ADD_VX_VY` writes its flag to register E.
- `SHR` halves twice. `SHL` doubles twice, with the second doubling overflow-checked.
- `LD_DT_VX` stores the index. `LD_BCD_VX` converts its byte operand. `LD_I_VX` stores all 16 registers. `LD_VX_I` loads 15 bytes from `memory[x..x + 15]`.

Where a general description of the instruction set disagrees with this code, the model follows the code. Those disagreements include the fetch position, the load address, the operand bits and all of the behaviours above.

## Model

| member | source | states |
|---|---|---|
| `BoundedStack.EmptyIsEmpty` | src/stack.rs:33-38 | `with_capacity(c)` gives an empty stack of capacity `c`, within its bound |
| `BoundedStack.PushFull` | src/stack.rs:21-23 | push on a stack whose length equals its capacity returns `Err(StackOverflowError)` and leaves the stack unchanged |
| `BoundedStack.PushRoom` | src/stack.rs:24-27 | push on a stack with room appends the item on top, keeps the rest and returns `Ok(old length + 1)` |
| `BoundedStack.PopTop` | src/stack.rs:29-31 | pop returns `Some(top)` and removes exactly the top; on an empty stack it returns `None` and changes nothing |
| `BoundedStack.OperationsKeepValid` | src/stack.rs:21-31 | push and pop preserve `len <= capacity` |
| `BoundedStack.PushThenPop` | src/stack.rs:21-31 | a successful push of `x` followed by pop returns `Some(x)` and the previous stack |
| `BoundedStack.Stack.WithCapacity` | src/stack.rs:33-38 | the constructed object holds the empty stack of the given capacity |
| `BoundedStack.Stack.Push` | src/stack.rs:21-28 | in place: fails exactly when full, leaving the buffer unchanged; otherwise appends the item and returns the new length; keeps the capacity bound |
| `BoundedStack.Stack.Pop` | src/stack.rs:29-31 | in place: `None` exactly on an empty buffer, otherwise returns the last element and removes it |
| `Instruction.DecodeOperands` | src/instruction.rs:52-57 | every decoded register operand is below 16 and `y == x` (both are `inst & 0xF`); jump, call and index addresses are `inst & 0xFFF`, below 4096 |
| `Instruction.DecodeInvalid` | src/instruction.rs:62-109 | decoding is total; `INVALID` carries the original word and is produced exactly for family 0 with a low byte other than E0/EE, family 8 with low nibble 8-D or F, families B and E, and family F with a low nibble other than 7 and A |
| `Instruction.DecodeNeverYields` | src/instruction.rs:91-108 | no word decodes to `SYS`, `LD_X_KK`, `JP_V0_ADDR`, `SKP_VX`, `SKNP_VX`, `LD_DT_VX`, `LD_ST_VX`, `ADD_I_VX`, `LD_F_VX`, `LD_BCD_VX`, `LD_I_VX` or `LD_VX_I` |
| `Instruction.DecodeFamily0` | src/instruction.rs:63-67 | with high nibble 0, low byte E0 gives `CLS`, EE gives `RET`, anything else `INVALID`; the middle nibbles are ignored |
| `Instruction.DecodeAddressFamilies` | src/instruction.rs:68-88 | families 1, 2 and A give `JP`, `CALL` and `LD_I_ADDR` of the low twelve bits |
| `Instruction.DecodeOperandFamilies` | src/instruction.rs:70-90 | families 3, 4, 5, 6, 7, 9, C and D give `SE_VX_KK`, `SNE_VX_KK`, `SE_VX_VY`, `LD_B_VX`, `ADD_VX_KK`, `SNE_VX_VY`, `RND_VX_KK`, `DRW_VX_VY_NIB` with the low nibble as register and the low byte as immediate; the low nibble of 5xy?/9xy? is not checked |
| `Instruction.DecodeFamily8` | src/instruction.rs:75-86 | family 8 with low nibble 0-7 or E gives the nine register-register variants in order, any other low nibble `INVALID` |
| `Instruction.DecodeFamiliesEF` | src/instruction.rs:91-107 | every family E word is `INVALID`; family F gives `LD_VX_DT` for low nibble 7, `LD_VX_K(x, byte)` for A, `INVALID` otherwise |
| `Cpu.Transition` | src/cpu.rs:34-185 | every arm that does not panic keeps 4096 bytes of memory, 16 registers and a stack within capacity 16 |
| `Cpu.Step` | src/cpu.rs:24-186 | a tick that does not panic keeps the same shape invariant |
| `Cpu.Chip8.FromImage` | src/cpu.rs:196-210 | the constructed processor holds `Initial(image)`: the read bytes at address 0, zeros elsewhere, pc 0, an empty stack of capacity 16, zero registers, index and timers |
| `Cpu.Chip8.Tick` | src/cpu.rs:24-186 | in place: the new state is the one `Step` gives for the old state, and a fatal outcome is the one `Step` reports |
| `Cpu.Chip8.Execute` | src/cpu.rs:34-185 | in place: applies `Transition` of the decoded instruction to the fields, reporting its fatal outcome |
| `Cpu.Chip8.ExecuteFlow` | src/cpu.rs:35-65 | the `RET`, `CALL`, `JP`, `JP_V0_ADDR` and skip arms update pc and the stack as `Transition` says |
| `Cpu.Chip8.ExecuteAlu` | src/cpu.rs:85-130 | the `ADD`, `SUB`, `SHR`, `SUBN` and `SHL` register arms update the registers or panic as `Transition` says |
| `Cpu.Chip8.ExecuteLoad` | src/cpu.rs:66-84 | the arms that write one register do so as `Transition` says |
| `Cpu.Chip8.ExecuteIndex` | src/cpu.rs:136-175 | the timer, index and memory-block arms update state or panic as `Transition` says |
| `Cpu.Chip8.SetRegister` | src/cpu.rs:66-68 | `v[x] = val`, an index panic for `x >= 16` |
| `Cpu.Chip8.StoreRegisters` | src/cpu.rs:158-162 | the store loop writes every register `k` to `memory[address + k]` and fails exactly when `address + 16 > 4096` |
| `Cpu.Chip8.LoadRegisters` | src/cpu.rs:163-167 | the load loop copies `memory[x..x + 15]` into registers 0-14, keeps register 15, and fails exactly when `x + 15 > 4096` |
| `CpuProperties.InitialState` | src/cpu.rs:197-205 | the initial state is well formed, holds the image at address 0 and zeros after it, pc 0, an empty stack of capacity 16, zero registers, `i`, `dt` and `st` |
| `CpuProperties.FetchAtAdvancedPc` | src/cpu.rs:25-32 | a tick panics when `pc + 3 >= 4096`; otherwise it executes the big-endian word at the advanced pc with pc advanced by 2 and the delay timer stepped |
| `CpuProperties.TransitionFrame` | src/cpu.rs:34-185 | only `LD_I_VX`/`LD_BCD_VX` write memory, only `LD_DT_VX` the delay timer, only `LD_ST_VX` the sound timer, only `LD_I_ADDR`/`ADD_I_VX` the index, only `CALL`/`RET` the stack |
| `CpuProperties.StepTimersAndMemory` | src/cpu.rs:27-29 | a tick that does not panic decrements a positive delay timer by exactly 1, keeps a zero one at 0, never changes the sound timer and never writes memory |
| `CpuProperties.RunTimersAndMemory` | src/cpu.rs:24-29 | after `n` ticks without a panic, the delay timer is `max(dt - n, 0)`, the sound timer and memory are unchanged |
| `CpuProperties.StepSkip` | src/cpu.rs:51-65 | a skip instruction leaves pc 4 past its start when its condition holds and 2 past it otherwise, changing nothing else but the delay timer step |
| `CpuProperties.DecodedRegisterSkips` | src/cpu.rs:61-65 | as decoded, a `5xy?` word always skips and a `9xy?` word never skips |
| `CpuProperties.StepCallRet` | src/cpu.rs:35-50 | `CALL` pushes the advanced pc and jumps, fatal on a full stack; `RET` pops the top into pc, fatal on an empty stack |
| `CpuProperties.CallThenRet` | src/cpu.rs:35-50 | a `CALL` whose target holds a `RET`, followed by that `RET`, restores the pushed pc and the previous stack |
| `CpuProperties.Stubs` | src/cpu.rs:179-184 | `INVALID`, `SYS`, `CLS`, `LD_X_KK`, `DRW`, `SKP`, `SKNP` and `LD_F_VX` change nothing |
| `CpuProperties.AddWithCarry` | src/cpu.rs:85-94 | `ADD_VX_VY` with a sum above 255 sets register E to 1 and x to the sum modulo 256; otherwise sets register E to 0 and leaves x |
| `CpuProperties.Subtract` | src/cpu.rs:95-102 | `SUB_VX_VY` panics exactly when `v[x] > v[y]`; otherwise it sets register F to 0 and x to `v[y] - v[x]` |
| `CpuProperties.SubtractReversed` | src/cpu.rs:112-121 | `SUBN_VX_VY` panics exactly when `v[x] > v[y]`; otherwise register F is 1 when `v[y] > v[x]` (else 0) and x is `v[y] - v[x]` |
| `CpuProperties.ShiftRight` | src/cpu.rs:103-111 | `SHR_VX_VY` sets x to a quarter of itself and register F to bit 1 of the old value |
| `CpuProperties.ShiftLeft` | src/cpu.rs:122-130 | `SHL_VX_VY` panics exactly when bit 6 of x is set; otherwise x becomes `4 * x mod 256` and register F 0 |
| `CpuProperties.DecodedIndexOps` | src/cpu.rs:72-84 | as decoded, `8xy0`-`8xy2` set register x to its own index and `8xy3` sets it to 0 |
| `CpuProperties.BcdDigits` | src/cpu.rs:171-175 | `LD_BCD_VX(b, _)` writes three digits, each at most 9, with `100*d0 + 10*d1 + d2 == b`, at `i..i+2` and nowhere else; it panics when `i + 2` is past memory |
| `CpuProperties.StoreAllRegisters` | src/cpu.rs:158-162 | `LD_I_VX(a)` writes register `k` to `memory[a + k]` for all 16 registers and nothing else; it panics when they do not fit |
| `CpuProperties.LoadFifteenRegisters` | src/cpu.rs:163-167 | `LD_VX_I(x)` loads registers 0-14 from `memory[x..x + 15]` and keeps register 15; it panics when the slice passes memory |
| `CpuProperties.TimerAndIndexLoads` | src/cpu.rs:136-157 | `LD_DT_VX` stores the index x, `LD_ST_VX` the register value, `LD_VX_DT` the low byte of `dt`; `LD_I_ADDR` truncates to 16 bits; `ADD_I_VX` panics exactly when `i + v[x] > 65535` |

## Left out

- Cpu.Chip8.Tick: after a fatal outcome the contract does not describe the fields. The Rust code panics, the process ends, and the partly updated state is never observed.
- Cpu.Chip8.Execute: the same holds for each arm that can panic, including `ExecuteFlow`, `ExecuteAlu`, `ExecuteIndex`, `SetRegister`, `StoreRegisters` and `LoadRegisters`.
- `Chip8::run` (src/cpu.rs:212-226) is not modelled: an endless driver loop with printing, flushing and sleeping. `Run` only composes ticks for the lemmas.
- `Chip8::dump_ram` (src/cpu.rs:188-194) is not modelled: a timestamped file write.
- The file access in `from_file` (src/cpu.rs:206-208) is not modelled. The bytes its single `read` delivers are the constructor's `image`, at most 4096 of them.
- src/main.rs is not modelled: argument parsing, logger set-up and error plumbing.
- The logging (`println!`, `debug!`, `info!`, `error!`) and the `Display` impl of `Stack` are not modelled: they only produce output.
- `rand::random` is not modelled: the random byte is the parameter `rnd`.
- The `twelve_bit` crate is not part of this model. The `U12` operand of `DRW_VX_VY_NIB` is a value below 4096 built from the low byte.
- The program counter is an unbounded `nat`, so `usize` overflow of `pc + 2` and `addr + v[0]` is not modelled. Fetching already panics long before pc could get near it.
- Display, keypad and sound hardware are not modelled: the source has no code for them, since `CLS`, `DRW`, `SKP`, `SKNP` and `LD_F_VX` do nothing.
