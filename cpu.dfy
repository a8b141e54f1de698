/** The processor of src/cpu.rs: its state, the initial state `from_file` builds, and `tick`,
    modelled as the code is written. A Rust panic becomes a `Fatal` outcome. */
module Cpu {
  import opened Wrappers
  import opened BoundedStack
  import opened Instruction

  const MEMORY_SIZE: nat := 4096
  const REGISTER_COUNT: nat := 16
  const STACK_CAPACITY: nat := 16

  /** What makes `tick` panic: a full stack on a call, an empty one on a return, an index
      outside an array, slice or `Vec`, and an arithmetic overflow of a debug build. */
  datatype Fatal = StackOverflow | StackUnderflow | IndexOutOfRange | ArithmeticOverflow

  /** The fields of `Chip8`, as a value. */
  datatype Machine = Machine(
    memory: seq<u8>,
    stack: StackState<nat>,
    pc: nat,
    v: seq<u8>,
    i: u16,
    dt: u16,
    st: u16)

  /** The shape the field types fix: 4096 bytes of memory, 16 registers, a stack of capacity 16. */
  predicate WellFormed(m: Machine)
  {
    |m.memory| == MEMORY_SIZE && |m.v| == REGISTER_COUNT
    && m.stack.capacity == STACK_CAPACITY && m.stack.Valid()
  }

  /** `n` zero bytes. */
  function Zeros(n: nat): (r: seq<u8>)
    ensures |r| == n && forall k :: 0 <= k < n ==> r[k] == 0
  {
    seq(n, _ => 0)
  }

  /** The state `from_file` builds once the file's bytes (`image`, at most 4096 of them,
      as a single `read` delivers them) are placed at address 0. */
  function Initial(image: seq<u8>): Machine
    requires |image| <= MEMORY_SIZE
  {
    Machine(image + Zeros(MEMORY_SIZE - |image|), Empty(STACK_CAPACITY), 0,
            Zeros(REGISTER_COUNT), 0, 0, 0)
  }

  /** `u16::from_be_bytes([memory[at], memory[at + 1]])`. */
  function Fetch(memory: seq<u8>, at: nat): u16
    requires at + 1 < |memory|
  {
    (memory[at] as int) * 0x100 + memory[at + 1]
  }

  /** The delay timer after one tick: one less when positive, 0 stays 0. */
  function Decremented(dt: u16): u16
  {
    if dt > 0 then dt - 1 else 0
  }

  /** `self.v[x] = val`, which panics for an index past the 16 registers. */
  function WithRegister(m: Machine, x: nat, val: u8): Result<Machine, Fatal>
    requires WellFormed(m)
  {
    if x >= |m.v| then Err(IndexOutOfRange) else Ok(m.(v := m.v[x := val]))
  }

  /** The `if cond { self.pc += 2 }` of the skip instructions. */
  function SkipIf(m: Machine, cond: bool): Machine
  {
    if cond then m.(pc := m.pc + 2) else m
  }

  /** `memory[at..at + |block|]` replaced by `block`. */
  function StoreBlock(memory: seq<u8>, at: nat, block: seq<u8>): (r: seq<u8>)
    requires at + |block| <= |memory|
    ensures |r| == |memory|
  {
    memory[..at] + block + memory[at + |block|..]
  }

  /** The arms of the `match instruction` in `tick`, applied to a state whose pc and delay
      timer have already been stepped. */
  function Transition(m: Machine, inst: Instruction, rnd: u8): (r: Result<Machine, Fatal>)
    requires WellFormed(m)
    ensures r.Ok? ==> WellFormed(r.value)
  {
    match inst
    case Ret =>
      var (s, top) := m.stack.Pop();
      if top.None? then Err(StackUnderflow) else Ok(m.(stack := s, pc := top.value))
    case Call(addr) =>
      var (s, res) := m.stack.Push(m.pc);
      if res.Err? then Err(StackOverflow) else Ok(m.(stack := s, pc := addr))
    case SeVxKk(x, kk) =>
      if x >= |m.v| then Err(IndexOutOfRange) else Ok(SkipIf(m, m.v[x] == kk))
    case SneVxKk(x, kk) =>
      if x >= |m.v| then Err(IndexOutOfRange) else Ok(SkipIf(m, m.v[x] != kk))
    case SeVxVy(x, y) =>
      if x >= |m.v| || y >= |m.v| then Err(IndexOutOfRange) else Ok(SkipIf(m, m.v[x] == m.v[y]))
    case LdVxK(x, kk) => WithRegister(m, x, kk)
    case AddVxKk(x, kk) => WithRegister(m, x, kk)
    case LdVxVy(x, y) => WithRegister(m, x, y % 0x100)
    case OrVxVy(x, y) => WithRegister(m, x, Or8(x % 0x100, y % 0x100))
    case AndVxVy(x, y) => WithRegister(m, x, And8(x % 0x100, y % 0x100))
    case XorVxVy(x, y) => WithRegister(m, x, Xor8(x % 0x100, y % 0x100))
    case AddVxVy(x, y) =>
      if x >= |m.v| || y >= |m.v| then Err(IndexOutOfRange)
      else
        var sum := (m.v[y] as int) + m.v[x];
        if sum > 0xFF then Ok(m.(v := m.v[0xE := 1][x := sum % 0x100]))
        else Ok(m.(v := m.v[0xE := 0]))
    case SubVxVy(x, y) =>
      if x >= |m.v| || y >= |m.v| then Err(IndexOutOfRange)
      else
        var v := m.v[0xF := if m.v[x] > m.v[y] then 1 else 0];
        if v[x] > v[y] then Err(ArithmeticOverflow) else Ok(m.(v := v[x := v[y] - v[x]]))
    case ShrVxVy(x, _) =>
      if x >= |m.v| then Err(IndexOutOfRange)
      else
        var v1 := m.v[x := m.v[x] / 2];
        var v2 := v1[0xF := if v1[x] % 2 == 1 then 1 else 0];
        Ok(m.(v := v2[x := v2[x] / 2]))
    case SubnVxVy(x, y) =>
      if x >= |m.v| || y >= |m.v| then Err(IndexOutOfRange)
      else
        var v := m.v[0xF := if m.v[y] > m.v[x] then 1 else 0];
        if v[x] > v[y] then Err(ArithmeticOverflow) else Ok(m.(v := v[x := v[y] - v[x]]))
    case ShlVxVy(x, _) =>
      if x >= |m.v| then Err(IndexOutOfRange)
      else
        var v1 := m.v[x := ((m.v[x] as int) * 2) % 0x100];
        var v2 := v1[0xF := if v1[x] % 2 == 1 then 1 else 0];
        if (v2[x] as int) * 2 > 0xFF then Err(ArithmeticOverflow) else Ok(m.(v := v2[x := v2[x] * 2]))
    case SneVxVy(x, y) =>
      if x >= |m.v| || y >= |m.v| then Err(IndexOutOfRange) else Ok(SkipIf(m, m.v[x] != m.v[y]))
    case LdIAddr(addr) => Ok(m.(i := addr % 0x1_0000))
    case JpV0Addr(addr) => Ok(m.(pc := addr + m.v[0x0]))
    case RndVxKk(x, kk) => WithRegister(m, x, And8(rnd, kk))
    case DrwVxVyNib(_, _, _) => Ok(m)
    case LdVxDt(x) => WithRegister(m, x, m.dt % 0x100)
    case LdDtVx(x) => Ok(m.(dt := x % 0x1_0000))
    case LdStVx(x) => if x >= |m.v| then Err(IndexOutOfRange) else Ok(m.(st := m.v[x]))
    case AddIVx(x) =>
      if x >= |m.v| then Err(IndexOutOfRange)
      else if (m.i as int) + m.v[x] > 0xFFFF then Err(ArithmeticOverflow)
      else Ok(m.(i := m.i + m.v[x]))
    case LdIVx(address) =>
      if address + |m.v| > |m.memory| then Err(IndexOutOfRange)
      else Ok(m.(memory := StoreBlock(m.memory, address, m.v)))
    case LdVxI(x) =>
      if x + 0xF > |m.memory| then Err(IndexOutOfRange)
      else Ok(m.(v := m.memory[x..x + 0xF] + m.v[0xF..]))
    case LdBVx(kk, x) => WithRegister(m, x, kk)
    case LdBcdVx(b, _) =>
      if m.i + 2 >= |m.memory| then Err(IndexOutOfRange)
      else Ok(m.(memory := m.memory[m.i := (b / 100) % 100][m.i + 1 := (b / 10) % 10][m.i + 2 := b % 10]))
    case Jp(addr) => Ok(m.(pc := addr))
    case _ => Ok(m)
  }

  /** `tick`: advance pc by 2, step the delay timer, fetch the word at the advanced pc,
      decode it and apply its transition. `rnd` is the byte `rand::random` would give. */
  function Step(m: Machine, rnd: u8): (r: Result<Machine, Fatal>)
    requires WellFormed(m)
    ensures r.Ok? ==> WellFormed(r.value)
  {
    var pc := m.pc + 2;
    if pc + 1 >= |m.memory| then Err(IndexOutOfRange)
    else Transition(m.(pc := pc, dt := Decremented(m.dt)), Decode(Fetch(m.memory, pc)), rnd)
  }

  /** Ticks in a row, one random byte per tick, stopping at the first fatal outcome. */
  function Run(m: Machine, rnds: seq<u8>): (r: Result<Machine, Fatal>)
    requires WellFormed(m)
    ensures r.Ok? ==> WellFormed(r.value)
    decreases |rnds|
  {
    if rnds == [] then Ok(m)
    else
      match Step(m, rnds[0])
      case Err(e) => Err(e)
      case Ok(next) => Run(next, rnds[1..])
  }

  /** Whether `inst` is a jump, a call, a return or a skip. */
  predicate IsFlow(inst: Instruction)
  {
    inst.Ret? || inst.Call? || inst.Jp? || inst.JpV0Addr?
    || inst.SeVxKk? || inst.SneVxKk? || inst.SeVxVy? || inst.SneVxVy?
  }

  /** Whether `inst` is an arithmetic instruction of family 8 that writes a flag. */
  predicate IsAlu(inst: Instruction)
  {
    inst.AddVxVy? || inst.SubVxVy? || inst.ShrVxVy? || inst.SubnVxVy? || inst.ShlVxVy?
  }

  /** Whether `inst` is an instruction that writes one register. */
  predicate IsLoad(inst: Instruction)
  {
    inst.LdVxK? || inst.AddVxKk? || inst.LdVxVy? || inst.OrVxVy? || inst.AndVxVy? || inst.XorVxVy?
    || inst.RndVxKk? || inst.LdVxDt? || inst.LdBVx?
  }

  /** Whether `inst` is an instruction on the timers, the index register or memory. */
  predicate IsIndex(inst: Instruction)
  {
    inst.LdIAddr? || inst.LdDtVx? || inst.LdStVx? || inst.AddIVx?
    || inst.LdIVx? || inst.LdVxI? || inst.LdBcdVx?
  }

  /** `Chip8`: the memory array, the call stack, the program counter, the `Vec` of registers,
      the index register and the two timers, all updated in place by `Tick`. */
  class Chip8 {
    const memory: array<u8>
    const stack: Stack<nat>
    var pc: nat
    const v: array<u8>
    var i: u16
    var dt: u16
    var st: u16

    ghost predicate Valid()
      reads this, stack
    {
      memory.Length == MEMORY_SIZE && v.Length == REGISTER_COUNT && memory != v
      && stack.capacity == STACK_CAPACITY && stack.Valid()
    }

    /** The machine state these fields hold. */
    ghost function State(): Machine
      reads this, memory, v, stack
    {
      Machine(memory[..], stack.Value(), pc, v[..], i, dt, st)
    }

    /** `from_file` once its single `read` has delivered `image`. */
    constructor FromImage(image: seq<u8>)
      requires |image| <= MEMORY_SIZE
      ensures Valid() && State() == Initial(image)
      ensures fresh(memory) && fresh(v) && fresh(stack)
    {
      memory := new u8[MEMORY_SIZE](k => if 0 <= k < |image| then image[k] else 0);
      stack := new Stack.WithCapacity(STACK_CAPACITY);
      pc := 0;
      v := new u8[REGISTER_COUNT](_ => 0);
      i, dt, st := 0, 0, 0;
      new;
      assert memory[..] == image + Zeros(MEMORY_SIZE - |image|);
      assert v[..] == Zeros(REGISTER_COUNT);
    }

    /** `tick`. On a fatal outcome the process panics, so the state it leaves is not described. */
    method Tick(rnd: u8) returns (r: Result<(), Fatal>)
      requires Valid()
      modifies this, memory, v, stack
      ensures Valid()
      ensures r.Ok? ==> Step(old(State()), rnd) == Ok(State())
      ensures r.Err? ==> Step(old(State()), rnd) == Err(r.error)
    {
      pc := pc + 2;
      if dt > 0 {
        dt := dt - 1;
      }
      if pc + 1 >= memory.Length {
        return Err(IndexOutOfRange);
      }
      var raw: u16 := (memory[pc] as int) * 0x100 + memory[pc + 1];
      assert State() == old(State()).(pc := old(pc) + 2, dt := Decremented(old(dt)));
      r := Execute(Decode(raw), rnd);
    }

    /** One arm of the `match instruction` in `tick`; the arms are grouped into four methods. */
    method Execute(inst: Instruction, rnd: u8) returns (r: Result<(), Fatal>)
      requires Valid()
      modifies this, memory, v, stack
      ensures Valid()
      ensures r.Ok? ==> Transition(old(State()), inst, rnd) == Ok(State())
      ensures r.Err? ==> Transition(old(State()), inst, rnd) == Err(r.error)
    {
      if IsFlow(inst) {
        r := ExecuteFlow(inst);
      } else if IsAlu(inst) {
        r := ExecuteAlu(inst);
      } else if IsLoad(inst) {
        r := ExecuteLoad(inst, rnd);
      } else if IsIndex(inst) {
        r := ExecuteIndex(inst);
      } else {
        r := Ok(());
      }
    }

    /** The arms of `tick` for a jump, a call, a return or a skip. */
    method ExecuteFlow(inst: Instruction) returns (r: Result<(), Fatal>)
      requires Valid() && IsFlow(inst)
      modifies this, stack
      ensures Valid()
      ensures r.Ok? ==> Transition(old(State()), inst, 0) == Ok(State())
      ensures r.Err? ==> Transition(old(State()), inst, 0) == Err(r.error)
    {
      r := Ok(());
      match inst
      case Ret =>
        var top := stack.Pop();
        if top.None? {
          return Err(StackUnderflow);
        }
        pc := top.value;
      case Call(addr) =>
        var res := stack.Push(pc);
        if res.Err? {
          return Err(StackOverflow);
        }
        pc := addr;
      case Jp(addr) =>
        pc := addr;
      case JpV0Addr(addr) =>
        pc := addr + v[0x0];
      case SeVxKk(x, kk) =>
        if x >= v.Length {
          return Err(IndexOutOfRange);
        }
        if v[x] == kk {
          pc := pc + 2;
        }
      case SneVxKk(x, kk) =>
        if x >= v.Length {
          return Err(IndexOutOfRange);
        }
        if v[x] != kk {
          pc := pc + 2;
        }
      case SeVxVy(x, y) =>
        if x >= v.Length || y >= v.Length {
          return Err(IndexOutOfRange);
        }
        if v[x] == v[y] {
          pc := pc + 2;
        }
      case SneVxVy(x, y) =>
        if x >= v.Length || y >= v.Length {
          return Err(IndexOutOfRange);
        }
        if v[x] != v[y] {
          pc := pc + 2;
        }
    }

    /** The arms of `tick` for an arithmetic instruction of family 8 that writes a flag. */
    method ExecuteAlu(inst: Instruction) returns (r: Result<(), Fatal>)
      requires Valid() && IsAlu(inst)
      modifies v
      ensures Valid()
      ensures r.Ok? ==> Transition(old(State()), inst, 0) == Ok(State())
      ensures r.Err? ==> Transition(old(State()), inst, 0) == Err(r.error)
    {
      r := Ok(());
      match inst
      case AddVxVy(x, y) =>
        if x >= v.Length || y >= v.Length {
          return Err(IndexOutOfRange);
        }
        var sum := (v[y] as int) + v[x];
        if sum > 0xFF {
          v[0xE] := 1;
          v[x] := sum % 0x100;
        } else {
          v[0xE] := 0;
        }
      case SubVxVy(x, y) =>
        if x >= v.Length || y >= v.Length {
          return Err(IndexOutOfRange);
        }
        if v[x] > v[y] {
          v[0xF] := 1;
        } else {
          v[0xF] := 0;
        }
        if v[x] > v[y] {
          return Err(ArithmeticOverflow);
        }
        v[x] := v[y] - v[x];
      case ShrVxVy(x, _) =>
        if x >= v.Length {
          return Err(IndexOutOfRange);
        }
        v[x] := v[x] / 2;
        if v[x] % 2 == 1 {
          v[0xF] := 1;
        } else {
          v[0xF] := 0;
        }
        v[x] := v[x] / 2;
      case SubnVxVy(x, y) =>
        if x >= v.Length || y >= v.Length {
          return Err(IndexOutOfRange);
        }
        if v[y] > v[x] {
          v[0xF] := 1;
        } else {
          v[0xF] := 0;
        }
        if v[x] > v[y] {
          return Err(ArithmeticOverflow);
        }
        v[x] := v[y] - v[x];
      case ShlVxVy(x, _) =>
        if x >= v.Length {
          return Err(IndexOutOfRange);
        }
        v[x] := ((v[x] as int) * 2) % 0x100;
        if v[x] % 2 == 1 {
          v[0xF] := 1;
        } else {
          v[0xF] := 0;
        }
        if (v[x] as int) * 2 > 0xFF {
          return Err(ArithmeticOverflow);
        }
        v[x] := v[x] * 2;
    }

    /** The arms of `tick` for an instruction that writes one register. */
    method ExecuteLoad(inst: Instruction, rnd: u8) returns (r: Result<(), Fatal>)
      requires Valid() && IsLoad(inst)
      modifies v
      ensures Valid()
      ensures r.Ok? ==> Transition(old(State()), inst, rnd) == Ok(State())
      ensures r.Err? ==> Transition(old(State()), inst, rnd) == Err(r.error)
    {
      r := Ok(());
      match inst
      case LdVxK(x, kk) =>
        r := SetRegister(x, kk);
      case AddVxKk(x, kk) =>
        r := SetRegister(x, kk);
      case LdVxVy(x, y) =>
        r := SetRegister(x, y % 0x100);
      case OrVxVy(x, y) =>
        r := SetRegister(x, Or8(x % 0x100, y % 0x100));
      case AndVxVy(x, y) =>
        r := SetRegister(x, And8(x % 0x100, y % 0x100));
      case XorVxVy(x, y) =>
        r := SetRegister(x, Xor8(x % 0x100, y % 0x100));
      case RndVxKk(x, kk) =>
        r := SetRegister(x, And8(rnd, kk));
      case LdVxDt(x) =>
        r := SetRegister(x, dt % 0x100);
      case LdBVx(kk, x) =>
        r := SetRegister(x, kk);
    }

    /** The arms of `tick` for an instruction on the timers, the index register or memory. */
    method ExecuteIndex(inst: Instruction) returns (r: Result<(), Fatal>)
      requires Valid() && IsIndex(inst)
      modifies this, memory, v
      ensures Valid()
      ensures r.Ok? ==> Transition(old(State()), inst, 0) == Ok(State())
      ensures r.Err? ==> Transition(old(State()), inst, 0) == Err(r.error)
    {
      r := Ok(());
      match inst
      case LdIAddr(addr) =>
        i := addr % 0x1_0000;
      case LdDtVx(x) =>
        dt := x % 0x1_0000;
      case LdStVx(x) =>
        if x >= v.Length {
          return Err(IndexOutOfRange);
        }
        st := v[x];
      case AddIVx(x) =>
        if x >= v.Length {
          return Err(IndexOutOfRange);
        }
        if (i as int) + v[x] > 0xFFFF {
          return Err(ArithmeticOverflow);
        }
        i := i + v[x];
      case LdIVx(address) =>
        r := StoreRegisters(address);
      case LdVxI(x) =>
        r := LoadRegisters(x);
      case LdBcdVx(b, _) =>
        if i as int >= memory.Length {
          return Err(IndexOutOfRange);
        }
        memory[i] := (b / 100) % 100;
        if i as int + 1 >= memory.Length {
          return Err(IndexOutOfRange);
        }
        memory[i + 1] := (b / 10) % 10;
        if i as int + 2 >= memory.Length {
          return Err(IndexOutOfRange);
        }
        memory[i + 2] := b % 10;
    }

    /** `self.v[x] = val`. */
    method SetRegister(x: nat, val: u8) returns (r: Result<(), Fatal>)
      requires Valid()
      modifies v
      ensures Valid()
      ensures r.Ok? ==> WithRegister(old(State()), x, val) == Ok(State())
      ensures r.Err? ==> WithRegister(old(State()), x, val) == Err(r.error)
    {
      if x >= v.Length {
        return Err(IndexOutOfRange);
      }
      v[x] := val;
      r := Ok(());
    }

    /** The `LD_I_VX` loop: each register in turn is written to `memory[address + k]`;
        the first index past the memory panics. */
    method StoreRegisters(address: nat) returns (r: Result<(), Fatal>)
      requires Valid()
      modifies memory
      ensures Valid()
      ensures r.Ok? <==> address + REGISTER_COUNT <= MEMORY_SIZE
      ensures r.Err? ==> r.error == IndexOutOfRange
      ensures r.Ok? ==> memory[..] == StoreBlock(old(memory[..]), address, v[..])
    {
      var k := 0;
      while k < v.Length
        invariant 0 <= k <= v.Length
        invariant k > 0 ==> address + k <= memory.Length
        invariant forall j :: 0 <= j < memory.Length ==>
                    memory[j] == if address <= j < address + k then v[j - address] else old(memory[j])
      {
        if address + k >= memory.Length {
          return Err(IndexOutOfRange);
        }
        memory[address + k] := v[k];
        k := k + 1;
      }
      assert memory[..] == StoreBlock(old(memory[..]), address, v[..]);
      r := Ok(());
    }

    /** The `LD_VX_I` loop: the slice `memory[x..x + 15]` (which panics past the memory) is
        copied into registers 0 to 14. */
    method LoadRegisters(x: nat) returns (r: Result<(), Fatal>)
      requires Valid()
      modifies v
      ensures Valid()
      ensures r.Ok? <==> x + 0xF <= MEMORY_SIZE
      ensures r.Err? ==> r.error == IndexOutOfRange
      ensures r.Ok? ==> v[..] == memory[x..x + 0xF] + old(v[..])[0xF..]
    {
      if x + 0xF > memory.Length {
        return Err(IndexOutOfRange);
      }
      var k := 0;
      while k < 0xF
        invariant 0 <= k <= 0xF
        invariant forall j :: 0 <= j < v.Length ==>
                    v[j] == if j < k then memory[x + j] else old(v[j])
      {
        v[k] := memory[x + k];
        k := k + 1;
      }
      assert v[..] == memory[x..x + 0xF] + old(v[..])[0xF..];
      r := Ok(());
    }
  }
}

