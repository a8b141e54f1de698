/** What `tick` does, stated instruction by instruction and over runs of ticks. */
module CpuProperties {
  import opened Wrappers
  import opened BoundedStack
  import opened Instruction
  import opened Cpu

  /** The state `from_file` builds: the image at address 0, zeros after it, pc 0, no saved
      return addresses in a stack of capacity 16, zero registers, index and timers. */
  lemma InitialState(image: seq<u8>)
    requires |image| <= MEMORY_SIZE
    ensures var m := Initial(image);
      && WellFormed(m)
      && m.memory[..|image|] == image
      && (forall a :: |image| <= a < MEMORY_SIZE ==> m.memory[a] == 0)
      && m.pc == 0 && m.stack == StackState(STACK_CAPACITY, [])
      && (forall r :: 0 <= r < REGISTER_COUNT ==> m.v[r] == 0)
      && m.i == 0 && m.dt == 0 && m.st == 0
  {
  }

  /** The word is fetched at the already advanced pc, so a tick panics unless `pc + 3`
      is a memory address; otherwise it executes the decoded word found there. */
  lemma FetchAtAdvancedPc(m: Machine, rnd: u8)
    requires WellFormed(m)
    ensures m.pc + 3 >= MEMORY_SIZE ==> Step(m, rnd) == Err(IndexOutOfRange)
    ensures m.pc + 3 < MEMORY_SIZE ==>
      Step(m, rnd) == Transition(m.(pc := m.pc + 2, dt := Decremented(m.dt)),
                                 Decode((m.memory[m.pc + 2] as int) * 0x100 + m.memory[m.pc + 3]), rnd)
  {
  }

  /** The pieces of state that only some instructions write. */
  lemma TransitionFrame(m: Machine, inst: Instruction, rnd: u8)
    requires WellFormed(m) && Transition(m, inst, rnd).Ok?
    ensures var n := Transition(m, inst, rnd).value;
      && (n.memory != m.memory ==> inst.LdIVx? || inst.LdBcdVx?)
      && (n.dt != m.dt ==> inst.LdDtVx?)
      && (n.st != m.st ==> inst.LdStVx?)
      && (n.i != m.i ==> inst.LdIAddr? || inst.AddIVx?)
      && (n.stack != m.stack ==> inst.Call? || inst.Ret?)
  {
  }

  /** Since the decoder never yields `LD_DT_VX`, `LD_ST_VX`, `LD_I_VX` or `LD_BCD_VX`, a
      successful tick decrements a positive delay timer by one, keeps a zero one at zero,
      never changes the sound timer and never writes memory. */
  lemma StepTimersAndMemory(m: Machine, rnd: u8)
    requires WellFormed(m) && Step(m, rnd).Ok?
    ensures Step(m, rnd).value.dt == Decremented(m.dt)
    ensures Step(m, rnd).value.st == m.st
    ensures Step(m, rnd).value.memory == m.memory
  {
    var inst := Decode(Fetch(m.memory, m.pc + 2));
    DecodeNeverYields(Fetch(m.memory, m.pc + 2));
    TransitionFrame(m.(pc := m.pc + 2, dt := Decremented(m.dt)), inst, rnd);
  }

  /** Over any run of ticks that does not panic, the delay timer falls by one per tick
      down to zero and stays there, the sound timer keeps its value and memory is unchanged. */
  lemma {:induction false} RunTimersAndMemory(m: Machine, rnds: seq<u8>)
    requires WellFormed(m) && Run(m, rnds).Ok?
    ensures Run(m, rnds).value.dt == if m.dt >= |rnds| then m.dt - |rnds| else 0
    ensures Run(m, rnds).value.st == m.st
    ensures Run(m, rnds).value.memory == m.memory
    decreases |rnds|
  {
    if rnds != [] {
      StepTimersAndMemory(m, rnds[0]);
      RunTimersAndMemory(Step(m, rnds[0]).value, rnds[1..]);
    }
  }

  /** Whether a skip instruction's condition holds. */
  predicate SkipTaken(v: seq<u8>, inst: Instruction)
  {
    match inst
    case SeVxKk(x, kk) => x < |v| && v[x] == kk
    case SneVxKk(x, kk) => x < |v| && v[x] != kk
    case SeVxVy(x, y) => x < |v| && y < |v| && v[x] == v[y]
    case SneVxVy(x, y) => x < |v| && y < |v| && v[x] != v[y]
    case _ => false
  }

  /** A skip instruction leaves pc 4 past where it was when its condition holds and 2 past
      it otherwise; nothing but the delay timer step changes besides. */
  lemma StepSkip(m: Machine, rnd: u8)
    requires WellFormed(m) && m.pc + 3 < MEMORY_SIZE
    requires var inst := Decode(Fetch(m.memory, m.pc + 2));
      inst.SeVxKk? || inst.SneVxKk? || inst.SeVxVy? || inst.SneVxVy?
    ensures var inst := Decode(Fetch(m.memory, m.pc + 2));
      Step(m, rnd) == Ok(m.(pc := m.pc + (if SkipTaken(m.v, inst) then 4 else 2),
                            dt := Decremented(m.dt)))
  {
    DecodeOperands(Fetch(m.memory, m.pc + 2));
  }

  /** As decoded, `5xy?` compares a register with itself and always skips, and `9xy?`
      never does. */
  lemma DecodedRegisterSkips(m: Machine, rnd: u8)
    requires WellFormed(m) && m.pc + 3 < MEMORY_SIZE
    ensures High(Fetch(m.memory, m.pc + 2)) == 0x5 ==>
      Step(m, rnd) == Ok(m.(pc := m.pc + 4, dt := Decremented(m.dt)))
    ensures High(Fetch(m.memory, m.pc + 2)) == 0x9 ==>
      Step(m, rnd) == Ok(m.(pc := m.pc + 2, dt := Decremented(m.dt)))
  {
    DecodeOperandFamilies(Fetch(m.memory, m.pc + 2));
  }

  /** `CALL` pushes the advanced pc and jumps; on a full stack it is fatal. `RET` pops into
      pc; on an empty stack it is fatal. */
  lemma StepCallRet(m: Machine, rnd: u8)
    requires WellFormed(m) && m.pc + 3 < MEMORY_SIZE
    ensures var inst := Decode(Fetch(m.memory, m.pc + 2));
      && (inst.Call? && |m.stack.buffer| == STACK_CAPACITY ==> Step(m, rnd) == Err(StackOverflow))
      && (inst.Call? && |m.stack.buffer| < STACK_CAPACITY ==>
            Step(m, rnd) == Ok(m.(pc := inst.addr, dt := Decremented(m.dt),
                                  stack := StackState(STACK_CAPACITY, m.stack.buffer + [m.pc + 2]))))
      && (inst.Ret? && m.stack.buffer == [] ==> Step(m, rnd) == Err(StackUnderflow))
      && (inst.Ret? && m.stack.buffer != [] ==>
            Step(m, rnd) == Ok(m.(pc := m.stack.buffer[|m.stack.buffer| - 1], dt := Decremented(m.dt),
                                  stack := StackState(STACK_CAPACITY, m.stack.buffer[..|m.stack.buffer| - 1]))))
  {
  }

  /** A `CALL` whose target holds a `RET`, followed by that `RET`, comes back to the pc the
      call was fetched at with the stack as it was before. */
  lemma CallThenRet(m: Machine, addr: nat, rnd1: u8, rnd2: u8)
    requires WellFormed(m) && m.pc + 3 < MEMORY_SIZE
    requires Decode(Fetch(m.memory, m.pc + 2)) == Call(addr)
    requires |m.stack.buffer| < STACK_CAPACITY
    requires addr + 3 < MEMORY_SIZE && Decode(Fetch(m.memory, addr + 2)) == Ret
    ensures Step(m, rnd1).Ok?
    ensures Step(Step(m, rnd1).value, rnd2)
            == Ok(m.(pc := m.pc + 2, dt := Decremented(Decremented(m.dt))))
  {
    StepCallRet(m, rnd1);
    var m1 := Step(m, rnd1).value;
    StepCallRet(m1, rnd2);
    assert (m.stack.buffer + [m.pc + 2])[..|m.stack.buffer|] == m.stack.buffer;
  }

  /** The instructions with no arm of their own, and the empty `DRW` arm, change nothing. */
  lemma Stubs(m: Machine, inst: Instruction, rnd: u8)
    requires WellFormed(m)
    requires inst.Invalid? || inst.Sys? || inst.Cls? || inst.LdXKk? || inst.DrwVxVyNib?
             || inst.SkpVx? || inst.SknpVx? || inst.LdFVx?
    ensures Transition(m, inst, rnd) == Ok(m)
  {
  }

  /** `8xy4` writes its carry to register E: 1 and the wrapped sum in x when the sum passes
      255, otherwise 0 and x is left as it was. */
  lemma AddWithCarry(m: Machine, x: nat, y: nat, rnd: u8)
    requires WellFormed(m) && x < REGISTER_COUNT && y < REGISTER_COUNT && x != 0xE
    ensures var sum := m.v[x] as int + m.v[y];
      Transition(m, AddVxVy(x, y), rnd)
      == Ok(m.(v := if sum > 0xFF then m.v[0xE := 1][x := sum - 0x100] else m.v[0xE := 0]))
  {
  }

  /** `8xy5` sets register F to 1 when x exceeds y, then computes y - x; so it panics exactly
      when x exceeds y, and on success always leaves 0 in register F. */
  lemma Subtract(m: Machine, x: nat, y: nat, rnd: u8)
    requires WellFormed(m) && x < 0xF && y < 0xF
    ensures m.v[x] > m.v[y] ==> Transition(m, SubVxVy(x, y), rnd) == Err(ArithmeticOverflow)
    ensures m.v[x] <= m.v[y] ==>
      Transition(m, SubVxVy(x, y), rnd) == Ok(m.(v := m.v[0xF := 0][x := m.v[y] - m.v[x]]))
  {
  }

  /** `8xy7` sets register F to 1 when y exceeds x, then computes y - x, which panics when
      x exceeds y. */
  lemma SubtractReversed(m: Machine, x: nat, y: nat, rnd: u8)
    requires WellFormed(m) && x < 0xF && y < 0xF
    ensures m.v[x] > m.v[y] ==> Transition(m, SubnVxVy(x, y), rnd) == Err(ArithmeticOverflow)
    ensures m.v[x] <= m.v[y] ==>
      Transition(m, SubnVxVy(x, y), rnd)
      == Ok(m.(v := m.v[0xF := if m.v[y] > m.v[x] then 1 else 0][x := m.v[y] - m.v[x]]))
  {
  }

  /** `8xy6` halves twice, so x becomes a quarter of itself and register F gets bit 1 of
      the original value. */
  lemma ShiftRight(m: Machine, x: nat, y: nat, rnd: u8)
    requires WellFormed(m) && x < 0xF
    ensures Transition(m, ShrVxVy(x, y), rnd)
            == Ok(m.(v := m.v[0xF := (m.v[x] / 2) % 2][x := m.v[x] / 4]))
  {
    var a: int := m.v[x];
    var v1 := m.v[x := a / 2];
    var v2 := v1[0xF := if v1[x] % 2 == 1 then 1 else 0];
    assert v2[x] == a / 2;
    assert (a / 2) / 2 == a / 4;
    assert v2[x := v2[x] / 2] == m.v[0xF := (a / 2) % 2][x := a / 4];
  }

  /** `8xyE` shifts left with wrap-around, then doubles under the overflow check: it panics
      exactly when bit 6 of x is set; otherwise x becomes four times itself modulo 256 and
      register F gets 0, the low bit after the first shift. */
  lemma ShiftLeft(m: Machine, x: nat, y: nat, rnd: u8)
    requires WellFormed(m) && x < 0xF
    ensures (m.v[x] / 0x40) % 2 == 1 ==> Transition(m, ShlVxVy(x, y), rnd) == Err(ArithmeticOverflow)
    ensures (m.v[x] / 0x40) % 2 == 0 ==>
      Transition(m, ShlVxVy(x, y), rnd) == Ok(m.(v := m.v[0xF := 0][x := ((m.v[x] as int) * 4) % 0x100]))
  {
    var a: int := m.v[x];
    var shifted := (a * 2) % 0x100;
    assert shifted == 2 * (a % 0x80);
    assert shifted % 2 == 0;
    assert a % 0x80 == 0x40 * ((a / 0x40) % 2) + a % 0x40;
    assert (shifted >= 0x80) == ((a / 0x40) % 2 == 1);
    var v1 := m.v[x := shifted];
    var v2 := v1[0xF := if v1[x] % 2 == 1 then 1 else 0];
    assert v2 == m.v[0xF := 0][x := shifted];
    if (a / 0x40) % 2 == 0 {
      assert shifted * 2 == 4 * (a % 0x40);
      assert (a * 4) % 0x100 == 4 * (a % 0x40);
      assert v2[x := v2[x] * 2] == m.v[0xF := 0][x := (a * 4) % 0x100];
    }
  }

  /** As decoded, `8xy0` to `8xy3` combine the register index with itself, not register
      contents: x gets its own index for `LD`, `OR` and `AND`, and 0 for `XOR`. */
  lemma DecodedIndexOps(m: Machine, rnd: u8)
    requires WellFormed(m) && m.pc + 3 < MEMORY_SIZE
    requires var w := Fetch(m.memory, m.pc + 2); High(w) == 0x8 && Low(w) <= 0x3
    ensures var w := Fetch(m.memory, m.pc + 2);
      var r := w % 0x10;
      Step(m, rnd) == Ok(m.(pc := m.pc + 2, dt := Decremented(m.dt),
                            v := m.v[r := if Low(w) == 0x3 then 0 else r]))
  {
    var w := Fetch(m.memory, m.pc + 2);
    var r: u8 := w % 0x10;
    DecodeFamily8(w);
    assert Or8(r, r) == r && And8(r, r) == r && Xor8(r, r) == 0;
  }

  /** `Fx33` as written takes the byte operand of the instruction: it writes its hundreds,
      tens and ones digits at i, i + 1 and i + 2 and no other byte, and panics past memory. */
  lemma BcdDigits(m: Machine, b: u8, x: nat, rnd: u8)
    requires WellFormed(m)
    ensures m.i + 2 >= MEMORY_SIZE ==> Transition(m, LdBcdVx(b, x), rnd) == Err(IndexOutOfRange)
    ensures m.i + 2 < MEMORY_SIZE ==>
      && Transition(m, LdBcdVx(b, x), rnd).Ok?
      && var n := Transition(m, LdBcdVx(b, x), rnd).value;
      && n.memory[m.i] <= 9 && n.memory[m.i + 1] <= 9 && n.memory[m.i + 2] <= 9
      && 100 * n.memory[m.i] + 10 * n.memory[m.i + 1] + n.memory[m.i + 2] == b
      && (forall a :: 0 <= a < MEMORY_SIZE && (a < m.i || a > m.i + 2) ==> n.memory[a] == m.memory[a])
      && n == m.(memory := n.memory)
  {
    if m.i + 2 < MEMORY_SIZE {
      var d0, d1, d2 := (b / 100) % 100, (b / 10) % 10, b % 10;
      assert b / 100 <= 2;
      assert b == 10 * (b / 10) + d2;
      assert b / 10 == 10 * (b / 100) + d1;
    }
  }

  /** `Fx55` as written stores all 16 registers at the operand address, panicking when they
      do not fit in memory. */
  lemma StoreAllRegisters(m: Machine, address: nat, rnd: u8)
    requires WellFormed(m)
    ensures address + REGISTER_COUNT > MEMORY_SIZE ==>
      Transition(m, LdIVx(address), rnd) == Err(IndexOutOfRange)
    ensures address + REGISTER_COUNT <= MEMORY_SIZE ==>
      && Transition(m, LdIVx(address), rnd).Ok?
      && var n := Transition(m, LdIVx(address), rnd).value;
      && (forall k :: 0 <= k < REGISTER_COUNT ==> n.memory[address + k] == m.v[k])
      && (forall a :: 0 <= a < MEMORY_SIZE && (a < address || a >= address + REGISTER_COUNT) ==>
            n.memory[a] == m.memory[a])
      && n == m.(memory := n.memory)
  {
    if address + REGISTER_COUNT <= MEMORY_SIZE {
      var n := Transition(m, LdIVx(address), rnd).value;
      forall k | 0 <= k < REGISTER_COUNT ensures n.memory[address + k] == m.v[k] {
        assert n.memory[address + k] == (m.memory[..address] + m.v)[address + k];
      }
    }
  }

  /** `Fx65` as written loads registers 0 to 14 from the 15 bytes at the operand address,
      panicking when the slice passes the end of memory; register 15 is kept. */
  lemma LoadFifteenRegisters(m: Machine, x: nat, rnd: u8)
    requires WellFormed(m)
    ensures x + 0xF > MEMORY_SIZE ==> Transition(m, LdVxI(x), rnd) == Err(IndexOutOfRange)
    ensures x + 0xF <= MEMORY_SIZE ==>
      && Transition(m, LdVxI(x), rnd).Ok?
      && var n := Transition(m, LdVxI(x), rnd).value;
      && (forall k :: 0 <= k < 0xF ==> n.v[k] == m.memory[x + k])
      && n.v[0xF] == m.v[0xF]
      && n == m.(v := n.v)
  {
  }

  /** The timer and index instructions: `LD_DT_VX` stores the index x itself, `LD_ST_VX`
      the register, `LD_VX_DT` the low byte of the delay timer; `ADD_I_VX` panics when i
      passes 65535 and `LD_I_ADDR` truncates to 16 bits. */
  lemma TimerAndIndexLoads(m: Machine, x: nat, addr: nat, rnd: u8)
    requires WellFormed(m) && x < REGISTER_COUNT
    ensures Transition(m, LdDtVx(x), rnd) == Ok(m.(dt := x))
    ensures Transition(m, LdStVx(x), rnd) == Ok(m.(st := m.v[x]))
    ensures Transition(m, LdVxDt(x), rnd) == Ok(m.(v := m.v[x := m.dt % 0x100]))
    ensures Transition(m, LdIAddr(addr), rnd) == Ok(m.(i := addr % 0x1_0000))
    ensures m.i + m.v[x] > 0xFFFF <==> Transition(m, AddIVx(x), rnd) == Err(ArithmeticOverflow)
  {
  }
}
