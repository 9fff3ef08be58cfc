/** The simulated Z80: the instruction wrapper that counts T-states and raises the
    vertical interrupt, the maskable-interrupt response, the register snapshot and
    the corrected indexed-addressing instructions. */
module Z80 {
  import opened Common
  import opened Bytes
  import opened JsStrings
  import opened CpuTiming
  import opened Snapshots
  import opened MemBuffers

  /** The 64 KiB address space. */
  const MEMORY_SIZE: nat := 0x1_0000

  datatype Reg8 = A | B | C | D | E | H | L
  datatype IndexRegister = IX | IY

  /** One byte store of an instruction. */
  datatype Write = Write(addr: Word, value: Byte)

  /** What the base interpreter did for one decoded instruction: the T-states it took, the
      register file it left, the bytes it stored (in order) and whether it deferred
      interrupt acceptance by one instruction (as EI does). */
  datatype Step = Step(cost: nat, after: Registers, writes: seq<Write>, defersInt: bool)

  /** Memory after a sequence of byte stores, applied in order. */
  function Stored(mem: seq<Byte>, writes: seq<Write>): (r: seq<Byte>)
    requires |mem| == MEMORY_SIZE
    ensures |r| == MEMORY_SIZE
    decreases |writes|
  {
    if writes == [] then mem
    else
      var w := writes[|writes| - 1];
      Stored(mem, writes[..|writes| - 1])[w.addr := w.value]
  }

  /** A byte no store goes to keeps its value. */
  lemma {:induction false} StoredUntouched(mem: seq<Byte>, writes: seq<Write>, a: Word)
    requires |mem| == MEMORY_SIZE
    requires forall k :: 0 <= k < |writes| ==> writes[k].addr != a
    ensures Stored(mem, writes)[a] == mem[a]
    decreases |writes|
  {
    if writes != [] {
      var init := writes[..|writes| - 1];
      assert forall k :: 0 <= k < |init| ==> init[k] == writes[k];
      StoredUntouched(mem, init, a);
    }
  }

  /** A byte holds the value of the last store that went to it. */
  lemma {:induction false} StoredLast(mem: seq<Byte>, writes: seq<Write>, k: nat)
    requires |mem| == MEMORY_SIZE && k < |writes|
    requires forall j :: k < j < |writes| ==> writes[j].addr != writes[k].addr
    ensures Stored(mem, writes)[writes[k].addr] == writes[k].value
    decreases |writes|
  {
    if k < |writes| - 1 {
      var init := writes[..|writes| - 1];
      assert forall j :: 0 <= j < |init| ==> init[j] == writes[j];
      StoredLast(mem, init, k);
    }
  }

  lemma WrapNext(x: int)
    ensures Wrap16(x + 1) == if Wrap16(x) == 0xFFFF then 0 else Wrap16(x) + 1
  {
  }

  /** A 16-bit little-endian read; the second byte's address wraps at 0x10000. */
  function Peek16(mem: seq<Byte>, addr: int): Word
    requires |mem| == MEMORY_SIZE
  {
    FromLE16(mem[Wrap16(addr)], mem[Wrap16(addr + 1)])
  }

  /** A 16-bit little-endian write: it reads back as written and touches two bytes only. */
  function Poke16(mem: seq<Byte>, addr: int, v: Word): (r: seq<Byte>)
    requires |mem| == MEMORY_SIZE
    ensures |r| == MEMORY_SIZE
    ensures Peek16(r, addr) == v
    ensures forall a :: 0 <= a < MEMORY_SIZE && a != Wrap16(addr) && a != Wrap16(addr + 1) ==> r[a] == mem[a]
  {
    WrapNext(addr);
    mem[Wrap16(addr) := v % 0x100][Wrap16(addr + 1) := v / 0x100]
  }

  /** Where execution resumes after the interrupt routine: past a HALT the CPU sits on,
      otherwise at PC itself. */
  function ReturnAddress(s: Registers, mem: seq<Byte>): (a: Word)
    requires |mem| == MEMORY_SIZE
    ensures mem[s.pc] == HALT <==> a != s.pc
  {
    if mem[s.pc] == HALT then Wrap16(s.pc + 1) else s.pc
  }

  /** Pushing the return address: SP moves down two bytes and the address is stored there. */
  function Pushed(s: Registers, mem: seq<Byte>): (Registers, seq<Byte>)
    requires |mem| == MEMORY_SIZE
  {
    var sp := Wrap16(s.sp - 2);
    (s.(sp := sp), Poke16(mem, sp, ReturnAddress(s, mem)))
  }

  /** The jump after the push: IM 1 goes to 0038h, IM 2 through the word at I*256, with
      both interrupt flip-flops cleared; any other mode is an error. */
  function Dispatch(s: Registers, mem: seq<Byte>): (Registers, Result<()>)
    requires |mem| == MEMORY_SIZE
  {
    if s.im == 1 then
      (s.(pc := 0x38, iff1 := false, iff2 := false), Ok(()))
    else if s.im == 2 then
      (s.(pc := Peek16(mem, s.i * 0x100), iff1 := false, iff2 := false), Ok(()))
    else
      (s, Err(Thrown("IM " + RadixString(s.im, 10) + " not supported.")))
  }

  /** The maskable-interrupt response: nothing happens while IFF1 is clear or acceptance is
      deferred; otherwise the return address is pushed and the CPU jumps by interrupt mode. */
  function Interrupt(s: Registers, mem: seq<Byte>, deferInt: bool): (e: (Registers, seq<Byte>, Result<()>))
    requires |mem| == MEMORY_SIZE
    ensures |e.1| == MEMORY_SIZE
  {
    if !s.iff1 || deferInt then (s, mem, Ok(()))
    else
      var p := Pushed(s, mem);
      var d := Dispatch(p.0, p.1);
      (d.0, p.1, d.1)
  }

  /** A masked or deferred interrupt changes nothing; an accepted one changes at most PC,
      SP and the two flip-flops. */
  lemma InterruptTouches(s: Registers, mem: seq<Byte>, deferInt: bool)
    requires |mem| == MEMORY_SIZE
    ensures var e := Interrupt(s, mem, deferInt);
      (!s.iff1 || deferInt ==> e == (s, mem, Ok(())))
      && e.0 == s.(pc := e.0.pc, sp := e.0.sp, iff1 := e.0.iff1, iff2 := e.0.iff2)
  {
  }

  /** An accepted interrupt moves SP down by two and stores the return address there,
      touching no other byte. */
  lemma InterruptPushes(s: Registers, mem: seq<Byte>, deferInt: bool)
    requires |mem| == MEMORY_SIZE && s.iff1 && !deferInt
    ensures var e := Interrupt(s, mem, deferInt);
      e.0.sp == Wrap16(s.sp - 2)
      && Peek16(e.1, e.0.sp) == ReturnAddress(s, mem)
      && forall a :: 0 <= a < MEMORY_SIZE && a != e.0.sp && a != Wrap16(e.0.sp + 1) ==> e.1[a] == mem[a]
  {
    var p := Pushed(s, mem);
    var e := Interrupt(s, mem, deferInt);
    assert e.1 == p.1 && e.0.sp == p.0.sp;
    assert p.1 == Poke16(mem, p.0.sp, ReturnAddress(s, mem));
    assert Wrap16(p.0.sp) == p.0.sp;
  }

  /** After the push, IM 1 jumps to 0038h and IM 2 through the word at I*256 (read after
      the push), both clearing the flip-flops; any other mode fails with only SP changed. */
  lemma InterruptJumps(s: Registers, mem: seq<Byte>, deferInt: bool)
    requires |mem| == MEMORY_SIZE && s.iff1 && !deferInt
    ensures var e := Interrupt(s, mem, deferInt);
      (e.2.Ok? <==> s.im == 1 || s.im == 2)
      && (e.2.Ok? ==> !e.0.iff1 && !e.0.iff2)
      && (s.im == 1 ==> e.0.pc == 0x38)
      && (s.im == 2 ==> e.0.pc == Peek16(e.1, s.i * 0x100))
      && (e.2.Err? ==> e.0 == s.(sp := e.0.sp)
                       && e.2 == Err(Thrown("IM " + RadixString(s.im, 10) + " not supported.")))
  {
  }

  /** The 8-bit halves of the main register pairs. */
  function Reg(s: Registers, x: Reg8): Byte
  {
    match x
    case A => s.af / 0x100
    case B => s.bc / 0x100
    case C => s.bc % 0x100
    case D => s.de / 0x100
    case E => s.de % 0x100
    case H => s.hl / 0x100
    case L => s.hl % 0x100
  }

  function Index(s: Registers, x: IndexRegister): Word
  {
    match x
    case IX => s.ix
    case IY => s.iy
  }

  class Z80Cpu {
    /** The register file of the base interpreter. */
    var regs: Registers
    /** T-states executed so far. */
    var tStates: nat
    /** Set by an instruction after which no interrupt may be accepted yet. */
    var deferInt: bool
    const memory: array<Byte>

    var remainingInterruptTstates: int
    /** T-states of every instruction but HALT. */
    var cpuLoadTstates: nat
    /** T-states of every instruction. */
    var cpuTotalTstates: nat
    var cpuLoad: real
    /** Number of interrupts the load is averaged over. */
    const cpuLoadRange: nat
    var cpuLoadRangeCounter: nat

    ghost predicate Valid()
      reads this
    {
      memory.Length == MEMORY_SIZE
      && 0 <= remainingInterruptTstates < 0x1_0000_0000
      && cpuLoadTstates <= cpuTotalTstates && 0.0 <= cpuLoad <= 1.0
    }

    function LoadMeter(): Meter
      reads this
    {
      Meter(remainingInterruptTstates, cpuLoadTstates, cpuTotalTstates, cpuLoad, cpuLoadRangeCounter)
    }

    /** The state a snapshot captures. */
    function State(): Snapshot
      requires 0 <= remainingInterruptTstates < 0x1_0000_0000
      reads this
    {
      Snapshot(regs, remainingInterruptTstates)
    }

    /** A fresh CPU: interrupt mode 0, a full countdown, full load and empty load counters.
        The registers the base interpreter initialises start at zero here. */
    constructor (memory: array<Byte>, cpuLoadRange: nat)
      requires memory.Length == MEMORY_SIZE
      ensures Valid() && Armed(LoadMeter())
      ensures this.memory == memory && this.cpuLoadRange == cpuLoadRange
      ensures remainingInterruptTstates == INTERRUPT_TIME && regs.im == 0
      ensures cpuLoadTstates == 0 && cpuTotalTstates == 0 && cpuLoad == 1.0 && cpuLoadRangeCounter == 0
    {
      this.memory := memory;
      regs := Registers(0, 0, 0, 0, 0, 0, 0, 0, 0, 0, 0, 0, 0, 0, 0, false, false);
      tStates, deferInt := 0, false;
      remainingInterruptTstates := INTERRUPT_TIME;
      cpuLoadTstates := 0;
      cpuTotalTstates := 0;
      cpuLoad := 1.0;
      cpuLoadRangeCounter := 0;
      this.cpuLoadRange := cpuLoadRange;
    }

    /** The base interpreter decoding and running one instruction: its cost is added, its
        stores go to memory one after the other and its register file takes over. */
    method RunDecoded(step: Step)
      requires memory.Length == MEMORY_SIZE
      modifies this`tStates, this`regs, this`deferInt, memory
      ensures regs == step.after && memory[..] == Stored(old(memory[..]), step.writes)
      ensures tStates == old(tStates) + step.cost && deferInt == step.defersInt
    {
      tStates := tStates + step.cost;
      var k := 0;
      while k < |step.writes|
        invariant 0 <= k <= |step.writes|
        invariant memory[..] == Stored(old(memory[..]), step.writes[..k])
        modifies memory
      {
        var w := step.writes[k];
        memory[w.addr] := w.value;
        assert step.writes[..k + 1][..k] == step.writes[..k];
        k := k + 1;
      }
      assert step.writes[..k] == step.writes;
      regs := step.after;
      deferInt := step.defersInt;
    }

    method SetMemory16(addr: int, v: Word)
      requires memory.Length == MEMORY_SIZE
      modifies memory
      ensures memory[..] == Poke16(old(memory[..]), addr, v)
    {
      WrapNext(addr);
      memory[Wrap16(addr)] := v % 0x100;
      memory[Wrap16(addr + 1)] := v / 0x100;
    }

    /** Executes one instruction and reports whether the vertical interrupt came due. */
    method Execute(step: Step) returns (res: Result<bool>)
      requires Valid()
      modifies this, memory
      ensures Valid()
      ensures tStates == old(tStates) + step.cost && deferInt == step.defersInt
      ensures remainingInterruptTstates > 0
      ensures Armed(old(LoadMeter())) ==> Armed(LoadMeter())
      ensures var c := Consume(old(LoadMeter()), step.cost, old(memory[regs.pc]) == HALT);
              var m := Stored(old(memory[..]), step.writes);
              if c.remaining > 0 then
                res == Ok(false) && LoadMeter() == c && regs == step.after && memory[..] == m
              else
                var e := Interrupt(step.after, m, step.defersInt);
                regs == e.0 && memory[..] == e.1
                && (e.2.Ok? ==> res == Ok(true) && LoadMeter() == CloseWindow(Rearm(c), cpuLoadRange))
                && (e.2.Err? ==> res == Err(e.2.failure) && LoadMeter() == Rearm(c))
    {
      var tstatesPrev := tStates;
      deferInt := false;
      // for the HALT check
      var opcode := memory[regs.pc];
      RunDecoded(step);
      var tstatesDiff := tStates - tstatesPrev;
      Account(tstatesDiff, opcode == HALT);
      if remainingInterruptTstates <= 0 {
        remainingInterruptTstates := INTERRUPT_TIME;
        var injected := InjectInterrupt();
        if injected.Err? {
          return Err(injected.failure);
        }
        CountInterrupt();
        return Ok(true);
      }
      return Ok(false);
    }

    /** Charges the instruction's T-states to the countdown and the load counters. */
    method Account(tstatesDiff: nat, halted: bool)
      modifies this`cpuLoadTstates, this`cpuTotalTstates, this`remainingInterruptTstates
      ensures LoadMeter() == Consume(old(LoadMeter()), tstatesDiff, halted)
    {
      if !halted {
        cpuLoadTstates := cpuLoadTstates + tstatesDiff;
      }
      cpuTotalTstates := cpuTotalTstates + tstatesDiff;
      remainingInterruptTstates := remainingInterruptTstates - tstatesDiff;
    }

    /** Counts an interrupt in the measuring window and closes the window when it is full. */
    method CountInterrupt()
      modifies this`cpuLoadRangeCounter, this`cpuLoad, this`cpuLoadTstates, this`cpuTotalTstates
      ensures LoadMeter() == CloseWindow(old(LoadMeter()), cpuLoadRange)
      ensures Balanced(old(LoadMeter())) ==> Balanced(LoadMeter())
    {
      cpuLoadRangeCounter := cpuLoadRangeCounter + 1;
      if cpuLoadRangeCounter >= cpuLoadRange {
        if cpuTotalTstates > 0 {
          if cpuLoadTstates <= cpuTotalTstates {
            RatioBounds(cpuLoadTstates, cpuTotalTstates);
          }
          cpuLoad := cpuLoadTstates as real / cpuTotalTstates as real;
          cpuLoadTstates := 0;
          cpuTotalTstates := 0;
          cpuLoadRangeCounter := 0;
        }
      }
    }

    /** Delivers a maskable interrupt if the CPU accepts one. */
    method InjectInterrupt() returns (res: Result<()>)
      requires memory.Length == MEMORY_SIZE
      modifies this`regs, memory
      ensures (regs, memory[..], res) == Interrupt(old(regs), old(memory[..]), deferInt)
    {
      if !regs.iff1 {
        return Ok(());
      }
      if deferInt {
        return Ok(());
      }
      PushReturnAddress();
      res := JumpToVector();
    }

    method PushReturnAddress()
      requires memory.Length == MEMORY_SIZE
      modifies this`regs, memory
      ensures (regs, memory[..]) == Pushed(old(regs), old(memory[..]))
    {
      ghost var p := Pushed(regs, memory[..]);
      var pc := regs.pc;
      var opcode := memory[pc];
      if opcode == HALT {
        // step over the HALT
        pc := Wrap16(pc as int + 1);
      }
      assert pc == ReturnAddress(regs, memory[..]);
      regs := regs.(sp := Wrap16(regs.sp - 2));
      assert regs == p.0;
      SetMemory16(regs.sp, pc);
    }

    method JumpToVector() returns (res: Result<()>)
      requires memory.Length == MEMORY_SIZE
      modifies this`regs
      ensures (regs, res) == Dispatch(old(regs), memory[..])
    {
      var intAddr: Word;
      if regs.im == 1 {
        intAddr := 0x38;
      } else if regs.im == 2 {
        var intLocation := regs.i * 0x100;
        assert Wrap16(intLocation) == intLocation && Wrap16(intLocation + 1) == intLocation + 1;
        intAddr := FromLE16(memory[intLocation], memory[intLocation + 1]);
      } else {
        return Err(Thrown("IM " + RadixString(regs.im, 10) + " not supported."));
      }
      regs := regs.(pc := intAddr, iff1 := false, iff2 := false);
      return Ok(());
    }

    /** `read8(pc++)`: the byte at PC, PC moving on by one. */
    method FetchByte() returns (v: Byte)
      requires memory.Length == MEMORY_SIZE
      modifies this`regs
      ensures v == memory[old(regs.pc)] && regs == old(regs).(pc := Wrap16(old(regs.pc) + 1))
    {
      v := memory[regs.pc];
      regs := regs.(pc := Wrap16(regs.pc + 1));
    }

    /** `write8(addr, value)`: the low byte of the value goes to the wrapped address. */
    method Write8(addr: int, value: int)
      requires memory.Length == MEMORY_SIZE
      modifies memory
      ensures memory[..] == old(memory[..])[Wrap16(addr) := Truncate8(value)]
    {
      memory[Wrap16(addr)] := Truncate8(value);
    }

    /** LD (IX+d),r and LD (IY+d),r, entered with PC on the displacement byte. */
    method LdIndexed(x: IndexRegister, src: Reg8)
      requires memory.Length == MEMORY_SIZE
      modifies this`tStates, this`regs, memory
      ensures tStates == old(tStates) + 19
      ensures regs == old(regs).(pc := Wrap16(old(regs.pc) + 1))
      ensures memory[..] == old(memory[..])[Wrap16(Index(regs, x) + Signed8(old(memory[regs.pc]))) := Reg(regs, src)]
    {
      tStates := tStates + 19;
      var d := FetchByte();
      var offset := Signed8(d);
      Write8(Index(regs, x) + offset, Reg(regs, src));
    }

    /** LD (IX+d),n and LD (IY+d),n, entered with PC on the displacement byte; the
        immediate byte is passed through `signed8` before it is stored. */
    method LdIndexedImmediate(x: IndexRegister)
      requires memory.Length == MEMORY_SIZE
      modifies this`tStates, this`regs, memory
      ensures tStates == old(tStates) + 19
      ensures regs == old(regs).(pc := Wrap16(old(regs.pc) + 2))
      ensures memory[..] == old(memory[..])[Wrap16(Index(regs, x) + Signed8(old(memory[regs.pc]))) :=
                                            old(memory[Wrap16(regs.pc + 1)])]
    {
      tStates := tStates + 19;
      var d := FetchByte();
      var offset := Signed8(d);
      var n := FetchByte();
      var value := Signed8(n);
      Write8(Index(regs, x) + offset, value);
    }

    /** BIT b,(IX+d) / BIT b,(IY+d): the base interpreter's bit test leaves the flags
        `baseFlags` in F and does not step over the last opcode byte; PC is moved past it. */
    method DoBitIndexed(baseFlags: Byte)
      modifies this`regs
      ensures regs == old(regs).(af := old(regs.af) / 0x100 * 0x100 + baseFlags, pc := Wrap16(old(regs.pc) + 1))
    {
      regs := regs.(af := regs.af / 0x100 * 0x100 + baseFlags);
      regs := regs.(pc := Wrap16(regs.pc + 1));
    }

    /** Appends the snapshot to the buffer. */
    method Serialize(buf: MemBuffer)
      requires Valid()
      modifies buf
      ensures buf.data == old(buf.data) + Encode(State()) && buf.readOffset == old(buf.readOffset)
    {
      WriteMain(buf);
      WriteIndexShadow(buf);
      WriteControl(buf);
    }

    method WriteMain(buf: MemBuffer)
      requires Valid()
      modifies buf
      ensures buf.data == old(buf.data) + MainBytes(State()) && buf.readOffset == old(buf.readOffset)
    {
      buf.Write16(regs.pc);
      buf.Write16(regs.sp);
      buf.Write16(regs.af);
      buf.Write16(regs.bc);
      buf.Write16(regs.de);
      buf.Write16(regs.hl);
    }

    method WriteIndexShadow(buf: MemBuffer)
      requires Valid()
      modifies buf
      ensures buf.data == old(buf.data) + IndexShadowBytes(State()) && buf.readOffset == old(buf.readOffset)
    {
      buf.Write16(regs.ix);
      buf.Write16(regs.iy);
      buf.Write16(regs.af2);
      buf.Write16(regs.bc2);
      buf.Write16(regs.de2);
      buf.Write16(regs.hl2);
    }

    method WriteControl(buf: MemBuffer)
      requires Valid()
      modifies buf
      ensures buf.data == old(buf.data) + ControlBytes(State()) && buf.readOffset == old(buf.readOffset)
    {
      // the single-byte registers take one byte each
      buf.Write8(regs.i);
      buf.Write8(regs.r);
      buf.Write8(regs.im);
      buf.Write8(FlagByte(regs.iff1));
      buf.Write8(FlagByte(regs.iff2));
      // additional state
      buf.Write32(remainingInterruptTstates);
    }

    /** The number of bytes `Serialize` appends. */
    method GetSerializedSize() returns (size: nat)
      requires Valid()
      ensures size == SERIALIZED_SIZE
    {
      var buf := new MemBuffer();
      Serialize(buf);
      size := buf.Size();
    }

    /** Restores the snapshot at the buffer's cursor and restarts load measuring at full
        load; the interrupt counter of the measuring window is kept. */
    method Deserialize(buf: MemBuffer)
      requires Valid()
      requires buf.readOffset + SERIALIZED_SIZE <= |buf.data|
      modifies this, buf
      ensures Valid()
      ensures buf.data == old(buf.data) && buf.readOffset == old(buf.readOffset) + SERIALIZED_SIZE
      ensures State() == Decode(old(buf.data)[old(buf.readOffset)..])
      ensures cpuLoadTstates == 0 && cpuTotalTstates == 0 && cpuLoad == 1.0
      ensures cpuLoadRangeCounter == old(cpuLoadRangeCounter)
      ensures tStates == old(tStates) && deferInt == old(deferInt)
    {
      var restored := ReadRegisters(buf);
      regs := restored;
      remainingInterruptTstates := buf.Read32();
      // restart the statistics
      cpuLoadTstates := 0;
      cpuTotalTstates := 0;
      cpuLoad := 1.0;
    }
  }

  /** The register part of `deserialize`, read field by field from the cursor. */
  method ReadRegisters(buf: MemBuffer) returns (s: Registers)
    requires buf.readOffset + SERIALIZED_SIZE <= |buf.data|
    modifies buf
    ensures buf.data == old(buf.data) && buf.readOffset == old(buf.readOffset) + 29
    ensures s == Decode(old(buf.data)[old(buf.readOffset)..]).regs
  {
    ghost var b := buf.data[buf.readOffset..];
    var pc := buf.Read16();
    var sp := buf.Read16();
    var af := buf.Read16();
    var bc := buf.Read16();
    var de := buf.Read16();
    var hl := buf.Read16();
    var ix := buf.Read16();
    var iy := buf.Read16();
    var af2 := buf.Read16();
    var bc2 := buf.Read16();
    var de2 := buf.Read16();
    var hl2 := buf.Read16();
    // the single-byte registers take one byte each
    var i := buf.Read8();
    var r := buf.Read8();
    var im := buf.Read8();
    var iff1 := buf.Read8();
    var iff2 := buf.Read8();
    s := Registers(pc, sp, af, bc, de, hl, ix, iy, af2, bc2, de2, hl2, i, r, im, iff1 != 0, iff2 != 0);
  }
}
