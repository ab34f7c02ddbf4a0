/**
 * The I2C master of hw/stm32.c: seven registers, a master control/status
 * (MCS) register whose writes drive the bus one flag at a time, and an
 * interrupt line raised by the master's raw interrupt bit.
 *
 * The bus itself is a foreign collaborator. Its answers are an oracle
 * passed to every write (`Bus`), and the requests the master makes of it
 * come back as a sequence of `BusOp`s.
 */
module I2c {
  import opened Words

  // Register offsets.
  const Msa: int := 0x00
  const Mcs: int := 0x04
  const Mdr: int := 0x08
  const Mtpr: int := 0x0c
  const Mimr: int := 0x10
  const Mris: int := 0x14
  const Mmis: int := 0x18
  const Micr: int := 0x1c
  const Mcr: int := 0x20

  // Status bits of MCS.
  const ErrorBit: Word := 0x02
  const ArbitrationLost: Word := 0x10
  const Idle: Word := 0x20
  const BusBusy: Word := 0x40

  // Command bits of an MCS write.
  const Run: Word := 0x01
  const StartBit: Word := 0x02
  const StopBit: Word := 0x04

  // Bits of MCR.
  const Loopback: Word := 0x01
  const MasterEnable: Word := 0x10
  const SlaveEnable: Word := 0x20
  const McrBits: Word := 0x31

  /**
   * The master control/status register. Only the three flags below are ever
   * set in it (it is 0 at reset and changed only flag by flag), so it is
   * held as those flags; McsWord gives the register image.
   */
  datatype McsFlags = McsFlags(error: bool, arbitrationLost: bool, busBusy: bool)

  const McsClear := McsFlags(false, false, false)

  function McsWord(f: McsFlags): (w: Word)
    ensures w & !(ErrorBit | ArbitrationLost | BusBusy) == 0
  {
    (if f.error then ErrorBit else 0) |
    (if f.arbitrationLost then ArbitrationLost else 0) |
    (if f.busBusy then BusBusy else 0)
  }

  /** Each flag is its bit of the register image. */
  lemma McsBits(f: McsFlags)
    ensures McsWord(f) & ErrorBit != 0 <==> f.error
    ensures McsWord(f) & ArbitrationLost != 0 <==> f.arbitrationLost
    ensures McsWord(f) & BusBusy != 0 <==> f.busBusy
  {
  }

  /** Setting or clearing a flag is setting or clearing its bit of the register image. */
  lemma FlagUpdatesAreBitOperations(f: McsFlags)
    ensures McsWord(f.(arbitrationLost := true)) == McsWord(f) | ArbitrationLost
    ensures McsWord(f.(arbitrationLost := false, busBusy := true)) == (McsWord(f) & !ArbitrationLost) | BusBusy
    ensures McsWord(f.(error := true)) == McsWord(f) | ErrorBit
    ensures McsWord(f.(error := false)) == McsWord(f) & !ErrorBit
    ensures McsWord(f.(busBusy := false)) == McsWord(f) & !BusBusy
  {
  }

  datatype Registers = Registers(msa: Word, mcs: McsFlags, mdr: Word, mtpr: Word, mimr: Word, mris: Word, mcr: Word)

  const ResetRegisters := Registers(0, McsClear, 0, 1, 0, 0, 0)

  /** What the master asks of the bus. */
  datatype BusOp =
    | StartTransfer(address: Word, receive: bool)
    | Send(data: Word)
    | Receive
    | EndTransfer

  /**
   * The bus's answers to one MCS write: whether the start of a transfer is
   * refused (no device acknowledges the address), whether the bus is busy
   * once the master has tried to grab it, and the byte a receive returns.
   */
  datatype Bus = Bus(startRefused: bool, busy: bool, received: Word)

  /** The command bits of an MCS write. */
  datatype Command = Command(run: bool, start: bool, stop: bool)

  function CommandOf(value: Word): Command {
    Command(value & Run != 0, value & StartBit != 0, value & StopBit != 0)
  }

  /** Registers after an access, with the bus requests it made in order. */
  datatype Transfer = Transfer(regs: Registers, ops: seq<BusOp>)

  /** The low byte of a register value; the byte registers keep only it. */
  function LowByte(w: Word): Word {
    w & 0xff
  }

  /** The raw status with the master interrupt (bit 0) raised. */
  function RaiseInterrupt(mris: Word): Word {
    mris | 1
  }

  /** The 7-bit slave address: bits 1 to 7 of MSA. */
  function Address(r: Registers): Word {
    r.msa >> 1
  }

  /** The transfer is a read when bit 0 of the slave address register is set. */
  predicate Receiving(r: Registers) {
    r.msa & 1 != 0
  }

  /**
   * Grabbing the bus: a start command while the master does not hold the
   * bus starts a transfer to the address in MSA. A refused start sets the
   * arbitration-lost bit; an accepted one clears it and marks the bus held.
   */
  function Grab(r: Registers, cmd: Command, bus: Bus): (t: Transfer)
    ensures t.regs.(mcs := r.mcs) == r
    ensures cmd.start && !r.mcs.busBusy ==> t.ops == [StartTransfer(Address(r), Receiving(r))]
    ensures !(cmd.start && !r.mcs.busBusy) ==> t == Transfer(r, [])
  {
    if cmd.start && !r.mcs.busBusy then
      var start := [StartTransfer(Address(r), Receiving(r))];
      if bus.startRefused then Transfer(r.(mcs := r.mcs.(arbitrationLost := true)), start)
      else Transfer(r.(mcs := r.mcs.(arbitrationLost := false, busBusy := true)), start)
    else Transfer(r, [])
  }

  /** The master holds the bus when the bus is busy and its own busy bit is set. */
  predicate Held(mcs: McsFlags, bus: Bus) {
    bus.busy && mcs.busBusy
  }

  /**
   * Moving one byte with the bus held: a run command receives a byte into
   * MDR or sends MDR, depending on the direction, and raises the raw
   * interrupt bit.
   */
  function Execute(t: Transfer, cmd: Command, bus: Bus): (t': Transfer)
    ensures !cmd.run ==> t' == t
  {
    if !cmd.run then t
    else
      var r := t.regs;
      if Receiving(r) then Transfer(r.(mdr := LowByte(bus.received), mris := RaiseInterrupt(r.mris)), t.ops + [Receive])
      else Transfer(r.(mris := RaiseInterrupt(r.mris)), t.ops + [Send(r.mdr)])
  }

  /** A stop command ends the transfer and releases the bus. */
  function Finish(t: Transfer, cmd: Command): (t': Transfer)
    ensures !cmd.stop ==> t' == t
  {
    if !cmd.stop then t
    else Transfer(t.regs.(mcs := t.regs.mcs.(busBusy := false)), t.ops + [EndTransfer])
  }

  /**
   * An MCS write. With the master disabled it does nothing. Otherwise it
   * grabs the bus if asked to; if the master then does not hold the bus it
   * only sets the error bit; if it does, it clears the error bit, moves a
   * byte when asked to and stops when asked to.
   */
  function McsCommand(r: Registers, cmd: Command, bus: Bus): (t: Transfer)
    ensures Enabled(r) ==> Grab(r, cmd, bus).ops <= t.ops
  {
    if !Enabled(r) then Transfer(r, [])
    else
      var g := Grab(r, cmd, bus);
      if !Held(g.regs.mcs, bus) then Transfer(g.regs.(mcs := g.regs.mcs.(error := true)), g.ops)
      else Finish(Execute(Transfer(g.regs.(mcs := g.regs.mcs.(error := false)), g.ops), cmd, bus), cmd)
  }

  /** The master is enabled by bit 4 of MCR. */
  predicate Enabled(r: Registers) {
    r.mcr & MasterEnable != 0
  }

  /** What an MCS read returns: the flags, with the controller always idle since timing is not emulated. */
  function McsRead(f: McsFlags): Word {
    McsWord(f) | Idle
  }

  /** MCR keeps the loopback, master and slave enable bits of a write. */
  function McrKept(value: Word): Word {
    value & McrBits
  }

  /** A register read: the value, or a fault for an offset the master does not decode. */
  function ReadRegister(r: Registers, offset: int): (res: Result<Word>)
    ensures res.Err? <==> !(offset in {Msa, Mcs, Mdr, Mtpr, Mimr, Mris, Mmis, Mcr})
    ensures res.Err? ==> res.reason == BadOffset(offset)
  {
    if offset == Msa then Ok(r.msa)
    else if offset == Mcs then Ok(McsRead(r.mcs))
    else if offset == Mdr then Ok(r.mdr)
    else if offset == Mtpr then Ok(r.mtpr)
    else if offset == Mimr then Ok(r.mimr)
    else if offset == Mris then Ok(r.mris)
    else if offset == Mmis then Ok(Masked(r.mris, r.mimr))
    else if offset == Mcr then Ok(r.mcr)
    else Err(BadOffset(offset))
  }

  /**
   * The registers after a write to any register but MCS. The byte registers
   * keep the low 8 bits; any write to the interrupt mask enables the one
   * interrupt; the interrupt clear register clears the raw bits written as
   * 1; loopback and slave mode are unsupported.
   */
  function StoreRegister(r: Registers, offset: int, value: Word): (res: Result<Registers>)
    requires offset != Mcs
    ensures res.Ok? ==> res.value.mcs == r.mcs
    ensures res.Err? && offset != Mcr ==> res.reason == BadOffset(offset)
  {
    if offset == Msa then Ok(r.(msa := LowByte(value)))
    else if offset == Mdr then Ok(r.(mdr := LowByte(value)))
    else if offset == Mtpr then Ok(r.(mtpr := LowByte(value)))
    else if offset == Mimr then Ok(r.(mimr := 1))
    else if offset == Micr then Ok(r.(mris := Cleared(r.mris, value)))
    else if offset == Mcr then
      if value & Loopback != 0 then Err(LoopbackUnsupported)
      else if value & SlaveEnable != 0 then Err(SlaveModeUnsupported)
      else Ok(r.(mcr := McrKept(value)))
    else Err(BadOffset(offset))
  }

  /** A register write: the registers and bus requests, or the fault the source reports. */
  function WriteRegister(r: Registers, offset: int, value: Word, bus: Bus): (res: Result<Transfer>)
    ensures offset != Mcs && res.Ok? ==> res.value.ops == []
  {
    if offset == Mcs then Ok(McsCommand(r, CommandOf(value), bus))
    else
      var stored := StoreRegister(r, offset, value);
      if stored.Err? then Err(stored.reason) else Ok(Transfer(stored.value, []))
  }

  /** Reset ends a transfer the master still holds and restores the reset values. */
  function ResetEffect(r: Registers): (t: Transfer)
    ensures t.regs == ResetRegisters
  {
    Transfer(ResetRegisters, if r.mcs.busBusy then [EndTransfer] else [])
  }

  // ---------------------------------------------------------------------------
  // What an MCS write promises.

  /** With the master disabled an MCS write changes nothing and leaves the bus alone. */
  lemma DisabledIgnoresCommands(r: Registers, cmd: Command, bus: Bus)
    requires !Enabled(r)
    ensures McsCommand(r, cmd, bus) == Transfer(r, [])
  {
  }

  /**
   * A start the bus refuses sets the arbitration-lost bit. The master then
   * does not hold the bus, so the write sets the error bit and does nothing
   * else: only the start was requested of the bus.
   */
  lemma RefusedStartLosesArbitration(r: Registers, cmd: Command, bus: Bus)
    requires Enabled(r) && cmd.start && !r.mcs.busBusy && bus.startRefused
    ensures var t := McsCommand(r, cmd, bus);
      t.regs.mcs.arbitrationLost && t.regs.mcs.error &&
      t.regs.mcs == r.mcs.(arbitrationLost := true, error := true) && !t.regs.mcs.busBusy &&
      t.regs.(mcs := r.mcs) == r && t.ops == [StartTransfer(Address(r), Receiving(r))]
  {
  }

  /**
   * An accepted start clears the arbitration-lost bit and marks the bus held,
   * unless the same write also stops the transfer; the start is the first
   * request the bus sees.
   */
  lemma AcceptedStartHoldsBus(r: Registers, cmd: Command, bus: Bus)
    requires Enabled(r) && cmd.start && !r.mcs.busBusy && !bus.startRefused
    ensures var t := McsCommand(r, cmd, bus);
      !t.regs.mcs.arbitrationLost && (!cmd.stop || !bus.busy ==> t.regs.mcs.busBusy)
    ensures [StartTransfer(Address(r), Receiving(r))] <= McsCommand(r, cmd, bus).ops
  {
  }

  /** Whether the master holds the bus once the write's start command, if any, is done. */
  predicate HoldsAfterGrab(r: Registers, cmd: Command, bus: Bus) {
    Held(Grab(r, cmd, bus).regs.mcs, bus)
  }

  /**
   * The error bit is set exactly when the master does not hold the bus, and
   * then the write changes nothing but the error flag after the grab step
   * and asks the bus for nothing but the start.
   */
  lemma ErrorIffBusNotHeld(r: Registers, cmd: Command, bus: Bus)
    requires Enabled(r)
    ensures var t := McsCommand(r, cmd, bus);
      t.regs.mcs.error <==> !HoldsAfterGrab(r, cmd, bus)
    ensures var t := McsCommand(r, cmd, bus);
      !HoldsAfterGrab(r, cmd, bus) ==> t.regs.(mcs := r.mcs) == r && t.ops == Grab(r, cmd, bus).ops
    ensures !HoldsAfterGrab(r, cmd, bus) ==>
      McsCommand(r, cmd, bus).regs.mcs == Grab(r, cmd, bus).regs.mcs.(error := true)
  {
  }

  /**
   * With the bus held, a run command moves exactly one byte and sets the
   * raw interrupt bit; without it neither happens. A receive stores the
   * low byte from the bus in MDR; a send puts MDR on the bus.
   */
  lemma RunMovesOneByte(r: Registers, cmd: Command, bus: Bus)
    requires Enabled(r) && HoldsAfterGrab(r, cmd, bus)
    ensures McsCommand(r, cmd, bus).ops ==
      Grab(r, cmd, bus).ops +
      (if cmd.run then [if Receiving(r) then Receive else Send(r.mdr)] else []) +
      (if cmd.stop then [EndTransfer] else [])
    ensures var t := McsCommand(r, cmd, bus);
      var g := Grab(r, cmd, bus);
      cmd.run ==>
        t.regs.mris == RaiseInterrupt(r.mris) &&
        t.ops[|g.ops|] == (if Receiving(r) then Receive else Send(r.mdr)) &&
        t.regs.mdr == (if Receiving(r) then LowByte(bus.received) else r.mdr)
    ensures var t := McsCommand(r, cmd, bus);
      !cmd.run ==> t.regs.mris == r.mris && t.regs.mdr == r.mdr
  {
  }

  /**
   * With the bus held, a stop command releases it and ends the transfer as
   * the last bus request; without one the master keeps the bus. Either way
   * the error flag is clear.
   */
  lemma StopReleasesBus(r: Registers, cmd: Command, bus: Bus)
    requires Enabled(r) && HoldsAfterGrab(r, cmd, bus)
    ensures var t := McsCommand(r, cmd, bus);
      cmd.stop ==> !t.regs.mcs.busBusy && t.ops[|t.ops| - 1] == EndTransfer
    ensures var t := McsCommand(r, cmd, bus);
      !cmd.stop ==> t.regs.mcs.busBusy
    ensures !McsCommand(r, cmd, bus).regs.mcs.error
  {
  }

  /** An MCS read always shows the controller idle. */
  lemma McsReadsIdle(r: Registers)
    ensures ReadRegister(r, Mcs).value & Idle != 0
    ensures ReadRegister(r, Mcs).value & !Idle == McsWord(r.mcs)
  {
  }

  // ---------------------------------------------------------------------------
  // What the other registers promise.

  /** The byte registers read back the low byte of what was written; no other register changes and the bus sees nothing. */
  lemma ByteRegistersRoundTrip(r: Registers, offset: int, value: Word, bus: Bus)
    requires offset in {Msa, Mdr, Mtpr}
    ensures var res := WriteRegister(r, offset, value, bus);
      res.Ok? && ReadRegister(res.value.regs, offset) == Ok(LowByte(value)) && res.value.ops == []
    ensures var regs := WriteRegister(r, offset, value, bus).value.regs;
      (offset == Msa ==> regs == r.(msa := LowByte(value))) &&
      (offset == Mdr ==> regs == r.(mdr := LowByte(value))) &&
      (offset == Mtpr ==> regs == r.(mtpr := LowByte(value)))
  {
  }

  /** Any write to the interrupt mask enables exactly the one master interrupt. */
  lemma MaskWriteEnables(r: Registers, value: Word, bus: Bus)
    ensures var res := WriteRegister(r, Mimr, value, bus);
      res.Ok? && res.value.regs == r.(mimr := 1)
  {
  }

  /** The interrupt clear register clears exactly the raw bits written as 1. */
  lemma ClearAcknowledges(r: Registers, value: Word, bus: Bus)
    ensures var res := WriteRegister(r, Micr, value, bus);
      res.Ok? && res.value.regs.(mris := r.mris) == r &&
      res.value.regs.mris & value == 0 && res.value.regs.mris & !value == r.mris & !value
  {
  }

  /** The control register refuses loopback and slave mode and otherwise keeps bits 0, 4 and 5. */
  lemma ControlRegisterModes(r: Registers, value: Word, bus: Bus)
    ensures var res := WriteRegister(r, Mcr, value, bus);
      (res.Err? <==> value & (Loopback | SlaveEnable) != 0) &&
      (value & Loopback != 0 ==> res == Err(LoopbackUnsupported)) &&
      (value & Loopback == 0 && value & SlaveEnable != 0 ==> res == Err(SlaveModeUnsupported)) &&
      (res.Ok? ==> res.value.regs == r.(mcr := McrKept(value)))
  {
  }

  /** Writes fail exactly at the offsets the master does not decode (and for the refused MCR modes). */
  lemma WriteFaults(r: Registers, offset: int, value: Word, bus: Bus)
    requires offset != Mcr
    ensures var res := WriteRegister(r, offset, value, bus);
      (res.Err? <==> !(offset in {Msa, Mcs, Mdr, Mtpr, Mimr, Micr})) &&
      (res.Err? ==> res.reason == BadOffset(offset))
  {
  }

  /** The masked interrupt status is non-zero exactly when the interrupt line is raised. */
  lemma MaskedStatusIsLevel(r: Registers)
    ensures ReadRegister(r, Mmis).Ok? && (ReadRegister(r, Mmis).value != 0 <==> Pending(r.mris, r.mimr))
  {
  }

  /** Reset ends a transfer exactly when the master held the bus. */
  lemma ResetEndsHeldTransfer(r: Registers)
    ensures ResetEffect(r).ops == (if r.mcs.busBusy then [EndTransfer] else [])
    ensures ReadRegister(ResetEffect(r).regs, Mcs) == Ok(Idle)
  {
  }

  // ---------------------------------------------------------------------------
  // The master as the emulator holds it.

  class I2cMaster {
    var msa: Word
    var mcs: McsFlags
    var mdr: Word
    var mtpr: Word
    var mimr: Word
    var mris: Word
    var mcr: Word
    /** Level of the interrupt line. */
    var irq: bool

    /** The interrupt line shows the masked raw interrupt status. */
    predicate Valid()
      reads this
    {
      irq == Pending(mris, mimr)
    }

    function Regs(): Registers
      reads this`msa, this`mcs, this`mdr, this`mtpr, this`mimr, this`mris, this`mcr
    {
      Registers(msa, mcs, mdr, mtpr, mimr, mris, mcr)
    }

    constructor ()
      ensures Valid() && Regs() == ResetRegisters
    {
      msa, mcs, mdr, mtpr, mimr, mris, mcr := 0, McsClear, 0, 1, 0, 0, 0;
      irq := false;
    }

    method UpdateIrq()
      modifies this`irq
      ensures Valid() && Regs() == old(Regs())
    {
      irq := Pending(mris, mimr);
    }

    method SetRegisters(r: Registers)
      modifies this`msa, this`mcs, this`mdr, this`mtpr, this`mimr, this`mris, this`mcr
      ensures Regs() == r
    {
      msa, mcs, mdr, mtpr, mimr, mris, mcr := r.msa, r.mcs, r.mdr, r.mtpr, r.mimr, r.mris, r.mcr;
    }

    /** Register read: pure. */
    function Read(offset: int): (res: Result<Word>)
      reads this
      requires Valid()
      ensures res == ReadRegister(Regs(), offset)
      ensures offset == Mmis ==> (res.value != 0 <==> irq)
    {
      ReadRegister(Regs(), offset)
    }

    /**
     * An MCS write, flag by flag: grab the bus when asked to start, flag an
     * error when the bus is not held, otherwise move a byte when asked to
     * run and release the bus when asked to stop.
     */
    method McsWrite(cmd: Command, bus: Bus) returns (ops: seq<BusOp>)
      modifies this`mcs, this`mdr, this`mris
      ensures Transfer(Regs(), ops) == McsCommand(old(Regs()), cmd, bus)
    {
      ops := [];
      if !Enabled(Regs()) {
        return;
      }
      ops := GrabBus(cmd, bus);
      if !Held(mcs, bus) {
        mcs := mcs.(error := true);
        return;
      }
      mcs := mcs.(error := false);
      ops := MoveByte(cmd, bus, ops);
      ops := Release(cmd, ops);
    }

    method GrabBus(cmd: Command, bus: Bus) returns (ops: seq<BusOp>)
      modifies this`mcs
      ensures Transfer(Regs(), ops) == Grab(old(Regs()), cmd, bus)
    {
      ops := [];
      if cmd.start && !mcs.busBusy {
        ops := [StartTransfer(Address(Regs()), Receiving(Regs()))];
        if bus.startRefused {
          mcs := mcs.(arbitrationLost := true);
        } else {
          mcs := mcs.(arbitrationLost := false, busBusy := true);
        }
      }
    }

    method MoveByte(cmd: Command, bus: Bus, ops0: seq<BusOp>) returns (ops: seq<BusOp>)
      modifies this`mdr, this`mris
      ensures Transfer(Regs(), ops) == Execute(Transfer(old(Regs()), ops0), cmd, bus)
    {
      ops := ops0;
      if cmd.run {
        if Receiving(Regs()) {
          mdr := LowByte(bus.received);
          ops := ops + [Receive];
        } else {
          ops := ops + [Send(mdr)];
        }
        mris := RaiseInterrupt(mris);
      }
    }

    method Release(cmd: Command, ops0: seq<BusOp>) returns (ops: seq<BusOp>)
      modifies this`mcs
      ensures Transfer(Regs(), ops) == Finish(Transfer(old(Regs()), ops0), cmd)
    {
      ops := ops0;
      if cmd.stop {
        ops := ops + [EndTransfer];
        mcs := mcs.(busBusy := false);
      }
    }

    /**
     * Register write. The registers become what WriteRegister says, the bus
     * sees the requests it lists, and the interrupt line follows the masked
     * status. After an unsupported access the emulator stops.
     */
    method Write(offset: int, value: Word, bus: Bus) returns (out: Outcome, ops: seq<BusOp>)
      requires Valid()
      modifies this
      ensures var res := WriteRegister(old(Regs()), offset, value, bus);
        (out.Abort? <==> res.Err?) && (out.Abort? ==> out.reason == res.reason) &&
        (out.Done? ==> Valid() && Regs() == res.value.regs && ops == res.value.ops)
    {
      if offset == Mcs {
        ops := McsWrite(CommandOf(value), bus);
      } else {
        var stored := StoreRegister(Regs(), offset, value);
        if stored.Err? {
          return Abort(stored.reason), [];
        }
        SetRegisters(stored.value);
        ops := [];
      }
      UpdateIrq();
      out := Done;
    }

    /** Reset: end a transfer the master holds, then restore the reset values. */
    method Reset() returns (ops: seq<BusOp>)
      modifies this
      ensures Valid() && !irq
      ensures Transfer(Regs(), ops) == ResetEffect(old(Regs()))
    {
      ops := [];
      if mcs.busBusy {
        ops := [EndTransfer];
      }
      msa, mcs, mdr, mtpr, mimr, mris, mcr := 0, McsClear, 0, 1, 0, 0, 0;
      UpdateIrq();
    }
  }
}
