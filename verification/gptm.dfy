/**
 * The general purpose timer module (GPTM). Two channels, A and B, share one
 * register file. Configuration 0 joins them into a 32-bit countdown timer and
 * configuration 1 into a 32-bit real-time clock ticking once a second; in the
 * other configurations only PWM mode is accepted, and it does nothing.
 * Each channel owns one emulator timer, modelled here by a deadline in
 * nanoseconds and a flag saying whether it is armed. The interrupt line is
 * high exactly when a raw interrupt bit is set that the mask lets through.
 */
module Timer {
  import opened Words

  /** Emulator clock ticks in one second (the clock counts nanoseconds). */
  const TicksPerSecond: int := 1_000_000_000

  const CountdownConfig: Word := 0
  const RtcConfig: Word := 1
  const PwmMode: Word := 0xa

  // Register offsets within the module's window.
  const Cfg: int := 0x00
  const Tamr: int := 0x04
  const Tbmr: int := 0x08
  const Ctl: int := 0x0c
  const Imr: int := 0x18
  const Ris: int := 0x1c
  const Mis: int := 0x20
  const Cr: int := 0x24
  const Tailr: int := 0x28
  const Tbilr: int := 0x2c
  const Tamatchr: int := 0x30
  const Tbmatchr: int := 0x34
  const Tapr: int := 0x38
  const Tbpr: int := 0x3c
  const Tapmr: int := 0x40
  const Tbpmr: int := 0x44
  const Tar: int := 0x48
  const Tbr: int := 0x4c

  /** Interrupt sources the mask register can enable. */
  const ImrBits: Word := 0x77
  /** Raw interrupt bit set when the countdown reaches zero. */
  const TimeoutBit: Word := 1
  /** Raw interrupt bit set when the real-time clock matches. */
  const RtcBit: Word := 8
  /** Control bit that routes the countdown timeout to the ADC trigger. */
  const TriggerEnable: Word := 0x20

  /** A register each channel has: channel A's (n = 0) and channel B's (n = 1). */
  datatype Pair = Pair(a: Word, b: Word) {
    function At(n: nat): Word
      requires n < 2
    {
      if n == 0 then a else b
    }

    function With(n: nat, value: Word): (p: Pair)
      requires n < 2
      ensures p.At(n) == value && p.At(1 - n) == At(1 - n)
    {
      if n == 0 then this.(a := value) else this.(b := value)
    }
  }

  /** The registers of both channels. The real-time clock counter is a 32-bit unsigned number. */
  datatype Registers = Registers(
    config: Word,
    mode: Pair,
    control: Word,
    state: Word,
    mask: Word,
    load: Pair,
    matchValue: Pair,
    prescale: Pair,
    matchPrescale: Pair,
    rtc: Uint32)

  /** The emulator timers of both channels. */
  datatype Schedule = Schedule(deadline: seq<int>, armed: seq<bool>)

  predicate Scheduled(s: Schedule) {
    |s.deadline| == 2 && |s.armed| == 2
  }

  // ---------------------------------------------------------------------------
  // Values the channels compute.

  /** A 32-bit value from its low half and its high half, as the two-channel configurations join them. */
  function Join(lo: Word, hi: Word): Word {
    lo | (hi << 16)
  }

  function Low(value: Word): Word {
    value & 0xffff
  }

  function High(value: Word): Word {
    value >> 16
  }

  /** Splitting a value into its halves and joining them again gives the value back. */
  lemma JoinSplit(value: Word)
    ensures Join(Low(value), High(value)) == value
  {
  }

  /** The 32-bit count of configuration 0 and the match value of configuration 1. */
  function Joined(p: Pair): Uint32 {
    Join(p.a, p.b) as nat
  }

  /**
   * The next value of the real-time clock counter: one more, back to 0 once
   * it passes the match value. The counter is 32 bits wide, so one more than
   * 0xffffffff is 0 as well.
   */
  function RtcNext(rtc: Uint32, matchValue: Uint32): (r: Uint32)
    ensures r <= matchValue
    ensures r == 0 <==> rtc >= matchValue
    ensures rtc < matchValue ==> r == rtc + 1
  {
    var next := (rtc + 1) % Modulus;
    if next > matchValue then 0 else next
  }

  /** The counter after k ticks from 0. */
  function RtcAfter(matchValue: Uint32, k: nat): Uint32
    decreases k
  {
    if k == 0 then 0 else RtcNext(RtcAfter(matchValue, k - 1), matchValue)
  }

  /** Started from 0, the real-time clock counts 0, 1, ..., match, one per tick. */
  lemma {:induction false} RtcCountsUpToMatch(matchValue: Uint32, k: nat)
    requires k <= matchValue
    ensures RtcAfter(matchValue, k) == k
    decreases k
  {
    if k > 0 {
      RtcCountsUpToMatch(matchValue, k - 1);
    }
  }

  /** The tick after the counter reaches match brings it back to 0: it matches once every match + 1 seconds. */
  lemma RtcWrapsAfterMatch(matchValue: Uint32)
    ensures RtcAfter(matchValue, matchValue + 1) == 0
  {
    RtcCountsUpToMatch(matchValue, matchValue);
  }

  /**
   * When a channel's timer next fires, counted from base: configuration 0
   * waits for the 32-bit count of clock periods, configuration 1 for one
   * second, PWM mode fires at once, and any other mode is unsupported.
   */
  function ReloadDeadline(r: Registers, n: nat, base: int, scale: int): (d: Result<int>)
    requires n < 2
    ensures d.Err? <==> r.config != CountdownConfig && r.config != RtcConfig && r.mode.At(n) != PwmMode
    ensures d.Err? ==> d.reason == TimerModeUnsupported(r.mode.At(n))
  {
    if r.config == CountdownConfig then Ok(base + Joined(r.load) * scale)
    else if r.config == RtcConfig then Ok(base + TicksPerSecond)
    else if r.mode.At(n) == PwmMode then Ok(base)
    else Err(TimerModeUnsupported(r.mode.At(n)))
  }

  /** The real-time clock waits one second whatever the clock scale and the load. */
  lemma RtcDeadlineIgnoresScale(r: Registers, n: nat, base: int, scale: int, scale': int)
    requires n < 2 && r.config == RtcConfig
    ensures ReloadDeadline(r, n, base, scale) == ReloadDeadline(r.(load := Pair(0, 0)), n, base, scale') == Ok(base + TicksPerSecond)
  {
  }

  /**
   * With a positive scale the countdown lies ahead of its base unless the
   * count is 0, and doubling the scale doubles the wait.
   */
  lemma CountdownDeadlineScales(r: Registers, n: nat, base: int, scale: int)
    requires n < 2 && r.config == CountdownConfig && scale > 0
    ensures var d := ReloadDeadline(r, n, base, scale).value;
      (d > base <==> Joined(r.load) > 0) &&
      ReloadDeadline(r, n, base, 2 * scale).value - base == 2 * (d - base)
  {
    ProductScales(Joined(r.load), scale);
  }

  lemma ProductScales(count: nat, scale: int)
    requires scale > 0
    ensures count * scale > 0 <==> count > 0
    ensures count * (2 * scale) == 2 * (count * scale)
  {
    if count > 0 {
      assert count * scale >= scale;
    }
  }

  /** A load of 100 at scale 5 fires 500 ticks after it was armed. */
  lemma CountdownExample(r: Registers, base: int)
    requires r.config == CountdownConfig && r.load == Pair(100, 0)
    ensures ReloadDeadline(r, 0, base, 5) == Ok(base + 500)
  {
    assert Joined(r.load) == 100;
  }

  // ---------------------------------------------------------------------------
  // Register accesses, as pure functions of the registers and the schedule.

  function Arm(s: Schedule, n: nat, deadline: int): (s': Schedule)
    requires Scheduled(s) && n < 2
    ensures Scheduled(s') && s'.armed[n] && s'.deadline[n] == deadline
    ensures s'.armed[1 - n] == s.armed[1 - n] && s'.deadline[1 - n] == s.deadline[1 - n]
  {
    Schedule(s.deadline[n := deadline], s.armed[n := true])
  }

  function Stop(s: Schedule, n: nat): (s': Schedule)
    requires Scheduled(s) && n < 2
    ensures Scheduled(s') && !s'.armed[n] && s'.deadline == s.deadline
    ensures s'.armed[1 - n] == s.armed[1 - n]
  {
    s.(armed := s.armed[n := false])
  }

  /** Arms channel n at its reload deadline counted from base. */
  function Rearm(r: Registers, s: Schedule, n: nat, base: int, scale: int): (res: Result<Schedule>)
    requires Scheduled(s) && n < 2
    ensures res.Ok? ==> Scheduled(res.value)
    ensures res.Err? <==> ReloadDeadline(r, n, base, scale).Err?
  {
    var d := ReloadDeadline(r, n, base, scale);
    if d.Err? then Err(d.reason) else Ok(Arm(s, n, d.value))
  }

  predicate Toggled(before: Word, after: Word, bit: Word) {
    (before ^ after) & bit != 0
  }

  /** The control register bit that enables channel n: bit 0 for A, bit 8 for B. */
  function EnableBit(n: nat): Word {
    if n == 0 then 1 else 0x100
  }

  /**
   * Channel n's timer after the control register changes from oldControl to
   * r.control: armed from now when its enable bit rises, stopped when it
   * falls, left alone otherwise.
   */
  function ChannelEdge(r: Registers, s: Schedule, n: nat, oldControl: Word, now: int, scale: int): (res: Result<Schedule>)
    requires Scheduled(s) && n < 2
    ensures res.Ok? ==> Scheduled(res.value)
    ensures !Toggled(oldControl, r.control, EnableBit(n)) ==> res == Ok(s)
    ensures Toggled(oldControl, r.control, EnableBit(n)) && r.control & EnableBit(n) != 0 ==>
      (res.Err? <==> ReloadDeadline(r, n, now, scale).Err?) &&
      (res.Ok? ==>
        res.value.armed[n] && res.value.deadline[n] == ReloadDeadline(r, n, now, scale).value &&
        res.value.armed[1 - n] == s.armed[1 - n] && res.value.deadline[1 - n] == s.deadline[1 - n])
    ensures Toggled(oldControl, r.control, EnableBit(n)) && r.control & EnableBit(n) == 0 ==>
      res.Ok? && !res.value.armed[n] && res.value.armed[1 - n] == s.armed[1 - n] &&
      res.value.deadline == s.deadline
  {
    if !Toggled(oldControl, r.control, EnableBit(n)) then Ok(s)
    else if r.control & EnableBit(n) != 0 then Rearm(r, s, n, now, scale)
    else Ok(Stop(s, n))
  }

  /**
   * The timers after the control register changes from oldControl to
   * r.control (r holds the registers after the write): channel A follows
   * bit 0, and channel B follows bit 8 from configuration 4 up.
   */
  function ControlSchedule(r: Registers, s: Schedule, oldControl: Word, now: int, scale: int): (res: Result<Schedule>)
    requires Scheduled(s)
    ensures res.Ok? ==> Scheduled(res.value)
  {
    var a := ChannelEdge(r, s, 0, oldControl, now, scale);
    if a.Err? || r.config < 4 then a
    else ChannelEdge(r, a.value, 1, oldControl, now, scale)
  }

  /**
   * The registers after a write; the control register is stored as written.
   * A write to an offset the module does not decode is a fault.
   */
  function StoreRegister(r: Registers, offset: int, value: Word): (res: Result<Registers>)
    ensures res.Err? ==> res == Err(BadOffset(offset))
    ensures res.Ok? ==> res.value.rtc == r.rtc && res.value.matchPrescale.b == r.matchPrescale.b
  {
    if offset == Cfg then Ok(r.(config := value))
    else if offset == Tamr then Ok(r.(mode := r.mode.(a := value)))
    else if offset == Tbmr then Ok(r.(mode := r.mode.(b := value)))
    else if offset == Ctl then Ok(r.(control := value))
    else if offset == Imr then Ok(r.(mask := value & ImrBits))
    else if offset == Cr then Ok(r.(state := r.state & !value))
    else if offset == Tailr then
      Ok(r.(load := if r.config < 4 then Pair(Low(value), High(value)) else r.load.(a := Low(value))))
    else if offset == Tbilr then Ok(r.(load := r.load.(b := Low(value))))
    else if offset == Tamatchr then
      Ok(r.(matchValue := if r.config < 4 then Pair(Low(value), High(value)) else r.matchValue.(a := Low(value))))
    else if offset == Tbmatchr then Ok(r.(matchValue := r.matchValue.(b := High(value))))
    else if offset == Tapr then Ok(r.(prescale := r.prescale.(a := value)))
    else if offset == Tbpr then Ok(r.(prescale := r.prescale.(b := value)))
    else if offset == Tapmr then Ok(r.(matchPrescale := r.matchPrescale.(a := value)))
    // The channel B prescale match write lands in channel A's register.
    else if offset == Tbpmr then Ok(r.(matchPrescale := r.matchPrescale.(a := value)))
    else Err(BadOffset(offset))
  }

  datatype Snapshot = Snapshot(regs: Registers, schedule: Schedule)

  /**
   * A register write: the new registers and timers, or the fault the source
   * reports. Only a control register write touches the timers.
   */
  function WriteRegister(r: Registers, s: Schedule, offset: int, value: Word, now: int, scale: int): (res: Result<Snapshot>)
    requires Scheduled(s)
    ensures res.Ok? ==> Scheduled(res.value.schedule)
  {
    var stored := StoreRegister(r, offset, value);
    if stored.Err? then Err(stored.reason)
    else if offset != Ctl then Ok(Snapshot(stored.value, s))
    else
      var s' := ControlSchedule(stored.value, s, r.control, now, scale);
      if s'.Err? then Err(s'.reason) else Ok(Snapshot(stored.value, s'.value))
  }

  /** A register read: the value, or the fault the source reports. */
  function ReadRegister(r: Registers, offset: int): (res: Result<Word>)
    ensures offset == Mis ==> res.Ok? && (res.value != 0 <==> Pending(r.state, r.mask))
  {
    if offset == Cfg then Ok(r.config)
    else if offset == Tamr then Ok(r.mode.a)
    else if offset == Tbmr then Ok(r.mode.b)
    else if offset == Ctl then Ok(r.control)
    else if offset == Imr then Ok(r.mask)
    else if offset == Ris then Ok(r.state)
    else if offset == Mis then Ok(r.state & r.mask)
    else if offset == Cr then Ok(0)
    else if offset == Tailr then Ok(r.load.a | (if r.config < 4 then r.load.b << 16 else 0))
    else if offset == Tbilr then Ok(r.load.b)
    else if offset == Tamatchr then Ok(r.matchValue.a | (if r.config < 4 then r.matchValue.b << 16 else 0))
    else if offset == Tbmatchr then Ok(r.matchValue.b)
    else if offset == Tapr then Ok(r.prescale.a)
    else if offset == Tbpr then Ok(r.prescale.b)
    else if offset == Tapmr then Ok(r.matchPrescale.a)
    else if offset == Tbpmr then Ok(r.matchPrescale.b)
    // The counter of channel A reads back only while the control register
    // holds exactly 1; otherwise, like channel B's, the read is unsupported.
    else if offset == Tar && r.control == 1 then Ok(r.rtc as Word)
    else if offset == Tar || offset == Tbr then Err(TimerValueRead)
    else Err(BadOffset(offset))
  }

  /**
   * What a timeout does to the registers. The countdown sets the timeout bit
   * and, in one-shot mode, clears the enable bit. The real-time clock
   * advances its counter and sets the match bit when the counter comes back
   * to 0. PWM mode changes nothing; any other mode is unsupported.
   */
  function Fire(r: Registers, n: nat): (res: Result<Registers>)
    requires n < 2
    ensures res.Err? <==> r.config != CountdownConfig && r.config != RtcConfig && r.mode.At(n) != PwmMode
    ensures res.Err? ==> res.reason == TimerModeUnsupported(r.mode.At(n))
    ensures res.Ok? ==> res.value.(state := r.state, control := r.control, rtc := r.rtc) == r
  {
    if r.config == CountdownConfig then
      Ok(r.(state := r.state | TimeoutBit,
            control := if r.mode.a & 1 != 0 then r.control & !1 else r.control))
    else if r.config == RtcConfig then
      var rtc := RtcNext(r.rtc, Joined(r.matchValue));
      Ok(r.(rtc := rtc, state := if rtc == 0 then r.state | RtcBit else r.state))
    else if r.mode.At(n) == PwmMode then Ok(r)
    else Err(TimerModeUnsupported(r.mode.At(n)))
  }

  /** A countdown timeout pulses the ADC trigger when the control register enables it. */
  predicate Pulses(r: Registers) {
    r.config == CountdownConfig && r.control & TriggerEnable != 0
  }

  /** After a timeout, channel A is rearmed by a periodic countdown and by the real-time clock. */
  predicate Rearms(r: Registers) {
    r.config == RtcConfig || (r.config == CountdownConfig && r.mode.a & 1 == 0)
  }

  datatype Fired = Fired(regs: Registers, schedule: Schedule, pulse: bool)

  /**
   * Channel n's timer fires: it is no longer armed, the registers change as
   * Fire says, and channel A is rearmed from its previous deadline when
   * Rearms says so.
   */
  function TickEffect(r: Registers, s: Schedule, n: nat, scale: int): (res: Result<Fired>)
    requires Scheduled(s) && n < 2
    ensures res.Ok? ==> Scheduled(res.value.schedule)
    ensures res.Err? <==> ReloadDeadline(r, n, s.deadline[0], scale).Err?
  {
    var f := Fire(r, n);
    if f.Err? then Err(f.reason)
    else Ok(Fired(f.value, AfterTimeout(f.value, s, n, Rearms(r), scale), Pulses(r)))
  }

  /**
   * The timers once channel n's timer has expired: it is no longer armed,
   * and when rearm is set channel A is armed again one reload period after
   * its previous deadline (r holds the registers after the timeout).
   */
  function AfterTimeout(r: Registers, s: Schedule, n: nat, rearm: bool, scale: int): (s': Schedule)
    requires Scheduled(s) && n < 2
    requires rearm ==> r.config == CountdownConfig || r.config == RtcConfig
    ensures Scheduled(s')
  {
    var idle := Stop(s, n);
    if rearm then Arm(idle, 0, ReloadDeadline(r, 0, s.deadline[0], scale).value) else idle
  }

  /**
   * The expired channel ends disarmed unless it is channel A and is rearmed;
   * a rearmed channel A waits one reload period past its previous deadline;
   * channel B's deadline never moves, and the other channel's timer is left
   * alone unless it is channel A being rearmed.
   */
  lemma TimeoutSchedule(r: Registers, s: Schedule, n: nat, rearm: bool, scale: int)
    requires Scheduled(s) && n < 2
    requires rearm ==> r.config == CountdownConfig || r.config == RtcConfig
    ensures var s' := AfterTimeout(r, s, n, rearm, scale);
      (!s'.armed[n] || (n == 0 && rearm)) &&
      (rearm ==> s'.armed[0] && s'.deadline[0] == ReloadDeadline(r, 0, s.deadline[0], scale).value) &&
      (!rearm ==> s'.deadline == s.deadline) &&
      s'.deadline[1] == s.deadline[1] &&
      (n == 0 || !rearm ==> s'.armed[1 - n] == s.armed[1 - n])
  {
  }

  // ---------------------------------------------------------------------------
  // What register accesses promise.

  /** Only the six interrupt sources the hardware has can be unmasked. */
  lemma MaskKeepsInterruptBits(r: Registers, s: Schedule, value: Word, now: int, scale: int)
    requires Scheduled(s)
    ensures var res := WriteRegister(r, s, Imr, value, now, scale);
      res.Ok? && res.value.regs.mask & !ImrBits == 0 &&
      res.value.regs.mask & ImrBits == value & ImrBits &&
      res.value.regs.(mask := r.mask) == r
  {
  }

  /**
   * Writing the clear register clears exactly the raw interrupt bits written
   * as 1, and the raw status reads back without them.
   */
  lemma ClearAcknowledgesWrittenBits(r: Registers, s: Schedule, value: Word, now: int, scale: int)
    requires Scheduled(s)
    ensures var res := WriteRegister(r, s, Cr, value, now, scale);
      res.Ok? && res.value.regs.state & value == 0 &&
      res.value.regs.state & !value == r.state & !value &&
      res.value.regs.(state := r.state) == r &&
      ReadRegister(res.value.regs, Ris) == Ok(res.value.regs.state)
  {
  }

  /**
   * In the 32-bit configurations the interval load of channel A takes the
   * whole value: it reads back unchanged and is the countdown's count.
   */
  lemma IntervalLoadRoundTrip(r: Registers, s: Schedule, value: Word, now: int, scale: int)
    requires Scheduled(s) && r.config < 4
    ensures var r' := WriteRegister(r, s, Tailr, value, now, scale).value.regs;
      ReadRegister(r', Tailr) == Ok(value) && Joined(r'.load) == value as nat
  {
    JoinSplit(value);
  }

  /** From configuration 4 up the interval load of channel A keeps only the low half. */
  lemma IntervalLoadNarrow(r: Registers, s: Schedule, value: Word, now: int, scale: int)
    requires Scheduled(s) && r.config >= 4
    ensures var r' := WriteRegister(r, s, Tailr, value, now, scale).value.regs;
      ReadRegister(r', Tailr) == Ok(Low(value)) && r'.load.b == r.load.b
  {
  }

  /** The match register of channel A behaves like its interval load. */
  lemma MatchRoundTrip(r: Registers, s: Schedule, value: Word, now: int, scale: int)
    requires Scheduled(s) && r.config < 4
    ensures var r' := WriteRegister(r, s, Tamatchr, value, now, scale).value.regs;
      ReadRegister(r', Tamatchr) == Ok(value) && Joined(r'.matchValue) == value as nat
  {
    JoinSplit(value);
  }

  /** From configuration 4 up the match register of channel A keeps only the low half. */
  lemma MatchNarrow(r: Registers, s: Schedule, value: Word, now: int, scale: int)
    requires Scheduled(s) && r.config >= 4
    ensures var r' := WriteRegister(r, s, Tamatchr, value, now, scale).value.regs;
      ReadRegister(r', Tamatchr) == Ok(Low(value)) && r'.matchValue.b == r.matchValue.b
  {
  }

  /** Registers stored whole read back what was written; the write changes no other register and not the timers. */
  lemma PlainRegistersRoundTrip(r: Registers, s: Schedule, offset: int, value: Word, now: int, scale: int)
    requires Scheduled(s)
    requires offset in {Cfg, Tamr, Tbmr, Tapr, Tbpr, Tapmr}
    ensures var res := WriteRegister(r, s, offset, value, now, scale);
      res.Ok? && ReadRegister(res.value.regs, offset) == Ok(value) && res.value.schedule == s
    ensures var regs := WriteRegister(r, s, offset, value, now, scale).value.regs;
      (offset == Cfg ==> regs == r.(config := value)) &&
      (offset == Tamr ==> regs == r.(mode := r.mode.(a := value))) &&
      (offset == Tbmr ==> regs == r.(mode := r.mode.(b := value))) &&
      (offset == Tapr ==> regs == r.(prescale := r.prescale.(a := value))) &&
      (offset == Tbpr ==> regs == r.(prescale := r.prescale.(b := value))) &&
      (offset == Tapmr ==> regs == r.(matchPrescale := r.matchPrescale.(a := value)))
  {
  }

  /**
   * Two registers of channel B do not read back what was written: its
   * interval load keeps the low half and its match register the high half,
   * and a prescale match write changes channel A's register, leaving
   * channel B's as it was.
   */
  lemma ChannelBReadBack(r: Registers, s: Schedule, value: Word, now: int, scale: int)
    requires Scheduled(s)
    ensures ReadRegister(WriteRegister(r, s, Tbilr, value, now, scale).value.regs, Tbilr) == Ok(Low(value))
    ensures ReadRegister(WriteRegister(r, s, Tbmatchr, value, now, scale).value.regs, Tbmatchr) == Ok(High(value))
    ensures var r' := WriteRegister(r, s, Tbpmr, value, now, scale).value.regs;
      ReadRegister(r', Tbpmr) == Ok(r.matchPrescale.b) && ReadRegister(r', Tapmr) == Ok(value)
  {
  }

  /** The counter of channel A can be read only while the control register holds exactly 1. */
  lemma CounterReadGated(r: Registers)
    ensures ReadRegister(r, Tar).Ok? <==> r.control == 1
    ensures r.control == 1 ==> ReadRegister(r, Tar) == Ok(r.rtc as Word)
    ensures r.control != 1 ==> ReadRegister(r, Tar) == Err(TimerValueRead)
    ensures ReadRegister(r, Tbr) == Err(TimerValueRead)
  {
  }

  /**
   * Reads fail exactly at the offsets the module does not decode, at the
   * counter of channel B, and at the counter of channel A unless the
   * control register holds 1.
   */
  lemma ReadFaults(r: Registers, offset: int)
    ensures ReadRegister(r, offset).Err? <==>
      !(offset in {Cfg, Tamr, Tbmr, Ctl, Imr, Ris, Mis, Cr, Tailr, Tbilr,
                   Tamatchr, Tbmatchr, Tapr, Tbpr, Tapmr, Tbpmr}) &&
      !(offset == Tar && r.control == 1)
  {
  }

  /**
   * Away from the control register, writes fail exactly at the offsets the
   * module does not decode, with a bad-offset fault, and leave the timers
   * alone.
   */
  lemma WriteFaults(r: Registers, s: Schedule, offset: int, value: Word, now: int, scale: int)
    requires Scheduled(s) && offset != Ctl
    ensures var res := WriteRegister(r, s, offset, value, now, scale);
      (res.Err? <==> !(offset in {Cfg, Tamr, Tbmr, Imr, Cr, Tailr, Tbilr,
                                  Tamatchr, Tbmatchr, Tapr, Tbpr, Tapmr, Tbpmr})) &&
      (res.Err? ==> res.reason == BadOffset(offset)) &&
      (res.Ok? ==> res.value.schedule == s)
  {
  }

  /**
   * The control register arms a channel when its enable bit rises and stops
   * it when the bit falls; a write that leaves the enable bits alone leaves
   * the timers alone. In configuration 0, enabling arms channel A one count
   * of clock periods after now.
   */
  lemma ControlEdges(r: Registers, s: Schedule, value: Word, now: int, scale: int)
    requires Scheduled(s)
    ensures !Toggled(r.control, value, 1) && !Toggled(r.control, value, 0x100) ==>
      WriteRegister(r, s, Ctl, value, now, scale) == Ok(Snapshot(r.(control := value), s))
    ensures var res := WriteRegister(r, s, Ctl, value, now, scale);
      r.config == CountdownConfig && r.control & 1 == 0 && value & 1 != 0 ==>
        res.Ok? && res.value.schedule.armed[0] &&
        res.value.schedule.deadline[0] == now + Joined(r.load) * scale
    ensures var res := WriteRegister(r, s, Ctl, value, now, scale);
      r.control & 1 != 0 && value & 1 == 0 && res.Ok? ==> !res.value.schedule.armed[0]
  {
  }

  /**
   * In the real-time clock configuration, enabling channel A arms it one
   * second from now.
   */
  lemma RtcEnableArmsOneSecond(r: Registers, s: Schedule, value: Word, now: int, scale: int)
    requires Scheduled(s) && r.config == RtcConfig && r.control & 1 == 0 && value & 1 != 0
    ensures var res := WriteRegister(r, s, Ctl, value, now, scale);
      res.Ok? && res.value.schedule.armed[0] && res.value.schedule.deadline[0] == now + TicksPerSecond
  {
  }

  /** Below configuration 4 the channel B enable bit is stored but does not touch channel B's timer. */
  lemma ChannelBIgnoredBelowConfig4(r: Registers, s: Schedule, value: Word, now: int, scale: int)
    requires Scheduled(s) && r.config < 4
    ensures var res := WriteRegister(r, s, Ctl, value, now, scale);
      res.Ok? ==> res.value.schedule.armed[1] == s.armed[1] && res.value.schedule.deadline[1] == s.deadline[1]
    ensures !Toggled(r.control, value, 1) ==>
      WriteRegister(r, s, Ctl, value, now, scale) == Ok(Snapshot(r.(control := value), s))
  {
  }

  /**
   * From configuration 4 up, raising the channel B enable bit arms channel
   * B at now when its mode is PWM, and is a fault otherwise.
   */
  lemma ChannelBEnable(r: Registers, s: Schedule, value: Word, now: int, scale: int)
    requires Scheduled(s) && r.config >= 4 && r.control & 0x100 == 0 && value & 0x100 != 0
    ensures var res := WriteRegister(r, s, Ctl, value, now, scale);
      (r.mode.b != PwmMode ==> res.Err?) &&
      (res.Ok? ==> res.value.schedule.armed[1] && res.value.schedule.deadline[1] == now)
  {
  }

  /** Raising only the channel B enable bit arms channel B alone, or is a fault naming its mode. */
  lemma ChannelBEnableAlone(r: Registers, s: Schedule, value: Word, now: int, scale: int)
    requires Scheduled(s) && r.config >= 4 && r.control & 0x100 == 0 && value & 0x100 != 0
    ensures var res := WriteRegister(r, s, Ctl, value, now, scale);
      !Toggled(r.control, value, 1) ==>
        (r.mode.b == PwmMode ==> res.Ok? && res.value.schedule.armed[0] == s.armed[0] &&
                                 res.value.schedule.deadline[0] == s.deadline[0]) &&
        (r.mode.b != PwmMode ==> res == Err(TimerModeUnsupported(r.mode.b)))
  {
    if !Toggled(r.control, value, 1) {
      var stored := r.(control := value);
      assert StoreRegister(r, Ctl, value) == Ok(stored);
      assert ChannelEdge(stored, s, 0, r.control, now, scale) == Ok(s);
    }
  }

  /** From configuration 4 up, lowering the channel B enable bit stops channel B. */
  lemma ChannelBDisable(r: Registers, s: Schedule, value: Word, now: int, scale: int)
    requires Scheduled(s) && r.config >= 4 && r.control & 0x100 != 0 && value & 0x100 == 0
    ensures var res := WriteRegister(r, s, Ctl, value, now, scale);
      res.Ok? ==> !res.value.schedule.armed[1]
    ensures !Toggled(r.control, value, 1) ==>
      WriteRegister(r, s, Ctl, value, now, scale) == Ok(Snapshot(r.(control := value), Stop(s, 1)))
  {
    var stored := r.(control := value);
    assert StoreRegister(r, Ctl, value) == Ok(stored);
    var a := ChannelEdge(stored, s, 0, r.control, now, scale);
    if a.Ok? {
      assert ChannelEdge(stored, a.value, 1, r.control, now, scale) == Ok(Stop(a.value, 1));
    }
  }

  /**
   * A timeout of a channel in PWM mode, outside configurations 0 and 1,
   * only leaves that channel's timer expired: no register changes and the
   * trigger is not pulsed.
   */
  lemma PwmTickIsNoOp(r: Registers, s: Schedule, n: nat, scale: int)
    requires Scheduled(s) && n < 2
    requires r.config != CountdownConfig && r.config != RtcConfig && r.mode.At(n) == PwmMode
    ensures TickEffect(r, s, n, scale) == Ok(Fired(r, Stop(s, n), false))
  {
  }

  /**
   * A countdown timeout of either channel sets the timeout bit and pulses
   * the ADC trigger when the control register enables it. Channel A's mode
   * decides what follows: one-shot clears the enable bit and leaves channel
   * A alone, periodic rearms channel A exactly one count after its previous
   * deadline. The expired channel B stays stopped.
   */
  lemma CountdownTimeout(r: Registers, s: Schedule, n: nat, scale: int)
    requires Scheduled(s) && n < 2 && r.config == CountdownConfig
    ensures var f := TickEffect(r, s, n, scale);
      f.Ok? && f.value.regs.state & TimeoutBit != 0 &&
      (f.value.pulse <==> r.control & TriggerEnable != 0)
    ensures var f := TickEffect(r, s, n, scale).value;
      r.mode.a & 1 != 0 ==>
        f.regs.control & 1 == 0 && f.regs.control == r.control & !1 &&
        !f.schedule.armed[n] && f.schedule.armed[1 - n] == s.armed[1 - n] &&
        f.schedule.deadline == s.deadline
    ensures var f := TickEffect(r, s, n, scale).value;
      r.mode.a & 1 == 0 ==>
        (f.regs.control == r.control && f.schedule.armed[0] &&
         f.schedule.deadline[0] == s.deadline[0] + Joined(r.load) * scale)
    ensures var f := TickEffect(r, s, n, scale).value;
      f.regs.state == r.state | TimeoutBit && f.regs.(state := r.state, control := r.control) == r
    ensures var f := TickEffect(r, s, n, scale).value;
      f.schedule.armed[1] == (n == 0 && s.armed[1]) && f.schedule.deadline[1] == s.deadline[1]
  {
  }

  /**
   * A real-time clock tick of either channel advances the counter and
   * rearms channel A one second after its previous deadline, whatever the
   * clock scale; it never pulses the ADC trigger. The expired channel B
   * stays stopped.
   */
  lemma RtcTick(r: Registers, s: Schedule, n: nat, scale: int)
    requires Scheduled(s) && n < 2 && r.config == RtcConfig
    ensures var f := TickEffect(r, s, n, scale);
      f.Ok? && !f.value.pulse && f.value.regs.rtc == RtcNext(r.rtc, Joined(r.matchValue))
    ensures var f := TickEffect(r, s, n, scale).value;
      f.schedule.armed[0] && f.schedule.deadline[0] == s.deadline[0] + TicksPerSecond
    ensures var f := TickEffect(r, s, n, scale).value;
      f.regs.(state := r.state, rtc := r.rtc) == r &&
      f.schedule.armed[1] == (n == 0 && s.armed[1]) && f.schedule.deadline[1] == s.deadline[1]
  {
  }

  /**
   * A real-time clock tick sets the match bit when the counter returns to 0
   * and leaves the raw status alone otherwise.
   */
  lemma RtcMatchBit(r: Registers, s: Schedule, n: nat, scale: int)
    requires Scheduled(s) && n < 2 && r.config == RtcConfig
    ensures var r' := TickEffect(r, s, n, scale).value.regs;
      r'.rtc == 0 ==> r'.state & RtcBit != 0
    ensures var r' := TickEffect(r, s, n, scale).value.regs;
      r'.state == if r'.rtc == 0 then r.state | RtcBit else r.state
  {
    var r' := Fire(r, n).value;
    assert TickEffect(r, s, n, scale).value.regs == r';
    if r'.rtc == 0 {
      assert r'.state == r.state | RtcBit;
      MatchBitSet(r.state);
    }
  }

  /**
   * A real-time clock tick changes no bit of the raw interrupt status but
   * the match bit: the status stays as it was or gains that bit.
   */
  lemma RtcKeepsOtherBits(r: Registers, s: Schedule, n: nat, scale: int)
    requires Scheduled(s) && n < 2 && r.config == RtcConfig
    ensures var state' := TickEffect(r, s, n, scale).value.regs.state;
      state' == r.state || state' == r.state | RtcBit
  {
  }

  lemma MatchBitSet(x: Word)
    ensures (x | RtcBit) & RtcBit != 0
  {
  }


  // ---------------------------------------------------------------------------
  // The timer module as the emulator holds it.

  class Gptm {
    var config: Word
    var mode: Pair
    var control: Word
    var state: Word
    var mask: Word
    var load: Pair
    var matchValue: Pair
    var prescale: Pair
    var matchPrescale: Pair
    var rtc: Uint32
    var deadline: seq<int>
    var armed: seq<bool>
    /** Level of the interrupt line. */
    var irq: bool

    /** Each channel has a timer. */
    predicate Armable()
      reads this`deadline, this`armed
    {
      |deadline| == 2 && |armed| == 2
    }

    /** Both channels have a timer and the interrupt line shows the masked status. */
    predicate Valid()
      reads this
    {
      Armable() && irq == Pending(state, mask)
    }

    function Regs(): Registers
      reads this`config, this`mode, this`control, this`state, this`mask, this`load,
            this`matchValue, this`prescale, this`matchPrescale, this`rtc
    {
      Registers(config, mode, control, state, mask, load, matchValue, prescale, matchPrescale, rtc)
    }

    function Timers(): (s: Schedule)
      reads this`deadline, this`armed
      requires Armable()
      ensures Scheduled(s)
    {
      Schedule(deadline, armed)
    }

    constructor ()
      ensures Valid() && !irq
      ensures Regs() == Registers(0, Pair(0, 0), 0, 0, 0, Pair(0, 0), Pair(0, 0), Pair(0, 0), Pair(0, 0), 0)
      ensures Timers() == Schedule([0, 0], [false, false])
    {
      config, control, state, mask, rtc := 0, 0, 0, 0, 0;
      mode, load, matchValue, prescale, matchPrescale := Pair(0, 0), Pair(0, 0), Pair(0, 0), Pair(0, 0), Pair(0, 0);
      deadline, armed := [0, 0], [false, false];
      irq := false;
    }

    /** Drives the interrupt line from the masked status. */
    method UpdateIrq()
      requires Armable()
      modifies this`irq
      ensures Valid() && Regs() == old(Regs())
    {
      irq := Pending(state, mask);
    }

    method StopTimer(n: nat)
      requires Armable() && n < 2
      modifies this`armed
      ensures Armable() && Timers() == Stop(old(Timers()), n)
    {
      armed := armed[n := false];
    }

    /**
     * Arms channel n at its reload deadline, counted from now when reset is
     * set and from the channel's previous deadline otherwise.
     */
    method Reload(n: nat, reset: bool, now: int, scale: int) returns (out: Outcome)
      requires Armable() && n < 2
      modifies this`deadline, this`armed
      ensures Armable()
      ensures var base := if reset then now else old(deadline[n]);
        var res := Rearm(Regs(), old(Timers()), n, base, scale);
        (out.Abort? <==> res.Err?) && (out.Abort? ==> out.reason == res.reason && Timers() == old(Timers())) &&
        (out.Done? ==> Timers() == res.value)
    {
      var base := if reset then now else deadline[n];
      var d := ReloadDeadline(Regs(), n, base, scale);
      if d.Err? {
        return Abort(d.reason);
      }
      deadline := deadline[n := d.value];
      armed := armed[n := true];
      out := Done;
    }

    /** Register read: pure, the timers are not consulted. */
    function Read(offset: int): (res: Result<Word>)
      reads this
      requires Valid()
      ensures res == ReadRegister(Regs(), offset)
      ensures offset == Mis ==> (res.value != 0 <==> irq)
    {
      ReadRegister(Regs(), offset)
    }

    method SetRegisters(r: Registers)
      modifies this`config, this`mode, this`control, this`state, this`mask, this`load,
               this`matchValue, this`prescale, this`matchPrescale, this`rtc
      ensures Regs() == r
    {
      config, mode, control, state, mask := r.config, r.mode, r.control, r.state, r.mask;
      load, matchValue, prescale, matchPrescale, rtc := r.load, r.matchValue, r.prescale, r.matchPrescale, r.rtc;
    }

    /**
     * Register write. The registers and timers become what WriteRegister
     * says, and the interrupt line follows the masked status. After an
     * unsupported access the emulator stops, so nothing is promised about
     * the state then.
     */
    method Write(offset: int, value: Word, now: int, scale: int) returns (out: Outcome)
      requires Valid()
      modifies this
      ensures var res := WriteRegister(old(Regs()), old(Timers()), offset, value, now, scale);
        (out.Abort? <==> res.Err?) && (out.Abort? ==> out.reason == res.reason) &&
        (out.Done? ==> Valid() && Regs() == res.value.regs && Timers() == res.value.schedule)
    {
      var oldval := control;
      var stored := StoreRegister(Regs(), offset, value);
      if stored.Err? {
        return Abort(stored.reason);
      }
      SetRegisters(stored.value);
      if offset == Ctl {
        out := ControlTimers(oldval, now, scale);
        if out.Abort? {
          return;
        }
      }
      UpdateIrq();
      out := Done;
    }

    /** Channel n's timer follows its enable bit of the control register. */
    method Edge(n: nat, oldval: Word, now: int, scale: int) returns (out: Outcome)
      requires Armable() && n < 2
      modifies this`deadline, this`armed
      ensures Armable()
      ensures var res := ChannelEdge(Regs(), old(Timers()), n, oldval, now, scale);
        (out.Abort? <==> res.Err?) && (out.Abort? ==> out.reason == res.reason) &&
        (out.Done? ==> Timers() == res.value)
    {
      out := Done;
      if Toggled(oldval, control, EnableBit(n)) {
        if control & EnableBit(n) != 0 {
          out := Reload(n, true, now, scale);
        } else {
          StopTimer(n);
        }
      }
    }

    /**
     * The timers after the control register changed from oldval: a rising
     * enable bit arms its channel from now, a falling one stops it; channel B
     * only from configuration 4 up.
     */
    method ControlTimers(oldval: Word, now: int, scale: int) returns (out: Outcome)
      requires Armable()
      modifies this`deadline, this`armed
      ensures Armable() && Regs() == old(Regs())
      ensures var res := ControlSchedule(Regs(), old(Timers()), oldval, now, scale);
        (out.Abort? <==> res.Err?) && (out.Abort? ==> out.reason == res.reason) &&
        (out.Done? ==> Timers() == res.value)
    {
      out := Edge(0, oldval, now, scale);
      if out.Done? && config >= 4 {
        out := Edge(1, oldval, now, scale);
      }
    }

    /**
     * Channel n's timer fires. Returns whether the ADC trigger was pulsed.
     * The registers and timers become what TickEffect says and the
     * interrupt line follows the masked status.
     */
    method Tick(n: nat, scale: int) returns (pulse: bool, out: Outcome)
      requires Valid() && n < 2 && armed[n]
      modifies this
      ensures var res := TickEffect(old(Regs()), old(Timers()), n, scale);
        (out.Abort? <==> res.Err?) && (out.Abort? ==> out.reason == res.reason) &&
        (out.Done? ==> Valid() && Regs() == res.value.regs && Timers() == res.value.schedule && pulse == res.value.pulse)
    {
      var fired := Fire(Regs(), n);
      if fired.Err? {
        return false, Abort(fired.reason);
      }
      ghost var before := Timers();
      pulse := Pulses(Regs());
      var rearm := Rearms(Regs());
      SetRegisters(fired.value);
      Expire(n, rearm, scale);
      assert Timers() == AfterTimeout(fired.value, before, n, rearm, scale);
      UpdateIrq();
      out := Done;
    }

    /** Channel n's timer has expired; channel A is reloaded from its previous deadline when rearm is set. */
    method Expire(n: nat, rearm: bool, scale: int)
      requires Armable() && n < 2
      requires rearm ==> config == CountdownConfig || config == RtcConfig
      modifies this`deadline, this`armed
      ensures Armable() && Regs() == old(Regs())
      ensures Timers() == AfterTimeout(Regs(), old(Timers()), n, rearm, scale)
    {
      StopTimer(n);
      if rearm {
        var out := Reload(0, false, 0, scale);
      }
    }
  }
}
