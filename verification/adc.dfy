/**
 * The ADC controller: four sample sequencers, each with a sixteen-slot FIFO,
 * a raw interrupt status with its mask and four interrupt lines, overflow
 * and underflow status, and a noise generator that stands in for the
 * analogue inputs. A trigger (the timer's ADC output) makes every enabled
 * sequencer whose trigger selector says "timer" store one sample.
 *
 * Each sequencer's FIFO is held as its decoded state and its sixteen data
 * slots. The FIFO write and read compute on the packed state word as the
 * source does, and StatusWordFollowsBitOperations shows that the status
 * register reads exactly the word the source would hold.
 */
module Adc {
  import opened Words
  import opened AdcFifo


  // Register offsets of the controller.
  const Actss := 0x00
  const Ris := 0x04
  const Im := 0x08
  const Isc := 0x0c
  const Ostat := 0x10
  const Emux := 0x14
  const Ustat := 0x18
  const Sspri := 0x20
  const Pssi := 0x28
  const Sac := 0x30

  // Sequencer n has a 32-byte block at 0x40 + 0x20 * n with these registers.
  const SequencerBase := 0x40
  const SequencerEnd := 0xc0
  const Ssmux := 0x00
  const Ssctl := 0x04
  const Ssfifo := 0x08
  const Ssfstat := 0x0c

  /** The trigger selector value that means "timer". */
  const TimerTrigger: Word := 5
  /** The only sequence control the model of the hardware supports. */
  const SupportedSequence: Word := 6
  const MuxBits: Word := 0x33333333
  const ActiveBits: Word := 0xf

  // ---------------------------------------------------------------------------
  // Per-sequencer bits of the status registers.

  /** The mask `1 << n` of sequencer n. */
  function SeqBit(n: nat): Word
    requires n < 4
  {
    if n == 0 then 1 else if n == 1 then 2 else if n == 2 then 4 else 8
  }

  /** A register's 32-bit image, with the per-sequencer bits of the status registers. */
  datatype Reg = Reg(bits: Word) {
    /** Sequencer n's bit, `bits & (1 << n)`, is set. */
    predicate Has(n: nat)
      requires n < 4
    {
      if n == 0 then bits & 1 != 0 else if n == 1 then bits & 2 != 0
      else if n == 2 then bits & 4 != 0 else bits & 8 != 0
    }

    /** The register with sequencer n's bit set, `bits | (1 << n)`. */
    function Set(n: nat): Reg
      requires n < 4
    {
      if n == 0 then Reg(bits | 1) else if n == 1 then Reg(bits | 2)
      else if n == 2 then Reg(bits | 4) else Reg(bits | 8)
    }
  }

  /** Setting sequencer n's bit sets that bit and keeps the other three. */
  lemma SetBitOnly(w: Reg, n: nat, m: nat)
    requires n < 4 && m < 4
    ensures w.Set(n).Has(m) <==> w.Has(m) || m == n
  {
    if n == 0 {
      SetBit0(w, m);
    } else if n == 1 {
      SetBit1(w, m);
    } else if n == 2 {
      SetBit2(w, m);
    } else {
      SetBit3(w, m);
    }
  }

  lemma SetBit0(w: Reg, m: nat)
    requires m < 4
    ensures w.Set(0).Has(m) <==> w.Has(m) || m == 0
  {
  }

  lemma SetBit1(w: Reg, m: nat)
    requires m < 4
    ensures w.Set(1).Has(m) <==> w.Has(m) || m == 1
  {
  }

  lemma SetBit2(w: Reg, m: nat)
    requires m < 4
    ensures w.Set(2).Has(m) <==> w.Has(m) || m == 2
  {
  }

  lemma SetBit3(w: Reg, m: nat)
    requires m < 4
    ensures w.Set(3).Has(m) <==> w.Has(m) || m == 3
  {
  }

  /** The level of sequencer n's interrupt line. */
  predicate Line(ris: Reg, im: Reg, n: nat)
    requires n < 4
  {
    Reg(Masked(ris.bits, im.bits)).Has(n)
  }

  function Levels(ris: Reg, im: Reg): (l: seq<bool>)
    ensures |l| == 4
    ensures forall n :: 0 <= n < 4 ==> (l[n] <==> Line(ris, im, n))
  {
    [Line(ris, im, 0), Line(ris, im, 1), Line(ris, im, 2), Line(ris, im, 3)]
  }

  /** The trigger selector of sequencer n: eight bits from bit 4n of EMUX. */
  function EmuxField(emux: Word, n: nat): Word
    requires n < 4
  {
    if n == 0 then emux & 0xff
    else if n == 1 then (emux >> 4) & 0xff
    else if n == 2 then (emux >> 8) & 0xff
    else (emux >> 12) & 0xff
  }

  function KeepMux(value: Word): Word {
    value & MuxBits
  }

  function KeepActive(value: Word): Word {
    value & ActiveBits
  }

  // ---------------------------------------------------------------------------
  // The controller's registers.

  datatype Registers = Registers(
    actss: Reg, ris: Reg, im: Reg, emux: Reg, ostat: Reg, ustat: Reg,
    sspri: Reg, sac: Reg,
    fifo: seq<Fifo>, ssmux: seq<Reg>, ssctl: seq<Reg>,
    noise: Uint32)

  /** Four sequencers, each with a FIFO of sixteen slots, a mux and a control word. */
  predicate Shaped(r: Registers) {
    |r.fifo| == 4 && (forall n :: 0 <= n < 4 ==> WellFormed(r.fifo[n])) &&
    |r.ssmux| == 4 && |r.ssctl| == 4
  }

  /** The value of sequencer n's FIFO status register: the packed state word. */
  function StatusWord(r: Registers, n: nat): Word
    requires Shaped(r) && n < 4
  {
    Encode(r.fifo[n].status)
  }

  /** The registers a device starts from: all zero, state words included. */
  const Zero := Reg(0)
  const ZeroFifo := Fifo(Decode(0), seq(Depth, _ => 0))
  const PowerOn := Registers(Zero, Zero, Zero, Zero, Zero, Zero, Zero, Zero,
    [ZeroFifo, ZeroFifo, ZeroFifo, ZeroFifo], [Zero, Zero, Zero, Zero], [Zero, Zero, Zero, Zero], 0)

  // ---------------------------------------------------------------------------
  // FIFO writes and reads.

  /**
   * Stores a sample in sequencer n's FIFO. When FULL is set the sample is
   * dropped and the sequencer's overflow bit is set instead.
   */
  function StoreSample(r: Registers, n: nat, value: Word): (w: Registers)
    requires Shaped(r) && n < 4
    ensures Shaped(w)
  {
    var p := Push(r.fifo[n], value);
    if p.overflow then r.(ostat := r.ostat.Set(n)) else r.(fifo := r.fifo[n := p.fifo])
  }

  datatype Access = Access(regs: Registers, value: Word)

  /**
   * Takes the sample at the tail of sequencer n's FIFO. When EMPTY is set
   * the underflow bit is set instead, and the slot at the tail is still
   * returned.
   */
  function TakeSample(r: Registers, n: nat): (a: Access)
    requires Shaped(r) && n < 4
    ensures Shaped(a.regs)
  {
    var p := Pop(r.fifo[n]);
    Access(if p.underflow then r.(ustat := r.ustat.Set(n)) else r.(fifo := r.fifo[n := p.fifo]), p.value)
  }

  /**
   * A FIFO write appends the sample to the queue of a consistent FIFO that
   * is not full. On a full FIFO it changes no FIFO and sets exactly the
   * sequencer's overflow bit. No other sequencer and no other register
   * changes.
   */
  lemma StoreSampleAppends(r: Registers, n: nat, value: Word)
    requires Shaped(r) && n < 4
    ensures var w := StoreSample(r, n, value);
      (Consistent(r.fifo[n].status) && !r.fifo[n].status.full ==>
        Consistent(w.fifo[n].status) && Queue(w.fifo[n]) == Queue(r.fifo[n]) + [value]) &&
      (r.fifo[n].status.full ==> w.fifo == r.fifo) &&
      (forall m :: 0 <= m < 4 && m != n ==> w.fifo[m] == r.fifo[m]) &&
      (forall m :: 0 <= m < 4 ==> (w.ostat.Has(m) <==> r.ostat.Has(m) || (m == n && r.fifo[n].status.full))) &&
      w.(fifo := r.fifo, ostat := r.ostat) == r
  {
    if Consistent(r.fifo[n].status) && !r.fifo[n].status.full {
      PushAppends(r.fifo[n], value);
    }
    forall m | 0 <= m < 4
      ensures r.ostat.Set(n).Has(m) <==> r.ostat.Has(m) || m == n
    {
      SetBitOnly(r.ostat, n, m);
    }
  }

  /**
   * A FIFO read returns the slot at the tail: the oldest sample of a
   * consistent FIFO that is not empty. On an empty FIFO it changes no FIFO
   * and sets exactly the sequencer's underflow bit. No other sequencer and
   * no other register changes, and no data slot is written.
   */
  lemma TakeSampleTakesOldest(r: Registers, n: nat)
    requires Shaped(r) && n < 4
    ensures var a := TakeSample(r, n);
      a.value == r.fifo[n].data[r.fifo[n].status.tail] &&
      (Consistent(r.fifo[n].status) && !r.fifo[n].status.empty ==> a.value == Queue(r.fifo[n])[0]) &&
      a.regs.fifo[n].data == r.fifo[n].data &&
      (r.fifo[n].status.empty ==> a.regs.fifo == r.fifo) &&
      (forall m :: 0 <= m < 4 && m != n ==> a.regs.fifo[m] == r.fifo[m]) &&
      (forall m :: 0 <= m < 4 ==> (a.regs.ustat.Has(m) <==> r.ustat.Has(m) || (m == n && r.fifo[n].status.empty))) &&
      a.regs.(fifo := r.fifo, ustat := r.ustat) == r
  {
    if Consistent(r.fifo[n].status) && !r.fifo[n].status.empty {
      PopTakesOldest(r.fifo[n]);
    }
    forall m | 0 <= m < 4
      ensures r.ustat.Set(n).Has(m) <==> r.ustat.Has(m) || m == n
    {
      SetBitOnly(r.ustat, n, m);
    }
  }

  /**
   * The status register reads what the source's packed state word holds:
   * a stored sample applies the write's bit operations to it, and a taken
   * sample the read's, unless the FIFO was full or empty respectively.
   */
  lemma StatusWordFollowsBitOperations(r: Registers, n: nat, value: Word)
    requires Shaped(r) && n < 4
    ensures StatusWord(StoreSample(r, n, value), n) ==
      if StatusWord(r, n) & Full != 0 then StatusWord(r, n) else WriteStateBits(StatusWord(r, n))
    ensures StatusWord(TakeSample(r, n).regs, n) ==
      if StatusWord(r, n) & Empty != 0 then StatusWord(r, n) else ReadStateBits(StatusWord(r, n))
  {
    EncodeDecodes(r.fifo[n].status);
    WriteStateEncodes(r.fifo[n].status);
    ReadStateEncodes(r.fifo[n].status);
  }

  // ---------------------------------------------------------------------------
  // The trigger.

  /**
   * One step of the noise generator, with 32-bit wrap-around. The multiplier
   * is odd, so the low bit of the noise alternates from step to step.
   */
  function NextNoise(noise: Uint32): (next: Uint32)
    ensures next % 2 != noise % 2
  {
    (noise * 314159 + 1) % 0x1_0000_0000
  }

  /** The generator wraps modulo 2^32: one step from 0xffffffff. */
  lemma NoiseWrapsExample()
    ensures NextNoise(0) == 1 && NextNoise(0xffff_ffff) == 0xfffb_34d2
  {
  }

  /** The generator stepped c times. */
  function Advance(noise: Uint32, c: nat): Uint32 {
    if c == 0 then noise else NextNoise(Advance(noise, c - 1))
  }

  /** The eight sample values, 0x200 + k for k in 0..7. */
  const SampleValues: seq<Word> := [0x200, 0x201, 0x202, 0x203, 0x204, 0x205, 0x206, 0x207]

  /** The sample made from the noise: 0x200 plus bits 16-18 of the noise. */
  function Sample(noise: Uint32): (v: Word)
    ensures 0x200 <= v <= 0x207
  {
    SampleValues[(noise / 0x1_0000) % 8]
  }

  /** Sequencer n takes part in a trigger: it is active and its selector is "timer". */
  predicate Selected(r: Registers, n: nat)
    requires n < 4
  {
    r.actss.Has(n) && EmuxField(r.emux.bits, n) == TimerTrigger
  }

  /**
   * Selection is the source's test: bit n of ACTSS is set, and the eight
   * bits of EMUX from bit 4n equal 5.
   */
  lemma SelectedIsSourceTest(r: Registers, n: nat)
    requires n < 4
    ensures Selected(r, n) <==> r.actss.bits & SeqBit(n) != 0 && (r.emux.bits >> (4 * n)) & 0xff == 5
  {
  }

  /**
   * Sequencer n's turn in a trigger: when selected, the noise steps, the
   * sample made from it is stored, and the raw interrupt bit is set.
   */
  function Serve(r: Registers, n: nat): (s: Registers)
    requires Shaped(r) && n < 4
    ensures Shaped(s)
  {
    if !Selected(r, n) then r
    else
      var noise := NextNoise(r.noise);
      var w := StoreSample(r.(noise := noise), n, Sample(noise));
      w.(ris := w.ris.Set(n))
  }

  /** The registers after sequencers 0 to k - 1 have had their turn. */
  function TriggerUpTo(r: Registers, k: nat): (s: Registers)
    requires Shaped(r) && k <= 4
    ensures Shaped(s)
  {
    if k == 0 then r else Serve(TriggerUpTo(r, k - 1), k - 1)
  }

  /** How many of sequencers 0 to k - 1 are selected. */
  function Served(r: Registers, k: nat): (c: nat)
    requires k <= 4
    ensures c <= k
  {
    if k == 0 then 0 else Served(r, k - 1) + (if Selected(r, k - 1) then 1 else 0)
  }

  /** The configuration a trigger reads is not changed by a sequencer's turn. */
  lemma ServeKeepsConfiguration(r: Registers, n: nat)
    requires Shaped(r) && n < 4
    ensures var s := Serve(r, n);
      s.actss == r.actss && s.emux == r.emux && s.im == r.im && s.ustat == r.ustat &&
      s.sspri == r.sspri && s.sac == r.sac && s.ssmux == r.ssmux && s.ssctl == r.ssctl
  {
  }

  /** A selected sequencer's turn steps the noise once. */
  lemma ServeNoise(r: Registers, n: nat)
    requires Shaped(r) && n < 4
    ensures Serve(r, n).noise == if Selected(r, n) then NextNoise(r.noise) else r.noise
  {
  }

  /** A selected sequencer's turn pushes one sample made from the stepped noise, on its own FIFO only. */
  lemma ServeFifo(r: Registers, n: nat, m: nat)
    requires Shaped(r) && n < 4 && m < 4
    ensures Serve(r, n).fifo[m] ==
      if m == n && Selected(r, n) then Push(r.fifo[n], Sample(NextNoise(r.noise))).fifo else r.fifo[m]
  {
  }

  /** A selected sequencer's turn sets its own raw interrupt bit and no other. */
  lemma ServeRaw(r: Registers, n: nat, m: nat)
    requires Shaped(r) && n < 4 && m < 4
    ensures Serve(r, n).ris.Has(m) <==> r.ris.Has(m) || (m == n && Selected(r, n))
  {
    if Selected(r, n) {
      var noise := NextNoise(r.noise);
      SetBitOnly(StoreSample(r.(noise := noise), n, Sample(noise)).ris, n, m);
    }
  }

  /** A selected sequencer's turn sets its own overflow bit when its FIFO is full, and no other. */
  lemma ServeOverflow(r: Registers, n: nat, m: nat)
    requires Shaped(r) && n < 4 && m < 4
    ensures Serve(r, n).ostat.Has(m) <==> r.ostat.Has(m) || (m == n && Selected(r, n) && r.fifo[n].status.full)
  {
    if Selected(r, n) {
      var noise := NextNoise(r.noise);
      StoreSampleAppends(r.(noise := noise), n, Sample(noise));
    }
  }

  lemma {:induction false} TriggerKeepsConfiguration(r: Registers, k: nat)
    requires Shaped(r) && k <= 4
    ensures var s := TriggerUpTo(r, k);
      s.actss == r.actss && s.emux == r.emux && s.im == r.im && s.ustat == r.ustat &&
      s.sspri == r.sspri && s.sac == r.sac && s.ssmux == r.ssmux && s.ssctl == r.ssctl
  {
    if k > 0 {
      TriggerKeepsConfiguration(r, k - 1);
      ServeKeepsConfiguration(TriggerUpTo(r, k - 1), k - 1);
    }
  }

  /** Which sequencers are selected does not change during a trigger. */
  lemma SelectionKept(r: Registers, k: nat, n: nat)
    requires Shaped(r) && k <= 4 && n < 4
    ensures Selected(TriggerUpTo(r, k), n) == Selected(r, n)
  {
    TriggerKeepsConfiguration(r, k);
  }

  /** The noise has stepped once for every selected sequencer served so far. */
  lemma {:induction false} TriggerNoise(r: Registers, k: nat)
    requires Shaped(r) && k <= 4
    ensures TriggerUpTo(r, k).noise == Advance(r.noise, Served(r, k))
  {
    if k > 0 {
      TriggerNoise(r, k - 1);
      SelectionKept(r, k - 1, k - 1);
      ServeNoise(TriggerUpTo(r, k - 1), k - 1);
    }
  }

  /** A sequencer's FIFO is untouched until its turn has come. */
  lemma {:induction false} TriggerFifoUntouched(r: Registers, k: nat, n: nat)
    requires Shaped(r) && k <= n < 4
    ensures TriggerUpTo(r, k).fifo[n] == r.fifo[n]
  {
    if k > 0 {
      TriggerFifoUntouched(r, k - 1, n);
      ServeFifo(TriggerUpTo(r, k - 1), k - 1, n);
    }
  }

  /**
   * After sequencers 0 to k - 1 have had their turn, sequencer n's FIFO has
   * received one sample when it is among them and selected, made from the
   * noise stepped once per selected sequencer up to and including n, and
   * is untouched otherwise.
   */
  lemma {:induction false} TriggerFifo(r: Registers, k: nat, n: nat)
    requires Shaped(r) && k <= 4 && n < 4
    ensures TriggerUpTo(r, k).fifo[n] ==
      if n < k && Selected(r, n) then Push(r.fifo[n], Sample(Advance(r.noise, Served(r, n + 1)))).fifo
      else r.fifo[n]
  {
    if n >= k {
      TriggerFifoUntouched(r, k, n);
    } else {
      var t := TriggerUpTo(r, k - 1);
      if n == k - 1 {
        TriggerFifoUntouched(r, k - 1, n);
        TriggerNoise(r, k - 1);
        SelectionKept(r, k - 1, n);
        ServeFifo(t, n, n);
      } else {
        TriggerFifo(r, k - 1, n);
        ServeFifo(t, k - 1, n);
      }
    }
  }

  /** Sequencer n's raw interrupt bit is set once its selected turn has come. */
  lemma {:induction false} TriggerRaisesInterrupt(r: Registers, k: nat, n: nat)
    requires Shaped(r) && k <= 4 && n < 4
    ensures TriggerUpTo(r, k).ris.Has(n) <==> r.ris.Has(n) || (n < k && Selected(r, n))
  {
    if k > 0 {
      TriggerRaisesInterrupt(r, k - 1, n);
      SelectionKept(r, k - 1, k - 1);
      ServeRaw(TriggerUpTo(r, k - 1), k - 1, n);
    }
  }

  /** Sequencer n's overflow bit is set once its selected turn has come with its FIFO full. */
  lemma {:induction false} TriggerOverflow(r: Registers, k: nat, n: nat)
    requires Shaped(r) && k <= 4 && n < 4
    ensures TriggerUpTo(r, k).ostat.Has(n) <==>
      r.ostat.Has(n) || (n < k && Selected(r, n) && r.fifo[n].status.full)
  {
    if k > 0 {
      TriggerOverflow(r, k - 1, n);
      SelectionKept(r, k - 1, k - 1);
      if n == k - 1 {
        TriggerFifoUntouched(r, k - 1, n);
      }
      ServeOverflow(TriggerUpTo(r, k - 1), k - 1, n);
    }
  }

  /** The whole trigger, as the source runs it: the four sequencers in order. */
  function AfterTrigger(r: Registers): (s: Registers)
    requires Shaped(r)
    ensures Shaped(s)
  {
    TriggerUpTo(r, 4)
  }

  /**
   * A trigger stores one sample, in 0x200..0x207, in exactly the
   * sequencers that are active and whose eight-bit selector reads 5; their
   * raw interrupt bits are set, the overflow bit is set where the FIFO was
   * full, and the noise steps once per served sequencer. Everything the
   * trigger reads is left as it was.
   */
  lemma TriggerServesSelected(r: Registers, n: nat)
    requires Shaped(r) && n < 4
    ensures var s := AfterTrigger(r);
      s.fifo[n] == (if Selected(r, n) then Push(r.fifo[n], Sample(Advance(r.noise, Served(r, n + 1)))).fifo else r.fifo[n]) &&
      (s.ris.Has(n) <==> r.ris.Has(n) || Selected(r, n)) &&
      (s.ostat.Has(n) <==> r.ostat.Has(n) || (Selected(r, n) && r.fifo[n].status.full))
    ensures var s := AfterTrigger(r);
      s.noise == Advance(r.noise, Served(r, 4)) &&
      s.actss == r.actss && s.emux == r.emux && s.im == r.im && s.ustat == r.ustat &&
      s.sspri == r.sspri && s.sac == r.sac && s.ssmux == r.ssmux && s.ssctl == r.ssctl
  {
    TriggerFifo(r, 4, n);
    TriggerRaisesInterrupt(r, 4, n);
    TriggerOverflow(r, 4, n);
    TriggerNoise(r, 4);
    TriggerKeepsConfiguration(r, 4);
  }

  /**
   * A selected sequencer whose FIFO is consistent and not full gets the
   * trigger's sample at the end of its queue, in 0x200..0x207.
   */
  lemma TriggerAppendsSample(r: Registers, n: nat)
    requires Shaped(r) && n < 4 && Selected(r, n)
    requires Consistent(r.fifo[n].status) && !r.fifo[n].status.full
    ensures var v := Sample(Advance(r.noise, Served(r, n + 1)));
      0x200 <= v <= 0x207 && Queue(AfterTrigger(r).fifo[n]) == Queue(r.fifo[n]) + [v]
  {
    TriggerFifo(r, 4, n);
    PushAppends(r.fifo[n], Sample(Advance(r.noise, Served(r, n + 1))));
  }

  /**
   * The selector field is eight bits wide although the fields are four
   * bits apart: with every sequencer active and every selector set to
   * "timer", only sequencer 3 is served.
   */
  lemma WideSelectorExample(r: Registers)
    requires r.actss.bits == 0xf && r.emux.bits == 0x5555
    ensures !Selected(r, 0) && !Selected(r, 1) && !Selected(r, 2) && Selected(r, 3)
  {
  }

  // ---------------------------------------------------------------------------
  // Reset and register access.

  /** A FIFO whose state word has been set to the reset value; its slots are kept. */
  function Emptied(f: Fifo): Fifo {
    f.(status := Decode(ResetState))
  }

  /** Reset clears every sequencer's mux and control and empties its FIFO; the rest is kept. */
  function ResetEffect(r: Registers): (s: Registers)
    requires Shaped(r)
    ensures Shaped(s)
  {
    r.(ssmux := [Zero, Zero, Zero, Zero], ssctl := [Zero, Zero, Zero, Zero],
       fifo := [Emptied(r.fifo[0]), Emptied(r.fifo[1]), Emptied(r.fifo[2]), Emptied(r.fifo[3])])
  }

  /**
   * After reset every FIFO is consistent and empty, with head and tail at
   * slot 0 and the reset value in its status register; its samples are
   * kept, and so is every controller register.
   */
  lemma ResetEmptiesFifos(r: Registers, n: nat)
    requires Shaped(r) && n < 4
    ensures var s := ResetEffect(r);
      s.fifo[n].status == ResetStatus && Consistent(s.fifo[n].status) && Queue(s.fifo[n]) == [] &&
      StatusWord(s, n) == ResetState && s.fifo[n].data == r.fifo[n].data &&
      s.ssmux[n] == Zero && s.ssctl[n] == Zero &&
      s.(ssmux := r.ssmux, ssctl := r.ssctl, fifo := r.fifo) == r
  {
    ResetDecodes();
    ResetEncodes();
    ResetFifoIsEmpty(r.fifo[n].data);
  }

  /** Offset `offset` is register `sub` of one of the four sequencer blocks. */
  predicate SequencerAccess(offset: int, sub: int) {
    0x40 <= offset < 0xc0 && offset % 0x20 == sub
  }

  /** The sequencer whose block holds `offset`. */
  function SequencerOf(offset: int): (n: nat)
    requires SequencerBase <= offset < SequencerEnd
    ensures n < 4
  {
    (offset - 0x40) / 0x20
  }

  /** Offset `offset` is one of the four registers of a sequencer block. */
  predicate SequencerRead(offset: int) {
    SequencerAccess(offset, Ssmux) || SequencerAccess(offset, Ssctl) ||
    SequencerAccess(offset, Ssfifo) || SequencerAccess(offset, Ssfstat)
  }

  /**
   * Register read. Only a read of a sequencer's FIFO register changes
   * anything: it takes a sample. In the sequencer blocks, offsets other
   * than the four sequencer registers fall through to the controller
   * registers and are faults there.
   */
  function ReadRegister(r: Registers, offset: int): (res: Result<Access>)
    requires Shaped(r)
    ensures res.Ok? ==> Shaped(res.value.regs)
    ensures SequencerRead(offset) ==> res.Ok?
    ensures res.Err? ==> res.reason == BadOffset(offset)
  {
    if SequencerRead(offset) then Ok(ReadSequencerRegister(r, offset))
    else
      match ReadControllerRegister(r, offset)
      case Ok(value) => Ok(Access(r, value))
      case Err(reason) => Err(reason)
  }

  function ReadSequencerRegister(r: Registers, offset: int): (a: Access)
    requires Shaped(r) && SequencerRead(offset)
    ensures Shaped(a.regs)
  {
    var n := SequencerOf(offset);
    if offset % 0x20 == Ssmux then Access(r, r.ssmux[n].bits)
    else if offset % 0x20 == Ssctl then Access(r, r.ssctl[n].bits)
    else if offset % 0x20 == Ssfifo then TakeSample(r, n)
    else Access(r, StatusWord(r, n))
  }

  /** A controller register read: the register, the masked status for ISC, or a fault. */
  function ReadControllerRegister(r: Registers, offset: int): (res: Result<Word>)
    ensures res.Err? <==> !(offset in {Actss, Ris, Im, Isc, Ostat, Emux, Ustat, Sspri, Sac})
    ensures res.Err? ==> res.reason == BadOffset(offset)
    ensures offset == Isc ==> res == Ok(r.ris.bits & r.im.bits)
  {
    if offset == Actss then Ok(r.actss.bits)
    else if offset == Ris then Ok(r.ris.bits)
    else if offset == Im then Ok(r.im.bits)
    else if offset == Isc then Ok(Masked(r.ris.bits, r.im.bits))
    else if offset == Ostat then Ok(r.ostat.bits)
    else if offset == Emux then Ok(r.emux.bits)
    else if offset == Ustat then Ok(r.ustat.bits)
    else if offset == Sspri then Ok(r.sspri.bits)
    else if offset == Sac then Ok(r.sac.bits)
    else Err(BadOffset(offset))
  }

  /**
   * Register write. A sequence control other than the supported one and a
   * processor sample initiate are faults, as is any offset not decoded. In
   * the sequencer blocks only the mux and control registers are written;
   * other offsets there fall through to the controller registers.
   */
  function WriteRegister(r: Registers, offset: int, value: Word): (res: Result<Registers>)
    requires Shaped(r)
    ensures res.Ok? ==> Shaped(res.value)
  {
    if SequencerAccess(offset, Ssmux) || SequencerAccess(offset, Ssctl) then WriteSequencerRegister(r, offset, value)
    else WriteControllerRegister(r, offset, value)
  }

  function WriteSequencerRegister(r: Registers, offset: int, value: Word): (res: Result<Registers>)
    requires Shaped(r) && (SequencerAccess(offset, Ssmux) || SequencerAccess(offset, Ssctl))
    ensures res.Ok? ==> Shaped(res.value)
  {
    if offset % 0x20 == Ssmux then Ok(r.(ssmux := r.ssmux[SequencerOf(offset) := Reg(KeepMux(value))]))
    else if value != SupportedSequence then Err(SequenceUnsupported(value))
    else Ok(r.(ssctl := r.ssctl[SequencerOf(offset) := Reg(value)]))
  }

  /** A controller register write changes no sequencer register, no FIFO and not the noise. */
  function WriteControllerRegister(r: Registers, offset: int, value: Word): (res: Result<Registers>)
    requires Shaped(r)
    ensures res.Ok? ==> Shaped(res.value)
    ensures res.Ok? ==>
      res.value.fifo == r.fifo && res.value.ssmux == r.ssmux && res.value.ssctl == r.ssctl && res.value.noise == r.noise
  {
    if offset == Actss then Ok(r.(actss := Reg(KeepActive(value))))
    else if offset == Im then Ok(r.(im := Reg(value)))
    else if offset == Isc then Ok(r.(ris := Reg(Cleared(r.ris.bits, value))))
    else if offset == Ostat then Ok(r.(ostat := Reg(Cleared(r.ostat.bits, value))))
    else if offset == Emux then Ok(r.(emux := Reg(value)))
    else if offset == Ustat then Ok(r.(ustat := Reg(Cleared(r.ustat.bits, value))))
    else if offset == Sspri then Ok(r.(sspri := Reg(value)))
    else if offset == Pssi then Err(SampleInitiateUnsupported)
    else if offset == Sac then Ok(r.(sac := Reg(value)))
    else Err(BadOffset(offset))
  }

  /** The offsets a read decodes. */
  predicate Readable(offset: int) {
    offset in {Actss, Ris, Im, Isc, Ostat, Emux, Ustat, Sspri, Sac} ||
    (SequencerBase <= offset < SequencerEnd && offset % 0x20 in {Ssmux, Ssctl, Ssfifo, Ssfstat})
  }

  /** A read faults exactly at the offsets it does not decode. */
  lemma ReadFaults(r: Registers, offset: int)
    requires Shaped(r)
    ensures ReadRegister(r, offset).Err? <==> !Readable(offset)
    ensures ReadRegister(r, offset).Err? ==> ReadRegister(r, offset).reason == BadOffset(offset)
  {
  }

  /**
   * A write faults at the offsets it does not decode (among them the raw
   * status and the FIFO registers), at the sample initiate register, and
   * at a sequence control other than 6.
   */
  lemma WriteFaults(r: Registers, offset: int, value: Word)
    requires Shaped(r)
    ensures var res := WriteRegister(r, offset, value);
      (res.Err? <==> !(offset in {Actss, Im, Isc, Ostat, Emux, Ustat, Sspri, Sac} ||
                       SequencerAccess(offset, Ssmux) ||
                       (SequencerAccess(offset, Ssctl) && value == SupportedSequence))) &&
      (offset == Pssi ==> res == Err(SampleInitiateUnsupported)) &&
      (SequencerAccess(offset, Ssctl) && value != SupportedSequence ==> res == Err(SequenceUnsupported(value)))
  {
  }

  /**
   * Only a read of a FIFO register changes state, and that read is a Pop of
   * the sequencer's FIFO.
   */
  lemma ReadPopsOnlyFifo(r: Registers, offset: int)
    requires Shaped(r)
    ensures var res := ReadRegister(r, offset);
      res.Ok? && !SequencerAccess(offset, Ssfifo) ==> res.value.regs == r
    ensures SequencerAccess(offset, Ssfifo) ==>
      var res := ReadRegister(r, offset);
      var p := Pop(r.fifo[SequencerOf(offset)]);
      res.Ok? && res.value.value == p.value && res.value.regs.fifo[SequencerOf(offset)] == p.fifo
  {
  }

  /**
   * The sequencer mux keeps its two-bit fields and reads back; the supported
   * control reads back. Each write changes that sequencer's register and
   * nothing else.
   */
  lemma SequencerRegistersRoundTrip(r: Registers, offset: int, value: Word)
    requires Shaped(r) && SequencerBase <= offset < SequencerEnd
    ensures SequencerAccess(offset, Ssmux) ==>
      var w := WriteRegister(r, offset, value);
      w.Ok? && ReadRegister(w.value, offset) == Ok(Access(w.value, value & MuxBits)) &&
      value & MuxBits & !MuxBits == 0
    ensures SequencerAccess(offset, Ssctl) ==>
      var w := WriteRegister(r, offset, SupportedSequence);
      w.Ok? && ReadRegister(w.value, offset) == Ok(Access(w.value, SupportedSequence))
    ensures SequencerAccess(offset, Ssmux) ==>
      WriteRegister(r, offset, value) == Ok(r.(ssmux := r.ssmux[SequencerOf(offset) := Reg(value & MuxBits)]))
    ensures SequencerAccess(offset, Ssctl) ==>
      WriteRegister(r, offset, SupportedSequence) ==
        Ok(r.(ssctl := r.ssctl[SequencerOf(offset) := Reg(SupportedSequence)]))
  {
  }

  /**
   * Active sequencers keep the four enable bits written; the mask, the
   * selectors, the priorities and the sample averaging read back. Each write
   * changes its own register and nothing else.
   */
  lemma ControlRegistersRoundTrip(r: Registers, value: Word)
    requires Shaped(r)
    ensures var w := WriteRegister(r, Actss, value);
      w.Ok? && ReadRegister(w.value, Actss) == Ok(Access(w.value, value & 0xf)) &&
      w.value.actss.bits & !ActiveBits == 0
    ensures var w := WriteRegister(r, Im, value);
      w.Ok? && ReadRegister(w.value, Im) == Ok(Access(w.value, value))
    ensures var w := WriteRegister(r, Emux, value);
      w.Ok? && ReadRegister(w.value, Emux) == Ok(Access(w.value, value))
    ensures var w := WriteRegister(r, Sspri, value);
      w.Ok? && ReadRegister(w.value, Sspri) == Ok(Access(w.value, value))
    ensures var w := WriteRegister(r, Sac, value);
      w.Ok? && ReadRegister(w.value, Sac) == Ok(Access(w.value, value))
    ensures WriteRegister(r, Actss, value) == Ok(r.(actss := Reg(value & 0xf)))
    ensures WriteRegister(r, Im, value) == Ok(r.(im := Reg(value)))
    ensures WriteRegister(r, Emux, value) == Ok(r.(emux := Reg(value)))
    ensures WriteRegister(r, Sspri, value) == Ok(r.(sspri := Reg(value)))
    ensures WriteRegister(r, Sac, value) == Ok(r.(sac := Reg(value)))
  {
  }

  /** The interrupt clear register clears exactly the raw status bits written as 1. */
  lemma ClearAcknowledgesRaw(r: Registers, value: Word)
    requires Shaped(r)
    ensures var w := WriteRegister(r, Isc, value);
      w.Ok? && w.value.ris.bits & value == 0 && w.value.ris.bits & !value == r.ris.bits & !value &&
      w.value.(ris := r.ris) == r
  {
  }

  /** The overflow status register clears exactly the bits written as 1. */
  lemma ClearAcknowledgesOverflow(r: Registers, value: Word)
    requires Shaped(r)
    ensures var w := WriteRegister(r, Ostat, value);
      w.Ok? && w.value.ostat.bits & value == 0 && w.value.ostat.bits & !value == r.ostat.bits & !value &&
      w.value.(ostat := r.ostat) == r
  {
  }

  /** The underflow status register clears exactly the bits written as 1. */
  lemma ClearAcknowledgesUnderflow(r: Registers, value: Word)
    requires Shaped(r)
    ensures var w := WriteRegister(r, Ustat, value);
      w.Ok? && w.value.ustat.bits & value == 0 && w.value.ustat.bits & !value == r.ustat.bits & !value &&
      w.value.(ustat := r.ustat) == r
  {
  }

  /** Reading the interrupt status and clear register gives the raw status under the mask. */
  lemma MaskedStatusRead(r: Registers)
    requires Shaped(r)
    ensures ReadRegister(r, Isc) == Ok(Access(r, r.ris.bits & r.im.bits))
    ensures forall n :: 0 <= n < 4 ==> (Line(r.ris, r.im, n) <==> r.ris.bits & r.im.bits & SeqBit(n) != 0)
  {
  }

  // ---------------------------------------------------------------------------
  // The device.

  class AdcController {
    var actss: Reg
    var ris: Reg
    var im: Reg
    var emux: Reg
    var ostat: Reg
    var ustat: Reg
    var sspri: Reg
    var sac: Reg
    /** Each sequencer's FIFO: its decoded state word and its sixteen slots. */
    var fifo: seq<Fifo>
    var ssmux: seq<Reg>
    var ssctl: seq<Reg>
    var noise: Uint32
    /** Levels of the four interrupt lines. */
    var irq: seq<bool>

    function Regs(): Registers
      reads this`actss, this`ris, this`im, this`emux, this`ostat, this`ustat, this`sspri,
            this`sac, this`fifo, this`ssmux, this`ssctl, this`noise
    {
      Registers(actss, ris, im, emux, ostat, ustat, sspri, sac, fifo, ssmux, ssctl, noise)
    }

    /** Four sequencers and four interrupt lines. */
    predicate Shape()
      reads this`fifo, this`ssmux, this`ssctl, this`irq
    {
      |fifo| == 4 && (forall n :: 0 <= n < 4 ==> WellFormed(fifo[n])) &&
      |ssmux| == 4 && |ssctl| == 4 && |irq| == 4
    }

    /** Each interrupt line shows its sequencer's bit of the masked status. */
    predicate Valid()
      reads this`fifo, this`ssmux, this`ssctl, this`irq, this`ris, this`im
    {
      Shape() && irq == Levels(ris, im)
    }

    /** A device comes up with zeroed registers and is then reset. */
    constructor ()
      ensures Valid() && Regs() == ResetEffect(PowerOn)
      ensures forall n :: 0 <= n < 4 ==> !irq[n]
    {
      actss, ris, im, emux, ostat, ustat, sspri, sac := Zero, Zero, Zero, Zero, Zero, Zero, Zero, Zero;
      fifo := [ZeroFifo, ZeroFifo, ZeroFifo, ZeroFifo];
      ssmux, ssctl, noise := [Zero, Zero, Zero, Zero], [Zero, Zero, Zero, Zero], 0;
      irq := [false, false, false, false];
      new;
      Reset();
    }

    /** Drives each interrupt line from its bit of the masked status. */
    method Update()
      requires Shape()
      modifies this`irq
      ensures Valid() && Regs() == old(Regs())
    {
      for n := 0 to 4
        invariant Shape()
        invariant forall m :: 0 <= m < n ==> (irq[m] <==> Line(ris, im, m))
      {
        irq := irq[n := Line(ris, im, n)];
      }
    }

    /**
     * Stores a sample in sequencer n's FIFO, or records an overflow; the
     * flags and the head are computed on the packed state word.
     */
    method FifoWrite(n: nat, value: Word)
      requires Shape() && n < 4
      modifies this`fifo, this`ostat
      ensures Shape() && Regs() == StoreSample(old(Regs()), n, value)
    {
      var state := Encode(fifo[n].status);
      EncodeDecodes(fifo[n].status);
      var head := ((state >> 4) & 0xf) as nat;
      if state & Full != 0 {
        ostat := ostat.Set(n);
        return;
      }
      WriteStateImplementsAfterWrite(state);
      fifo := fifo[n := Fifo(Decode(WriteStateBits(state)), fifo[n].data[head := value])];
    }

    /**
     * Takes the sample at the tail of sequencer n's FIFO, or records an
     * underflow; the flags and the tail are computed on the packed state word.
     */
    method FifoRead(n: nat) returns (value: Word)
      requires Shape() && n < 4
      modifies this`fifo, this`ustat
      ensures Shape() && Access(Regs(), value) == TakeSample(old(Regs()), n)
    {
      var state := Encode(fifo[n].status);
      EncodeDecodes(fifo[n].status);
      var tail := (state & 0xf) as nat;
      value := fifo[n].data[tail];
      if state & Empty != 0 {
        ustat := ustat.Set(n);
      } else {
        ReadStateImplementsAfterRead(state);
        fifo := fifo[n := Fifo(Decode(ReadStateBits(state)), fifo[n].data)];
      }
    }

    /** A trigger: every selected sequencer in turn takes a sample of the noise. */
    method Trigger()
      requires Valid()
      modifies this
      ensures Valid() && Regs() == AfterTrigger(old(Regs()))
    {
      for n := 0 to 4
        invariant Valid()
        invariant Regs() == TriggerUpTo(old(Regs()), n)
      {
        ServeSequencer(n);
      }
    }

    /** Sequencer n's turn in a trigger. */
    method ServeSequencer(n: nat)
      requires Valid() && n < 4
      modifies this
      ensures Valid() && Regs() == Serve(old(Regs()), n)
    {
      if !actss.Has(n) {
        return;
      }
      if EmuxField(emux.bits, n) != TimerTrigger {
        return;
      }
      noise := NextNoise(noise);
      FifoWrite(n, Sample(noise));
      ris := ris.Set(n);
      Update();
    }

    /** Clears each sequencer's mux and control and empties its FIFO. */
    method Reset()
      requires Valid()
      modifies this`ssmux, this`ssctl, this`fifo
      ensures Valid() && Regs() == ResetEffect(old(Regs()))
    {
      for n := 0 to 4
        invariant Shape()
        invariant forall m :: 0 <= m < n ==> ssmux[m] == Zero && ssctl[m] == Zero && fifo[m] == Emptied(old(fifo)[m])
        invariant ssmux[n..] == old(ssmux)[n..] && ssctl[n..] == old(ssctl)[n..] && fifo[n..] == old(fifo)[n..]
      {
        ssmux := ssmux[n := Zero];
        ssctl := ssctl[n := Zero];
        fifo := fifo[n := Emptied(fifo[n])];
      }
    }

    /** Register read; a read of a FIFO register takes a sample. */
    method Read(offset: int) returns (out: Result<Word>)
      requires Valid()
      modifies this`fifo, this`ustat
      ensures Valid()
      ensures var res := ReadRegister(old(Regs()), offset);
        (out.Err? <==> res.Err?) && (out.Err? ==> out.reason == res.reason && Regs() == old(Regs())) &&
        (out.Ok? ==> out.value == res.value.value && Regs() == res.value.regs)
    {
      if SequencerRead(offset) {
        var value := ReadSequencer(offset);
        out := Ok(value);
      } else {
        out := ReadController(offset);
      }
    }

    /** A read of a sequencer's mux, control, FIFO or FIFO status register. */
    method ReadSequencer(offset: int) returns (value: Word)
      requires Valid() && SequencerRead(offset)
      modifies this`fifo, this`ustat
      ensures Valid() && Access(Regs(), value) == ReadSequencerRegister(old(Regs()), offset)
    {
      var n := SequencerOf(offset);
      var sub := offset % 0x20;
      if sub == Ssmux {
        value := ssmux[n].bits;
      } else if sub == Ssctl {
        value := ssctl[n].bits;
      } else if sub == Ssfifo {
        value := FifoRead(n);
      } else {
        value := Encode(fifo[n].status);
      }
    }

    /** A read of a controller register, which changes nothing. */
    method ReadController(offset: int) returns (out: Result<Word>)
      ensures out == ReadControllerRegister(Regs(), offset)
    {
      if offset == Actss {
        out := Ok(actss.bits);
      } else if offset == Ris {
        out := Ok(ris.bits);
      } else if offset == Im {
        out := Ok(im.bits);
      } else if offset == Isc {
        out := Ok(Masked(ris.bits, im.bits));
      } else if offset == Ostat {
        out := Ok(ostat.bits);
      } else if offset == Emux {
        out := Ok(emux.bits);
      } else if offset == Ustat {
        out := Ok(ustat.bits);
      } else if offset == Sspri {
        out := Ok(sspri.bits);
      } else if offset == Sac {
        out := Ok(sac.bits);
      } else {
        out := Err(BadOffset(offset));
      }
    }

    /**
     * Register write. The interrupt lines are recomputed after a write to a
     * controller register; a write to a sequencer's mux or control returns
     * before that, and changes nothing they depend on. After an unsupported
     * access the emulator stops, so nothing is promised about the state then.
     */
    method Write(offset: int, value: Word) returns (out: Outcome)
      requires Valid()
      modifies this
      ensures var res := WriteRegister(old(Regs()), offset, value);
        (out.Abort? <==> res.Err?) && (out.Abort? ==> out.reason == res.reason) &&
        (out.Done? ==> Valid() && Regs() == res.value)
    {
      if SequencerAccess(offset, Ssmux) || SequencerAccess(offset, Ssctl) {
        out := WriteSequencer(offset, value);
      } else {
        out := WriteController(offset, value);
      }
    }

    /** A write to a sequencer's mux or control register. */
    method WriteSequencer(offset: int, value: Word) returns (out: Outcome)
      requires Valid() && (SequencerAccess(offset, Ssmux) || SequencerAccess(offset, Ssctl))
      modifies this`ssmux, this`ssctl
      ensures var res := WriteSequencerRegister(old(Regs()), offset, value);
        (out.Abort? <==> res.Err?) && (out.Abort? ==> out.reason == res.reason) &&
        (out.Done? ==> Valid() && Regs() == res.value)
    {
      var n := SequencerOf(offset);
      if offset % 0x20 == Ssmux {
        ssmux := ssmux[n := Reg(KeepMux(value))];
        return Done;
      }
      if value != SupportedSequence {
        return Abort(SequenceUnsupported(value));
      }
      ssctl := ssctl[n := Reg(value)];
      return Done;
    }

    /**
     * A write to a controller register: the register switch is
     * WriteControllerRegister; the stored registers take its result and the
     * interrupt lines are recomputed.
     */
    method WriteController(offset: int, value: Word) returns (out: Outcome)
      requires Valid()
      modifies this`actss, this`im, this`ris, this`ostat, this`emux, this`ustat, this`sspri, this`sac, this`irq
      ensures var res := WriteControllerRegister(old(Regs()), offset, value);
        (out.Abort? <==> res.Err?) && (out.Abort? ==> out.reason == res.reason) &&
        (out.Done? ==> Valid() && Regs() == res.value)
    {
      var res := WriteControllerRegister(Regs(), offset, value);
      if res.Err? {
        return Abort(res.reason);
      }
      SetControl(res.value);
      Update();
      out := Done;
    }

    /** Stores the controller registers of w; the sequencers, the FIFOs and the noise are kept. */
    method SetControl(w: Registers)
      modifies this`actss, this`im, this`ris, this`ostat, this`emux, this`ustat, this`sspri, this`sac
      ensures Regs() == w.(fifo := fifo, ssmux := ssmux, ssctl := ssctl, noise := noise)
    {
      actss, im, ris, ostat, emux, ustat, sspri, sac := w.actss, w.im, w.ris, w.ostat, w.emux, w.ustat, w.sspri, w.sac;
    }
  }
}
