/**
 * The system controller (clock and reset block). Only the part the timers
 * depend on is modelled: the derived system clock scale, the board class that
 * decides the reset value of RCC2, and the small register decode of RCC_CR and
 * RCC_CFGR.
 */
module SystemControl {
  import opened Words

  const DidVerMask: Word := 0x7000_0000
  const DidVer0: Word := 0x0000_0000
  const DidVer1: Word := 0x1000_0000
  const DidClassMask: Word := 0x00FF_0000
  const ClassSandstorm: Word := 0x0000_0000
  const ClassFury: Word := 0x0001_0000

  /** RCC_CFGR fields: SW selects the system clock, SWS reports the one in use. */
  const CfgrSw: Word := 0x03
  const CfgrSws: Word := 0x0c

  /** Reset values of PBORCTL and RCC, and of RCC2 on a class that has it. */
  const ResetPborctl: Word := 0x7ffd
  const ResetRcc: Word := 0x078e_3ac0
  const ResetRcc2: Word := 0x0780_2810

  /** RCC2 overrides RCC when its bit 31 (USERCC2) is set. */
  predicate UseRcc2(rcc2: Word) {
    (rcc2 >> 31) & 1 == 1
  }

  /**
   * The system clock scale: the multiplier the timers apply to a register
   * count to obtain a deadline. It comes from the 6-bit SYSDIV2 field of RCC2
   * when RCC2 is in use, and from the 4-bit SYSDIV field of RCC otherwise.
   */
  function ClockScale(rcc: Word, rcc2: Word): (scale: nat)
    ensures scale % 5 == 0 && 5 <= scale <= 320
    ensures !UseRcc2(rcc2) ==> scale <= 80
  {
    if UseRcc2(rcc2) then 5 * ((((rcc2 >> 23) & 0x3f) as int) + 1)
    else 5 * ((((rcc >> 23) & 0xf) as int) + 1)
  }

  /** With RCC2 in use, RCC plays no part in the scale. */
  lemma ScaleIgnoresRccUnderRcc2(rccA: Word, rccB: Word, rcc2: Word)
    requires UseRcc2(rcc2)
    ensures ClockScale(rccA, rcc2) == ClockScale(rccB, rcc2)
  {
  }

  /** With RCC2 not in use, the scale reads only the SYSDIV field of RCC. */
  lemma ScaleReadsOnlySysdiv(rccA: Word, rccB: Word, rcc2A: Word, rcc2B: Word)
    requires !UseRcc2(rcc2A) && !UseRcc2(rcc2B)
    requires (rccA >> 23) & 0xf == (rccB >> 23) & 0xf
    ensures ClockScale(rccA, rcc2A) == ClockScale(rccB, rcc2B)
  {
  }

  /**
   * The class of a board from its DID0 register: version 0 parts are all
   * Sandstorm class; version 1 parts carry the class in DID0; anything else
   * makes the emulator abort.
   */
  function BoardClass(did0: Word): (r: Result<Word>)
    ensures r.Ok? <==> did0 & DidVerMask == DidVer0 ||
                       (did0 & DidVerMask == DidVer1 &&
                        (did0 & DidClassMask == ClassSandstorm || did0 & DidClassMask == ClassFury))
    ensures r.Ok? ==> r.value == ClassSandstorm || r.value == ClassFury
    ensures r.Ok? && did0 & DidVerMask == DidVer1 ==> r.value == did0 & DidClassMask
    ensures r.Err? ==> r.reason == UnknownBoardClass(did0)
  {
    var ver := did0 & DidVerMask;
    if ver == DidVer0 then Ok(ClassSandstorm)
    else if ver == DidVer1 && (did0 & DidClassMask == ClassSandstorm || did0 & DidClassMask == ClassFury) then
      Ok(did0 & DidClassMask)
    else Err(UnknownBoardClass(did0))
  }

  /** RCC2 after reset: cleared on a Sandstorm-class board, its default otherwise. */
  function ResetRcc2For(boardClass: Word): Word {
    if boardClass == ClassSandstorm then 0 else ResetRcc2
  }

  /**
   * The RCC_CFGR image kept after a write: the written SWS bits are dropped
   * and replaced by a copy of the SW bits, so the clock reported in use is
   * always the one just selected.
   */
  function CfgrImage(value: Word): (r: Word)
    ensures (r & CfgrSws) >> 2 == value & CfgrSw
    ensures r & !CfgrSws == value & !CfgrSws
  {
    var kept := value & !CfgrSws;
    kept | ((kept & CfgrSw) << 2)
  }

  /**
   * RCC_CR after a write: PLLRDY is always reported, because the guard of the
   * write, `value | PLLON`, is non-zero whatever the value once PLLON is a
   * real bit.
   */
  function CrImage(value: Word, pllReady: Word): (r: Word)
    ensures r & pllReady == pllReady
    ensures r & !pllReady == value & !pllReady
  {
    value | pllReady
  }

  lemma PllGuardAlwaysTrue(value: Word, pllOn: Word)
    requires pllOn != 0
    ensures value | pllOn != 0
  {
  }

  /** The only board of the machine has DID0 = 0. */
  const BoardDid0: Word := 0

  /** That board is Sandstorm class, so reset leaves RCC2 clear and the scale at 80. */
  lemma BoardResetScale()
    ensures BoardClass(BoardDid0) == Ok(ClassSandstorm)
    ensures ResetRcc2For(ClassSandstorm) == 0 && !UseRcc2(0)
    ensures ClockScale(ResetRcc, 0) == 80
  {
  }

  /**
   * The system controller. `scale` holds the system clock scale that the
   * timers read; it is derived from `rcc` and `rcc2` and recomputed whenever
   * they are (re)established, at reset and after a snapshot is loaded.
   */
  class SystemController {
    const did0: Word
    /** RCC_CR bits PLLON and PLLRDY; their values come from a header that is not part of this model. */
    const pllOn: Word
    const pllReady: Word

    var pborctl: Word
    var ldopctl: Word
    var intStatus: Word
    var intMask: Word
    var resc: Word
    var rcc: Word
    var rccCr: Word
    var rccCfgr: Word
    var rccOther: Word
    var rcc2: Word
    var rcgc: seq<Word>
    var scgc: seq<Word>
    var dcgc: seq<Word>
    var clkvclr: Word
    var ldoarst: Word
    var scale: int
    /** Level last driven on the controller's interrupt line. */
    var irq: bool

    ghost predicate Valid()
      reads this
    {
      |rcgc| == 3 && |scgc| == 3 && |dcgc| == 3 && pllOn != 0
    }

    /** A zero-filled controller, as allocated before its first reset. */
    constructor (did0: Word, pllOn: Word, pllReady: Word)
      requires pllOn != 0
      ensures Valid() && this.did0 == did0 && this.pllOn == pllOn && this.pllReady == pllReady
      ensures rcc == 0 && rcc2 == 0 && rccCr == 0 && rccCfgr == 0 && rccOther == 0
      ensures pborctl == 0 && ldopctl == 0 && intStatus == 0 && intMask == 0 && resc == 0
      ensures rcgc == [0, 0, 0] && scgc == [0, 0, 0] && dcgc == [0, 0, 0]
      ensures clkvclr == 0 && ldoarst == 0 && scale == 0 && !irq
    {
      this.did0, this.pllOn, this.pllReady := did0, pllOn, pllReady;
      pborctl, ldopctl, intStatus, intMask, resc := 0, 0, 0, 0, 0;
      rcc, rccCr, rccCfgr, rccOther, rcc2 := 0, 0, 0, 0, 0;
      rcgc, scgc, dcgc := [0, 0, 0], [0, 0, 0], [0, 0, 0];
      clkvclr, ldoarst, scale, irq := 0, 0, 0, false;
    }

    /** Recomputes the system clock scale from the raw clock registers. */
    method CalculateSystemClock()
      requires Valid()
      modifies this`scale
      ensures Valid() && scale == ClockScale(rcc, rcc2)
    {
      if UseRcc2(rcc2) {
        scale := 5 * ((((rcc2 >> 23) & 0x3f) as int) + 1);
      } else {
        scale := 5 * ((((rcc >> 23) & 0xf) as int) + 1);
      }
    }

    /**
     * Reset: PBORCTL, RCC, RCC2 and the first clock-gating words take their
     * reset values and the scale is recomputed; an unknown board class aborts.
     */
    method Reset() returns (out: Outcome)
      requires Valid()
      modifies this`pborctl, this`rcc, this`rcc2, this`rcgc, this`scgc, this`dcgc, this`scale
      ensures Valid()
      ensures out.Abort? <==> BoardClass(did0).Err?
      ensures out.Abort? ==> out.reason == UnknownBoardClass(did0)
      ensures out.Done? ==> pborctl == ResetPborctl && rcc == ResetRcc &&
                            rcc2 == ResetRcc2For(BoardClass(did0).value) &&
                            rcgc == old(rcgc)[0 := 1] && scgc == old(scgc)[0 := 1] &&
                            dcgc == old(dcgc)[0 := 1] &&
                            scale == ClockScale(ResetRcc, rcc2)
      ensures out.Done? && did0 == BoardDid0 ==> rcc2 == 0 && scale == 80
      ensures out.Abort? ==> pborctl == ResetPborctl && rcc == ResetRcc &&
                             unchanged(this`rcc2, this`rcgc, this`scgc, this`dcgc, this`scale)
    {
      pborctl := ResetPborctl;
      rcc := ResetRcc;
      var cls := BoardClass(did0);
      if cls.Err? {
        return Abort(cls.reason);
      }
      if cls.value == ClassSandstorm {
        rcc2 := 0;
      } else {
        rcc2 := ResetRcc2;
      }
      rcgc := rcgc[0 := 1];
      scgc := scgc[0 := 1];
      dcgc := dcgc[0 := 1];
      CalculateSystemClock();
      if did0 == BoardDid0 {
        BoardResetScale();
      }
      out := Done;
    }

    /**
     * After a snapshot has been restored the scale is not trusted from the
     * snapshot: it is rebuilt from the restored RCC and RCC2.
     */
    method PostLoad()
      requires Valid()
      modifies this`scale
      ensures Valid() && scale == ClockScale(rcc, rcc2)
    {
      CalculateSystemClock();
    }

    /** Register read: RCC_CR at 0x00, RCC_CFGR at 0x08, one shared word for every other offset. */
    function Read(offset: int): (r: Word)
      reads this
      ensures offset != 0x00 && offset != 0x08 ==> r == rccOther
    {
      if offset == 0x00 then rccCr
      else if offset == 0x08 then rccCfgr
      else rccOther
    }

    /**
     * Register write. RCC_CR always reads back with PLLRDY set, since the
     * guard `rcc_cr | PLLON` is never zero. RCC_CFGR mirrors SW into SWS.
     * Every other offset lands in one shared word. The interrupt line is
     * recomputed; the clock scale is not.
     */
    method Write(offset: int, value: Word)
      requires Valid()
      modifies this`rccCr, this`rccCfgr, this`rccOther, this`irq
      ensures Valid() && irq == Pending(intStatus, intMask)
      ensures offset == 0x00 ==> rccCr == CrImage(value, pllReady) &&
                                 rccCfgr == old(rccCfgr) && rccOther == old(rccOther)
      ensures offset == 0x08 ==> rccCfgr == CfgrImage(value) && rccCr == old(rccCr) &&
                                 rccOther == old(rccOther)
      ensures offset != 0x00 && offset != 0x08 ==> rccOther == value && rccCr == old(rccCr) &&
                                                   rccCfgr == old(rccCfgr)
      ensures Read(offset) == (if offset == 0x00 then CrImage(value, pllReady)
                               else if offset == 0x08 then CfgrImage(value) else value)
    {
      if offset == 0x00 {
        rccCr := value;
        PllGuardAlwaysTrue(value, pllOn);
        if rccCr | pllOn != 0 {
          rccCr := CrImage(rccCr, pllReady);
        }
        assert Read(offset) == rccCr;
      } else if offset == 0x08 {
        rccCfgr := CfgrImage(value);
        assert Read(offset) == rccCfgr;
      } else {
        rccOther := value;
        assert Read(offset) == rccOther;
      }
      irq := Pending(intStatus, intMask);
    }
  }
}
