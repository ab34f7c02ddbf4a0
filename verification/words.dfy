/**
 * Shared vocabulary of the peripheral models: the 32-bit register word,
 * masked and acknowledged status bits, the abort reasons of the emulator
 * and the outcome of an access that may abort.
 */
module Words {

  /** A `uint32_t` register image; every operation on it wraps modulo 2^32. */
  type Word = bv32

  const Modulus: nat := 0x1_0000_0000

  /**
   * A `uint32_t` used as a number (a counter compared and incremented rather
   * than masked); its wrap-around is written out where it happens.
   */
  type Uint32 = x: nat | x < Modulus

  /** The raw status bits that are enabled in the mask. */
  function Masked(raw: Word, mask: Word): Word {
    raw & mask
  }

  /** The level of an interrupt line: some raw status bit is also enabled in its mask. */
  predicate Pending(raw: Word, mask: Word) {
    Masked(raw, mask) != 0
  }

  /** A raw status after an interrupt clear register write: the bits written as 1 are cleared. */
  function Cleared(raw: Word, acknowledged: Word): Word {
    raw & !acknowledged
  }

  /**
   * Why the emulator stops: every `hw_error` call of the peripherals is an
   * abort, so the model turns it into a value that callers can observe.
   */
  datatype Fault =
    | BadOffset(offset: int)
    | TimerModeUnsupported(mode: Word)
    | TimerValueRead
    | UnknownBoardClass(did0: Word)
    | LoopbackUnsupported
    | SlaveModeUnsupported
    | SequenceUnsupported(value: Word)
    | SampleInitiateUnsupported

  /** The outcome of a register write or a callback: it completed, or it aborted. */
  datatype Outcome = Done | Abort(reason: Fault)

  /** The outcome of a register read: a value, or an abort. */
  datatype Result<T> = Ok(value: T) | Err(reason: Fault)
}
