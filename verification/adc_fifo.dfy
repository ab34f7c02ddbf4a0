/**
 * The sample FIFO of one ADC sequencer. The hardware keeps sixteen data slots
 * and a packed state word: the tail index (next slot read) in bits 0-3, the
 * head index (next slot written) in bits 4-7, EMPTY at 0x100 and FULL at
 * 0x1000. This module gives the decoded view of that word and its encoding,
 * shows that the bit operations of a write and a read implement the decoded
 * updates (so a FIFO may be held decoded), and proves what a FIFO built from
 * them does: overflow, underflow and first-in first-out order, including the
 * one place where the source's flag update departs from a ring buffer.
 */
module AdcFifo {
  import opened Words

  const Depth: nat := 16
  const Empty: Word := 0x100
  const Full: Word := 0x1000
  /** The state word written by reset: empty, head and tail at slot 0. */
  const ResetState: Word := Empty

  /** The packed state word, decoded. */
  datatype Status = Status(tail: nat, head: nat, empty: bool, full: bool)

  function Decode(st: Word): (s: Status)
    ensures s.tail < Depth && s.head < Depth
  {
    Status((st & 0xf) as nat, ((st >> 4) & 0xf) as nat, st & Empty != 0, st & Full != 0)
  }

  // ---------------------------------------------------------------------------
  // A write and a read of the state word, as the source computes them, and
  // the decoded updates they implement.

  /** The state word after a sample is stored at the head. */
  function WriteStateBits(st: Word): (r: Word)
    ensures r & Empty == 0 && r & !0x11ff == st & !0x11ff
  {
    var head := (((st >> 4) & 0xf) + 1) & 0xf;
    var cleared := st & !Empty;
    var moved := (cleared & !0xf0) | (head << 4);
    if moved & 0xf == head then moved | Full else moved
  }

  /** The state word after the sample at the tail is taken. */
  function ReadStateBits(st: Word): (r: Word)
    ensures r & Full == 0 && r & !0x11ff == st & !0x11ff
  {
    var tail := st & 0xf;
    var moved := (st & !0xf) | ((tail + 1) & 0xf);
    var cleared := moved & !Full;
    // The source compares the unmasked `tail + 1` (1..16) with the head (0..15).
    if tail + 1 == (cleared >> 4) & 0xf then cleared | Empty else cleared
  }

  /**
   * A write, decoded: the head advances modulo 16, EMPTY clears, and FULL is
   * set when the head comes round to the tail.
   */
  function AfterWrite(s: Status): Status {
    var head := (s.head + 1) % Depth;
    s.(head := head, empty := false, full := s.full || s.tail == head)
  }

  /**
   * A read, decoded: the tail advances modulo 16, FULL clears, and EMPTY is
   * set when the old tail plus one, not reduced modulo 16, equals the head.
   */
  function AfterRead(s: Status): Status {
    s.(tail := (s.tail + 1) % Depth, full := false, empty := s.empty || s.tail + 1 == s.head)
  }

  lemma WriteStateFields(st: Word)
    ensures var r := WriteStateBits(st);
      r & 0xf == st & 0xf && (r >> 4) & 0xf == (((st >> 4) & 0xf) + 1) & 0xf &&
      r & Empty == 0 &&
      (r & Full != 0 <==> (st & Full != 0 || st & 0xf == (((st >> 4) & 0xf) + 1) & 0xf)) &&
      r & !0x11ff == st & !0x11ff
  {
  }

  lemma ReadStateFields(st: Word)
    ensures var r := ReadStateBits(st);
      r & 0xf == ((st & 0xf) + 1) & 0xf && (r >> 4) & 0xf == (st >> 4) & 0xf &&
      r & Full == 0 &&
      (r & Empty != 0 <==> (st & Empty != 0 || (st & 0xf) + 1 == (st >> 4) & 0xf)) &&
      r & !0x11ff == st & !0x11ff
  {
  }

  lemma NibbleIncrement(x: Word)
    requires x < 16
    ensures ((x + 1) & 0xf) as int == (x as int + 1) % 16
  {
  }

  lemma SmallEquality(x: Word, y: Word)
    requires x < 17 && y < 17
    ensures (x == y) <==> (x as int == y as int)
  {
  }

  lemma WriteDecodes(st: Word, r: Word)
    requires r & 0xf == st & 0xf && (r >> 4) & 0xf == (((st >> 4) & 0xf) + 1) & 0xf
    requires r & Empty == 0
    requires r & Full != 0 <==> (st & Full != 0 || st & 0xf == (((st >> 4) & 0xf) + 1) & 0xf)
    ensures Decode(r) == AfterWrite(Decode(st))
  {
    var h := (st >> 4) & 0xf;
    NibbleIncrement(h);
    SmallEquality(st & 0xf, (h + 1) & 0xf);
  }

  lemma ReadDecodes(st: Word, r: Word)
    requires r & 0xf == ((st & 0xf) + 1) & 0xf && (r >> 4) & 0xf == (st >> 4) & 0xf
    requires r & Full == 0
    requires r & Empty != 0 <==> (st & Empty != 0 || (st & 0xf) + 1 == (st >> 4) & 0xf)
    ensures Decode(r) == AfterRead(Decode(st))
  {
    var t := st & 0xf;
    NibbleIncrement(t);
    SmallEquality(t + 1, (st >> 4) & 0xf);
  }

  /**
   * The bit operations of a FIFO write implement the decoded update, and
   * leave the bits outside the indices and flags as they were.
   */
  lemma WriteStateImplementsAfterWrite(st: Word)
    ensures Decode(WriteStateBits(st)) == AfterWrite(Decode(st))
    ensures WriteStateBits(st) & !0x11ff == st & !0x11ff
  {
    WriteStateFields(st);
    WriteDecodes(st, WriteStateBits(st));
  }

  /**
   * The bit operations of a FIFO read implement the decoded update, and
   * leave the bits outside the indices and flags as they were.
   */
  lemma ReadStateImplementsAfterRead(st: Word)
    ensures Decode(ReadStateBits(st)) == AfterRead(Decode(st))
    ensures ReadStateBits(st) & !0x11ff == st & !0x11ff
  {
    ReadStateFields(st);
    ReadDecodes(st, ReadStateBits(st));
  }

  /** The decoded reset state: empty, head and tail at slot 0. */
  const ResetStatus := Status(0, 0, true, false)

  lemma ResetDecodes()
    ensures Decode(ResetState) == ResetStatus
  {
  }

  // ---------------------------------------------------------------------------
  // Packing a decoded status back into a state word.

  const Nibbles: seq<Word> := [0, 1, 2, 3, 4, 5, 6, 7, 8, 9, 10, 11, 12, 13, 14, 15]

  /** The state word holding a status: the inverse of `Decode` on words with no other bit set. */
  function Encode(s: Status): Word
    requires s.tail < Depth && s.head < Depth
  {
    Nibbles[s.tail] | (Nibbles[s.head] << 4) | (if s.empty then Empty else 0) | (if s.full then Full else 0)
  }

  lemma NibbleValue(k: nat)
    requires k < Depth
    ensures Nibbles[k] < 16 && Nibbles[k] as nat == k
  {
  }

  lemma NibbleOf(x: Word)
    requires x < 16
    ensures Nibbles[x as nat] == x
  {
  }

  /** Decoding an encoded status gives it back, and the encoding sets no other bit. */
  lemma EncodeDecodes(s: Status)
    requires s.tail < Depth && s.head < Depth
    ensures Decode(Encode(s)) == s
    ensures Encode(s) & !0x11ff == 0
  {
    NibbleValue(s.tail);
    NibbleValue(s.head);
  }

  /** A state word with no bit outside the indices and flags is the encoding of its decoding. */
  lemma DecodeEncodes(st: Word)
    requires st & !0x11ff == 0
    ensures Encode(Decode(st)) == st
  {
    NibbleOf(st & 0xf);
    NibbleOf((st >> 4) & 0xf);
  }

  /** The reset state word is the encoded reset status. */
  lemma ResetEncodes()
    ensures Encode(ResetStatus) == ResetState
  {
  }

  /**
   * A write on a packed state word gives the word packing the decoded update:
   * a FIFO may be kept decoded without changing what its status register reads.
   */
  lemma WriteStateEncodes(s: Status)
    requires s.tail < Depth && s.head < Depth
    ensures WriteStateBits(Encode(s)) == Encode(AfterWrite(s))
  {
    var st := Encode(s);
    EncodeDecodes(s);
    WriteStateImplementsAfterWrite(st);
    DecodeEncodes(WriteStateBits(st));
  }

  /** A read on a packed state word gives the word packing the decoded update. */
  lemma ReadStateEncodes(s: Status)
    requires s.tail < Depth && s.head < Depth
    ensures ReadStateBits(Encode(s)) == Encode(AfterRead(s))
  {
    var st := Encode(s);
    EncodeDecodes(s);
    ReadStateImplementsAfterRead(st);
    DecodeEncodes(ReadStateBits(st));
  }

  // ---------------------------------------------------------------------------
  // Push and pop on a decoded FIFO.

  datatype Fifo = Fifo(status: Status, data: seq<Word>)

  /** The FIFO a sequencer holds: its decoded state word and its sixteen slots. */
  predicate WellFormed(f: Fifo) {
    |f.data| == Depth && f.status.tail < Depth && f.status.head < Depth
  }

  datatype PushResult = PushResult(fifo: Fifo, overflow: bool)

  datatype PopResult = PopResult(fifo: Fifo, value: Word, underflow: bool)

  /**
   * Stores a sample at the head. On a full FIFO the sample is dropped and
   * overflow is reported; the state and the data stay as they were.
   */
  function Push(f: Fifo, value: Word): (r: PushResult)
    requires WellFormed(f)
    ensures WellFormed(r.fifo)
    ensures r.overflow <==> f.status.full
    ensures r.overflow ==> r.fifo == f
    ensures !r.overflow ==> r.fifo.data[f.status.head] == value && !r.fifo.status.empty
  {
    if f.status.full then PushResult(f, true)
    else PushResult(Fifo(AfterWrite(f.status), f.data[f.status.head := value]), false)
  }

  /**
   * Takes the sample at the tail. On an empty FIFO underflow is reported, the
   * state stays, and the stale sample at the tail is returned all the same.
   */
  function Pop(f: Fifo): (r: PopResult)
    requires WellFormed(f)
    ensures WellFormed(r.fifo) && r.fifo.data == f.data
    ensures r.underflow <==> f.status.empty
    ensures r.underflow ==> r.fifo == f
    ensures r.value == f.data[f.status.tail]
    ensures !r.underflow ==> !r.fifo.status.full
  {
    var value := f.data[f.status.tail];
    if f.status.empty then PopResult(f, value, true)
    else PopResult(Fifo(AfterRead(f.status), f.data), value, false)
  }

  // ---------------------------------------------------------------------------
  // The queue a FIFO holds: an independent reading of the indices and flags.

  /** The slot i places after the tail. */
  function Slot(tail: nat, i: nat): (k: nat)
    ensures k < Depth
  {
    (tail + i) % Depth
  }

  /** Number of samples held: 16 when FULL, else the distance from tail to head. */
  function Count(s: Status): (n: nat)
    ensures n <= Depth && (n == Depth <==> s.full)
  {
    if s.full then Depth else (s.head - s.tail) % Depth
  }

  /**
   * The flags agree with the indices: EMPTY and FULL each mean head == tail,
   * never both, and head == tail means one of them.
   */
  predicate Consistent(s: Status) {
    (s.empty ==> !s.full && s.head == s.tail) &&
    (s.full ==> s.head == s.tail) &&
    (s.head == s.tail ==> s.empty || s.full)
  }

  /** The n samples stored from the tail on, oldest first. */
  function Window(data: seq<Word>, tail: nat, n: nat): (w: seq<Word>)
    requires |data| == Depth && n <= Depth
    ensures |w| == n
  {
    seq(n, i requires 0 <= i < n => data[Slot(tail, i)])
  }

  /** The samples held, oldest first. */
  function Queue(f: Fifo): (q: seq<Word>)
    requires WellFormed(f)
    ensures |q| == Count(f.status)
  {
    Window(f.data, f.status.tail, Count(f.status))
  }

  /** Storing at the slot just past a window extends the window by that sample. */
  lemma WindowAppend(data: seq<Word>, tail: nat, n: nat, value: Word)
    requires |data| == Depth && n < Depth && tail < Depth
    ensures Window(data[Slot(tail, n) := value], tail, n + 1) == Window(data, tail, n) + [value]
  {
    var w, w' := Window(data, tail, n), Window(data[Slot(tail, n) := value], tail, n + 1);
    forall i | 0 <= i < n + 1
      ensures w'[i] == (w + [value])[i]
    {
      if i < n {
        assert Slot(tail, i) != Slot(tail, n);
      }
    }
  }

  /** Dropping the oldest sample of a window is the window one slot on. */
  lemma WindowShift(data: seq<Word>, tail: nat, n: nat)
    requires |data| == Depth && 0 < n <= Depth && tail < Depth
    ensures Window(data, tail, n)[1..] == Window(data, (tail + 1) % Depth, n - 1)
  {
    var w, w' := Window(data, tail, n), Window(data, (tail + 1) % Depth, n - 1);
    forall i | 0 <= i < n - 1
      ensures w'[i] == w[1..][i]
    {
      SlotStep(tail, i);
    }
  }

  /** One slot on from the tail, i places further, is i + 1 places after the tail. */
  lemma SlotStep(tail: nat, i: nat)
    ensures Slot((tail + 1) % Depth, i) == Slot(tail, i + 1)
  {
    var q := tail / Depth;
    assert tail == q * Depth + tail % Depth;
    assert tail + 1 == q * Depth + (tail % Depth + 1);
  }

  /** Reset leaves every FIFO consistent and empty. */
  lemma ResetFifoIsEmpty(data: seq<Word>)
    requires |data| == Depth
    ensures var f := Fifo(ResetStatus, data);
      WellFormed(f) && Consistent(f.status) && f.status.empty && Queue(f) == []
  {
  }

  /**
   * On a consistent status that is not full, the head is the slot just past
   * the samples held, and a write keeps the status consistent with one more.
   */
  lemma WriteAdvances(s: Status)
    requires s.tail < Depth && s.head < Depth && Consistent(s) && !s.full
    ensures Slot(s.tail, Count(s)) == s.head
    ensures Consistent(AfterWrite(s)) && Count(AfterWrite(s)) == Count(s) + 1
  {
    if s.tail <= s.head {
      assert Count(s) == s.head - s.tail;
    } else {
      assert Count(s) == s.head + Depth - s.tail;
    }
  }

  /**
   * On a consistent status that is not empty, a read sets EMPTY exactly when
   * one sample is held outside slot 15, and otherwise, unless it takes the
   * last sample from slot 15, keeps the status consistent with one less.
   */
  lemma ReadRetreats(s: Status)
    requires s.tail < Depth && s.head < Depth && Consistent(s) && !s.empty
    ensures Count(s) > 0
    ensures s.tail + 1 == s.head <==> Count(s) == 1 && s.tail != 15
    ensures Count(s) > 1 || s.tail != 15 ==> Consistent(AfterRead(s)) && Count(AfterRead(s)) == Count(s) - 1
  {
    if s.tail < s.head {
      assert Count(s) == s.head - s.tail;
    } else if s.head < s.tail {
      assert Count(s) == s.head + Depth - s.tail;
    }
  }

  /** On a consistent FIFO that is not full, a push appends the sample to the queue. */
  lemma {:induction false} PushAppends(f: Fifo, value: Word)
    requires WellFormed(f) && Consistent(f.status) && !f.status.full
    ensures var g := Push(f, value).fifo;
      Consistent(g.status) && Queue(g) == Queue(f) + [value] && g.status.tail == f.status.tail
  {
    WriteAdvances(f.status);
    WindowAppend(f.data, f.status.tail, Count(f.status), value);
  }

  /**
   * On a consistent FIFO that is not empty, a pop returns the oldest sample.
   * Unless it takes the last sample from slot 15, the FIFO stays consistent
   * and holds the rest of the queue. Taking the last sample sets EMPTY only
   * when it was not in slot 15.
   */
  lemma {:induction false} PopTakesOldest(f: Fifo)
    requires WellFormed(f) && Consistent(f.status) && !f.status.empty
    ensures var r := Pop(f);
      !r.underflow && Count(f.status) > 0 && r.value == Queue(f)[0] &&
      r.fifo.status.tail == (f.status.tail + 1) % Depth
    ensures var r := Pop(f);
      Count(f.status) > 1 || f.status.tail != 15 ==>
        Consistent(r.fifo.status) && Queue(r.fifo) == Queue(f)[1..]
    ensures Count(f.status) == 1 ==> (Pop(f).fifo.status.empty <==> f.status.tail != 15)
  {
    var s := f.status;
    ReadRetreats(s);
    if Count(s) > 1 || s.tail != 15 {
      WindowShift(f.data, s.tail, Count(s));
    }
  }

  /**
   * Where the source departs from a ring buffer: taking the only sample from
   * slot 15 leaves EMPTY clear with head == tail, so the FIFO is no longer
   * consistent and the next pop reports no underflow.
   */
  lemma {:induction false} LastSlotDrainLeavesEmptyClear(f: Fifo)
    requires WellFormed(f) && Consistent(f.status)
    requires Count(f.status) == 1 && f.status.tail == 15
    ensures var g := Pop(f).fifo;
      !g.status.empty && !g.status.full && g.status.head == g.status.tail &&
      !Consistent(g.status) && !Pop(g).underflow
  {
    assert f.status.head == 0;
  }

  /** A state word that shows it: one sample, in slot 15, head at slot 0. */
  lemma LastSlotExample()
    ensures var f := Fifo(Decode(0x0f), seq(Depth, i => 0x200));
      WellFormed(f) && Consistent(f.status) && Count(f.status) == 1 &&
      !Pop(Pop(f).fifo).underflow
  {
    var f := Fifo(Decode(0x0f), seq(Depth, i => 0x200));
    LastSlotDrainLeavesEmptyClear(f);
  }

  // ---------------------------------------------------------------------------
  // Sequences of pushes and pops.

  /** Pushes the samples in order. */
  function PushAll(f: Fifo, values: seq<Word>): (g: Fifo)
    requires WellFormed(f)
    ensures WellFormed(g)
    decreases |values|
  {
    if values == [] then f else PushAll(Push(f, values[0]).fifo, values[1..])
  }

  datatype Drained = Drained(fifo: Fifo, values: seq<Word>)

  /** Pops k times, collecting the returned samples in order. */
  function PopMany(f: Fifo, k: nat): (r: Drained)
    requires WellFormed(f)
    ensures WellFormed(r.fifo) && |r.values| == k
    decreases k
  {
    if k == 0 then Drained(f, [])
    else
      var p := Pop(f);
      var rest := PopMany(p.fifo, k - 1);
      Drained(rest.fifo, [p.value] + rest.values)
  }

  lemma {:induction false} PushAllAppends(f: Fifo, values: seq<Word>)
    requires WellFormed(f) && Consistent(f.status)
    requires Count(f.status) + |values| <= Depth
    ensures var g := PushAll(f, values);
      Consistent(g.status) && Queue(g) == Queue(f) + values && g.status.tail == f.status.tail
    decreases |values|
  {
    if values != [] {
      PushAppends(f, values[0]);
      PushAllAppends(Push(f, values[0]).fifo, values[1..]);
      assert Queue(f) + [values[0]] + values[1..] == Queue(f) + values;
    }
  }

  /**
   * Popping every sample of a consistent FIFO returns the queue in order; the
   * FIFO ends EMPTY exactly when the last sample was not in slot 15.
   */
  lemma {:induction false} PopAllReturnsQueue(f: Fifo)
    requires WellFormed(f) && Consistent(f.status) && Count(f.status) > 0
    ensures var r := PopMany(f, Count(f.status));
      r.values == Queue(f) &&
      (r.fifo.status.empty <==> Slot(f.status.tail, Count(f.status) - 1) != 15)
    decreases Count(f.status)
  {
    var n, t := Count(f.status), f.status.tail;
    PopTakesOldest(f);
    var p := Pop(f);
    var rest := PopMany(p.fifo, n - 1);
    assert PopMany(f, n) == Drained(rest.fifo, [p.value] + rest.values);
    if n > 1 {
      ReadRetreats(f.status);
      assert Count(p.fifo.status) == n - 1;
      PopAllReturnsQueue(p.fifo);
      SlotStep(t, n - 2);
      assert Queue(f) == [Queue(f)[0]] + Queue(f)[1..];
    }
  }

  /**
   * From reset, pushing up to 16 samples and popping as many returns them in
   * the order pushed. The FIFO ends
   * EMPTY only when fewer than 16 were pushed: after 16 the last sample comes
   * from slot 15 and EMPTY stays clear.
   */
  lemma {:induction false} FifoOrderFromReset(data: seq<Word>, values: seq<Word>)
    requires |data| == Depth && |values| <= Depth
    ensures var g := PushAll(Fifo(ResetStatus, data), values);
      Queue(g) == values && PopMany(g, |values|).values == values
    ensures var g := PushAll(Fifo(ResetStatus, data), values);
      PopMany(g, |values|).fifo.status.empty <==> |values| < Depth
  {
    var f := Fifo(ResetStatus, data);
    ResetFifoIsEmpty(data);
    PushAllAppends(f, values);
    var g := PushAll(f, values);
    if values != [] {
      PopAllReturnsQueue(g);
      assert Slot(0, |values| - 1) == |values| - 1;
    }
  }
}
