/**
 * The Game Boy APU registers and frame sequencer (src/cpu/apu.rs) as
 * functions on a value of the whole APU state. The class in module Apu is
 * proved against these functions.
 *
 * The register file holds 0xFF10..=0xFF3F; index i is address 0xFF10 + i.
 * The counters, paces, volumes and the channel 1 frequency are held as
 * integers whose u8/u16 ranges the state invariant keeps.
 */
module ApuSpec {
  import opened Options

  const ApuBase := 0xFF10
  const ApuMemSize := 0x30

  const Nr10 := 0x00
  const Nr11 := 0x01
  const Nr12 := 0x02
  const Nr13 := 0x03
  const Nr14 := 0x04
  const Nr21 := 0x06
  const Nr22 := 0x07
  const Nr24 := 0x09
  const Nr30 := 0x0A
  const Nr31 := 0x0B
  const Nr34 := 0x0E
  const Nr41 := 0x10
  const Nr42 := 0x11
  const Nr44 := 0x13
  const Nr52 := 0x16

  type ApuMem = m: seq<bv8> | |m| == ApuMemSize witness seq(ApuMemSize, _ => 0)

  predicate IsApuAddr(addr: int) { ApuBase <= addr < ApuBase + ApuMemSize }

  datatype Channel = Ch1 | Ch2 | Ch3 | Ch4

  /** The NR52 bit that says the channel is on: bits 0 to 3. */
  function StatusBit(ch: Channel): (r: bv8)
  {
    match ch
    case Ch1 => 1
    case Ch2 => 2
    case Ch3 => 4
    case Ch4 => 8
  }

  /** NRx1: the sound length register. */
  function LengthReg(ch: Channel): (r: int)
    ensures 0 <= r < ApuMemSize && r != Nr52 && r != ControlReg(ch)
  {
    match ch
    case Ch1 => Nr11
    case Ch2 => Nr21
    case Ch3 => Nr31
    case Ch4 => Nr41
  }

  /** NRx4: the control register (length enable in bit 6, trigger in bit 7). */
  function ControlReg(ch: Channel): (r: int)
    ensures 0 <= r < ApuMemSize && r != Nr52
  {
    match ch
    case Ch1 => Nr14
    case Ch2 => Nr24
    case Ch3 => Nr34
    case Ch4 => Nr44
  }

  /** NRx2: the volume envelope register of channels 1, 2 and 4. */
  function EnvelopeReg(ch: Channel): (r: int)
    requires ch != Ch3
    ensures 0 <= r < ApuMemSize && r != Nr52 && r != LengthReg(ch) && r != ControlReg(ch)
  {
    match ch
    case Ch1 => Nr12
    case Ch2 => Nr22
    case Ch4 => Nr42
  }

  // ---------------------------------------------------------------------
  // Register getters
  // ---------------------------------------------------------------------

  /** get_sound1..4: bit 0, 1, 2 or 3 of NR52. */
  predicate SoundOn(m: ApuMem, ch: Channel)
  {
    match ch
    case Ch1 => m[Nr52] & 1 == 1
    case Ch2 => (m[Nr52] >> 1) & 1 == 1
    case Ch3 => (m[Nr52] >> 2) & 1 == 1
    case Ch4 => (m[Nr52] >> 3) & 1 == 1
  }

  /** get_sound_all: NR52 bit 7. */
  predicate SoundAll(m: ApuMem) { (m[Nr52] >> 7) & 1 == 1 }

  /** channelN_sound_length_enabled: bit 6 of NRx4. */
  predicate LengthEnabled(m: ApuMem, ch: Channel) { (m[ControlReg(ch)] >> 6) & 1 == 1 }

  /** channelN_sound_length of channels 1, 2 and 4: the low six bits of NRx1. */
  function LengthField(m: ApuMem, ch: Channel): bv8
  {
    m[LengthReg(ch)] & 0x3F
  }

  function EnvPaceReg(m: ApuMem, ch: Channel): (r: int)
    requires ch != Ch3
    ensures 0 <= r <= 7
  {
    (m[EnvelopeReg(ch)] & 7) as int
  }

  function EnvVolumeReg(m: ApuMem, ch: Channel): (r: int)
    requires ch != Ch3
    ensures 0 <= r <= 15
  {
    ((m[EnvelopeReg(ch)] >> 4) & 0xF) as int
  }

  predicate EnvIncreasingReg(m: ApuMem, ch: Channel)
    requires ch != Ch3
  {
    (m[EnvelopeReg(ch)] >> 3) & 1 == 1
  }

  function SweepPaceReg(m: ApuMem): (r: int)
    ensures 0 <= r <= 7
  {
    ((m[Nr10] >> 4) & 7) as int
  }

  predicate SweepIncrease(m: ApuMem) { (m[Nr10] >> 3) & 1 == 0 }

  function SweepShift(m: ApuMem): (r: int)
    ensures 0 <= r <= 7
  {
    (m[Nr10] & 7) as int
  }

  /** channel1_frequency: NR14 bits 0-2 above NR13. */
  function Frequency1(m: ApuMem): (r: int)
    ensures 0 <= r <= 0x7FF
  {
    (m[Nr14] & 7) as int * 256 + m[Nr13] as int
  }

  // ---------------------------------------------------------------------
  // Channel status bits
  // ---------------------------------------------------------------------

  /** unset_sound1..4: clears the channel's NR52 bit. */
  function UnsetSound(m: ApuMem, ch: Channel): (r: ApuMem)
  {
    m[Nr52 := m[Nr52] & !StatusBit(ch)]
  }

  /** set_sound1..4's NR52 update: sets the channel's bit. */
  function SetSoundBit(m: ApuMem, ch: Channel): (r: ApuMem)
  {
    m[Nr52 := m[Nr52] | StatusBit(ch)]
  }

  /** Clearing one channel's bit turns exactly that channel off. */
  lemma UnsetSoundEffect(m: ApuMem, ch: Channel, other: Channel)
    ensures !SoundOn(UnsetSound(m, ch), ch)
    ensures other != ch ==> SoundOn(UnsetSound(m, ch), other) == SoundOn(m, other)
    ensures SoundAll(UnsetSound(m, ch)) == SoundAll(m)
    ensures forall i :: 0 <= i < ApuMemSize && i != Nr52 ==> UnsetSound(m, ch)[i] == m[i]
  {
  }

  /** Setting one channel's bit turns exactly that channel on. */
  lemma SetSoundBitEffect(m: ApuMem, ch: Channel, other: Channel)
    ensures SoundOn(SetSoundBit(m, ch), ch)
    ensures other != ch ==> SoundOn(SetSoundBit(m, ch), other) == SoundOn(m, other)
    ensures SoundAll(SetSoundBit(m, ch)) == SoundAll(m)
  {
  }

  // ---------------------------------------------------------------------
  // Sound length counters
  // ---------------------------------------------------------------------

  /**
   * channel1/2/4_inc_sound_length: when length is enabled, the six-bit
   * length field counts up; reaching 64 wraps it to 0 and turns the channel
   * off.
   */
  function IncLength(m: ApuMem, ch: Channel): (r: ApuMem)
    requires ch != Ch3
  {
    if !LengthEnabled(m, ch) then m
    else
      var b := m[LengthReg(ch)];
      var m1 := if (b & 0x3F) + 1 >= 64 then UnsetSound(m, ch) else m;
      m1[LengthReg(ch) := NextLengthByte(b)]
  }

  /** NRx1 after one count: bits 6-7 kept, the low six bits plus one, modulo 64. */
  function NextLengthByte(b: bv8): bv8
  {
    (b & !0x3F) | (((b & 0x3F) + 1) & 0x3F)
  }

  /** channel3_inc_sound_length: the whole NR31 byte counts, 0xFF wraps to 0 and turns channel 3 off. */
  function IncLength3(m: ApuMem): (r: ApuMem)
  {
    if !LengthEnabled(m, Ch3) then m
    else if m[Nr31] == 0xFF then UnsetSound(m, Ch3)[Nr31 := 0]
    else m[Nr31 := m[Nr31] + 1]
  }

  function IncLengthAny(m: ApuMem, ch: Channel): (r: ApuMem)
  {
    if ch == Ch3 then IncLength3(m) else IncLength(m, ch)
  }

  /** The byte arithmetic of one length count on NRx1. */
  lemma LengthByteStep(b: bv8)
    ensures (b & 0x3F) + 1 >= 64 <==> b & 0x3F == 0x3F
    ensures b & 0x3F != 0x3F ==> NextLengthByte(b) & 0x3F == (b & 0x3F) + 1
    ensures b & 0x3F == 0x3F ==> NextLengthByte(b) & 0x3F == 0
    ensures NextLengthByte(b) & 0xC0 == b & 0xC0
  {
  }

  /** Below 63 the length field counts up by one and the channel stays as it was. */
  lemma IncLengthCounts(m: ApuMem, ch: Channel)
    requires ch != Ch3
    requires LengthEnabled(m, ch) && LengthField(m, ch) != 0x3F
    ensures LengthField(IncLength(m, ch), ch) == LengthField(m, ch) + 1
    ensures SoundOn(IncLength(m, ch), ch) == SoundOn(m, ch)
  {
    var b := m[LengthReg(ch)];
    LengthByteStep(b);
    assert IncLength(m, ch) == m[LengthReg(ch) := NextLengthByte(b)];
  }

  /** A length count keeps bits 6-7 of NRx1 (the duty cycle). */
  lemma IncLengthKeepsDuty(m: ApuMem, ch: Channel)
    requires ch != Ch3
    ensures IncLength(m, ch)[LengthReg(ch)] & 0xC0 == m[LengthReg(ch)] & 0xC0
  {
    LengthByteStep(m[LengthReg(ch)]);
  }

  /** At 63 the length field wraps to 0 and the channel goes off. */
  lemma IncLengthWraps(m: ApuMem, ch: Channel)
    requires ch != Ch3
    requires LengthEnabled(m, ch) && LengthField(m, ch) == 0x3F
    ensures LengthField(IncLength(m, ch), ch) == 0 && !SoundOn(IncLength(m, ch), ch)
  {
    var b := m[LengthReg(ch)];
    LengthByteStep(b);
    UnsetSoundEffect(m, ch, ch);
    assert IncLength(m, ch) == UnsetSound(m, ch)[LengthReg(ch) := NextLengthByte(b)];
  }

  /** A length count is a no-op when length is disabled, and touches only the channel's NRx1 and its own NR52 bit. */
  lemma IncLengthFrame(m: ApuMem, ch: Channel, other: Channel)
    requires ch != Ch3
    ensures !LengthEnabled(m, ch) ==> IncLength(m, ch) == m
    ensures other != ch ==> SoundOn(IncLength(m, ch), other) == SoundOn(m, other)
    ensures SoundAll(IncLength(m, ch)) == SoundAll(m)
    ensures forall i :: 0 <= i < ApuMemSize && i != Nr52 && i != LengthReg(ch) ==> IncLength(m, ch)[i] == m[i]
  {
    UnsetSoundEffect(m, ch, other);
  }

  lemma IncLength3Effect(m: ApuMem, other: Channel)
    ensures !LengthEnabled(m, Ch3) ==> IncLength3(m) == m
    ensures LengthEnabled(m, Ch3) && m[Nr31] != 0xFF ==>
      IncLength3(m)[Nr31] == m[Nr31] + 1 && SoundOn(IncLength3(m), Ch3) == SoundOn(m, Ch3)
    ensures LengthEnabled(m, Ch3) && m[Nr31] == 0xFF ==>
      IncLength3(m)[Nr31] == 0 && !SoundOn(IncLength3(m), Ch3)
    ensures other != Ch3 ==> SoundOn(IncLength3(m), other) == SoundOn(m, other)
    ensures forall i :: 0 <= i < ApuMemSize && i != Nr52 && i != Nr31 ==> IncLength3(m)[i] == m[i]
  {
    if LengthEnabled(m, Ch3) && m[Nr31] == 0xFF {
      UnsetSoundEffect(m, Ch3, other);
    }
  }

  // ---------------------------------------------------------------------
  // Volume envelopes
  // ---------------------------------------------------------------------

  /** The cached envelope of a channel: pace, counter, direction and volume. */
  datatype Envelope = Envelope(pace: int, counter: int, increasing: bool, volume: int)

  /** The ranges the fields keep: pace 0..=7, counter 1..=8, volume 0..=15. */
  predicate EnvelopeOk(e: Envelope)
  {
    0 <= e.pace <= 7 && 1 <= e.counter <= 8 && 0 <= e.volume <= 15
  }

  /**
   * channel1/2/4_step_envelope: one volume step, saturating at 15 when
   * increasing and stopping at 0 when decreasing.
   */
  function StepEnvelopeValue(e: Envelope): (r: Envelope)
    requires 0 <= e.volume < 256
    requires e.increasing ==> e.volume < 255
    ensures r == e.(volume := r.volume)
    ensures e.increasing ==> r.volume <= 15 && (e.volume < 15 ==> r.volume == e.volume + 1)
    ensures e.increasing && e.volume >= 15 ==> r.volume == 15
    ensures !e.increasing ==> r.volume <= e.volume && (r.volume == e.volume <==> e.volume == 0)
    ensures !e.increasing && e.volume > 0 ==> r.volume == e.volume - 1
  {
    var val := e.volume;
    var newVal := if e.increasing then (var n := val + 1; if n >= 0xF then 0xF else n)
                  else (if val == 0 then 0 else val - 1);
    e.(volume := newVal)
  }

  /** A volume step keeps the volume within 0..=15. */
  lemma StepEnvelopeKeepsRange(e: Envelope)
    requires 0 <= e.volume <= 15
    ensures 0 <= StepEnvelopeValue(e).volume <= 15
  {
  }

  /**
   * One envelope clock of Apu::step as written: the u8 counter is
   * decremented (a panic at 0); at 0 a non-zero cached pace is replaced by
   * the register's pace, which also becomes the counter, and the volume
   * steps; a zero cached pace reloads the counter with 8. None is the panic.
   */
  function EnvelopeClockAsWritten(e: Envelope, regPace: int): (r: Option<Envelope>)
    requires 0 <= e.counter < 256 && 0 <= e.volume <= 15 && 0 <= regPace <= 7
    ensures r.None? <==> e.counter == 0
  {
    if e.counter == 0 then None
    else
      var c := e.counter - 1;
      if c != 0 then Some(e.(counter := c))
      else if e.pace != 0 then Some(StepEnvelopeValue(e.(pace := regPace, counter := regPace)))
      else Some(e.(counter := 8))
  }

  /**
   * One envelope clock with the reload corrected: a reloaded pace of 0 sets
   * the counter to 8, as the zero-pace branch does.
   */
  function EnvelopeClock(e: Envelope, regPace: int): (r: Envelope)
    requires EnvelopeOk(e) && 0 <= regPace <= 7
    ensures EnvelopeOk(r)
    ensures r.increasing == e.increasing
    ensures e.counter > 1 ==> r == e.(counter := e.counter - 1)
  {
    var c := e.counter - 1;
    if c != 0 then e.(counter := c)
    else if e.pace != 0 then
      StepEnvelopeValue(e.(pace := regPace, counter := if regPace != 0 then regPace else 8))
    else e.(counter := 8)
  }

  /**
   * The reload of the source sets the counter to 0 when the register's pace
   * was rewritten to 0, and the next clock then decrements 0.
   */
  lemma EnvelopeCounterUnderflow()
    ensures var e := Envelope(1, 1, false, 15);
      EnvelopeClockAsWritten(e, 0).Some?
      && EnvelopeClockAsWritten(e, 0).value.counter == 0
      && EnvelopeClockAsWritten(EnvelopeClockAsWritten(e, 0).value, 0).None?
  {
  }

  /** The corrected clock agrees with the source whenever the source does not reload a zero pace. */
  lemma EnvelopeClockAgrees(e: Envelope, regPace: int)
    requires EnvelopeOk(e) && 0 <= regPace <= 7
    requires regPace != 0 || e.counter != 1 || e.pace == 0
    ensures EnvelopeClockAsWritten(e, regPace) == Some(EnvelopeClock(e, regPace))
  {
  }

  /** Clocking an envelope a counter's worth of times steps the volume at most once per reload. */
  lemma EnvelopeClockStepsOnlyAtZero(e: Envelope, regPace: int)
    requires EnvelopeOk(e) && 0 <= regPace <= 7
    ensures EnvelopeClock(e, regPace).volume != e.volume ==> e.counter == 1 && e.pace != 0
  {
  }

  // ---------------------------------------------------------------------
  // The whole APU state
  // ---------------------------------------------------------------------

  /**
   * The Apu struct: the sequencer step, the channel 1 sweep shadow state,
   * the cached envelopes of channels 1, 2 and 4, and the register bytes.
   */
  datatype ApuState = ApuState(
    divApu: int,
    sweepPace: int,
    sweepCounter: int,
    sweepEnabled: bool,
    frequency: int,
    negateExecuted: bool,
    env1: Envelope,
    env2: Envelope,
    env4: Envelope,
    mem: ApuMem)

  /** The channel 1 sweep shadow state. */
  function SweepPart(s: ApuState): (int, int, int, bool, bool)
  {
    (s.sweepPace, s.sweepCounter, s.frequency, s.negateExecuted, s.sweepEnabled)
  }

  /** The ranges every operation keeps. */
  predicate StateOk(s: ApuState)
  {
    0 <= s.divApu <= 7 && 0 <= s.sweepPace <= 7 && 0 <= s.sweepCounter <= 255
    && 0 <= s.frequency <= 0x7FF
    && EnvelopeOk(s.env1) && EnvelopeOk(s.env2) && EnvelopeOk(s.env4)
  }

  function Env(s: ApuState, ch: Channel): Envelope
    requires ch != Ch3
  {
    match ch
    case Ch1 => s.env1
    case Ch2 => s.env2
    case Ch4 => s.env4
  }

  function WithEnv(s: ApuState, ch: Channel, e: Envelope): (r: ApuState)
    requires ch != Ch3
    ensures Env(r, ch) == e
  {
    match ch
    case Ch1 => s.(env1 := e)
    case Ch2 => s.(env2 := e)
    case Ch4 => s.(env4 := e)
  }

  // ---------------------------------------------------------------------
  // Channel 1 frequency sweep
  // ---------------------------------------------------------------------

  /** `v >> k` on a non-negative value: k halvings. */
  function Shr(v: int, k: nat): (r: int)
    requires 0 <= v
    ensures 0 <= r <= v
    ensures k > 0 ==> r <= v / 2
  {
    if k == 0 then v else Shr(v / 2, k - 1)
  }

  /** The byte NR14 gets when the frequency's bits 8-10 are written: its other bits are kept. */
  function Nr14WithHigh(b: bv8, high: bv8): bv8
  {
    (b & !7) | (high & 7)
  }

  /** The sweep's write-back: the low byte to NR13, bits 8-10 to NR14's low three bits. */
  function WriteFrequency1(m: ApuMem, n: int): (r: ApuMem)
    requires 0 <= n <= 0x7FF
  {
    m[Nr13 := (n % 256) as bv8][Nr14 := Nr14WithHigh(m[Nr14], (n / 256) as bv8)]
  }

  lemma Nr14WithHighBits(b: bv8, high: bv8)
    requires high <= 7
    ensures Nr14WithHigh(b, high) & 7 == high
    ensures Nr14WithHigh(b, high) & 0xF8 == b & 0xF8
  {
  }

  /** A byte-sized int survives the trip through bv8. */
  lemma ByteValue(v: int)
    requires 0 <= v < 256
    ensures (v as bv8) as int == v
  {
    var w: bv16 := v as bv16;
    assert w < 256;
    assert (w as bv8) as int == w as int;
  }

  /** Reading the frequency back after the write-back gives the value written; NR14's upper bits are kept. */
  lemma WriteFrequency1ReadBack(m: ApuMem, n: int)
    requires 0 <= n <= 0x7FF
    ensures Frequency1(WriteFrequency1(m, n)) == n
    ensures WriteFrequency1(m, n)[Nr14] & 0xF8 == m[Nr14] & 0xF8
  {
    var lo := (n % 256) as bv8;
    var hi := (n / 256) as bv8;
    var r := WriteFrequency1(m, n);
    assert r[Nr13] == lo && r[Nr14] == Nr14WithHigh(m[Nr14], hi);
    ByteValue(n % 256);
    ByteValue(n / 256);
    Nr14WithHighBits(m[Nr14], hi);
    assert (r[Nr14] & 7) as int == n / 256;
  }

  /** The write-back touches only NR13 and NR14. */
  lemma WriteFrequency1Frame(m: ApuMem, n: int)
    requires 0 <= n <= 0x7FF
    ensures forall i :: 0 <= i < ApuMemSize && i != Nr13 && i != Nr14 ==> WriteFrequency1(m, n)[i] == m[i]
  {
  }

  /**
   * channel1_sweep_step_overflow_logic: with an increasing sweep, a next
   * frequency above 0x7FF turns channel 1 off; a decreasing sweep records
   * that a negation happened.
   */
  function SweepOverflowCheck(s: ApuState): (r: ApuState)
    requires 0 <= s.frequency <= 0x7FF
    ensures r.(mem := s.mem, negateExecuted := s.negateExecuted) == s
    ensures r.mem[Nr13] == s.mem[Nr13] && r.mem[Nr14] == s.mem[Nr14]
    ensures r.mem == s.mem[Nr52 := r.mem[Nr52]]
  {
    if SweepIncrease(s.mem) then
      (if s.frequency + Shr(s.frequency, SweepShift(s.mem)) > 0x7FF then s.(mem := UnsetSound(s.mem, Ch1)) else s)
    else s.(negateExecuted := true)
  }

  /** The write-back of a new frequency to the shadow register and to NR13/NR14. */
  function WriteBack(s: ApuState, n: int): (r: ApuState)
    requires 0 <= n <= 0x7FF
    ensures r.frequency == n && Frequency1(r.mem) == n
    ensures r.mem[Nr14] & 0xF8 == s.mem[Nr14] & 0xF8
    ensures r.(frequency := s.frequency, mem := s.mem) == s
  {
    WriteFrequency1ReadBack(s.mem, n);
    s.(frequency := n, mem := WriteFrequency1(s.mem, n))
  }

  /** The next frequency of a sweep step: freq plus or minus freq >> shift. */
  function SweepTarget(s: ApuState): int
    requires 0 <= s.frequency <= 0x7FF
  {
    if SweepIncrease(s.mem) then s.frequency + Shr(s.frequency, SweepShift(s.mem))
    else s.frequency - Shr(s.frequency, SweepShift(s.mem))
  }

  /**
   * channel1_sweep_step: an increasing step past 0x7FF only turns channel 1
   * off; otherwise, unless the shift is 0, the new frequency is stored in the
   * shadow register and in NR13/NR14 and checked once more for overflow.
   */
  function SweepStep(s: ApuState): (r: ApuState)
    requires 0 <= s.frequency <= 0x7FF
    ensures 0 <= r.frequency <= 0x7FF
    ensures r.(mem := s.mem, negateExecuted := s.negateExecuted, frequency := s.frequency) == s
  {
    var freq := s.frequency;
    var shift := SweepShift(s.mem);
    if SweepIncrease(s.mem) && freq + Shr(freq, shift) > 0x7FF then s.(mem := UnsetSound(s.mem, Ch1))
    else
      var s1 := if SweepIncrease(s.mem) then s else s.(negateExecuted := true);
      var n := SweepTarget(s);
      if shift != 0 then SweepOverflowCheck(WriteBack(s1, n))
      else s1
  }

  /** An increasing step past 0x7FF only turns channel 1 off. */
  lemma SweepStepOverflow(s: ApuState)
    requires 0 <= s.frequency <= 0x7FF
    requires SweepIncrease(s.mem) && SweepTarget(s) > 0x7FF
    ensures SweepStep(s) == s.(mem := UnsetSound(s.mem, Ch1))
    ensures !SoundOn(SweepStep(s).mem, Ch1)
  {
    UnsetSoundEffect(s.mem, Ch1, Ch1);
  }

  /** With shift 0 the frequency and the registers stay as they were. */
  lemma SweepStepNoShift(s: ApuState)
    requires 0 <= s.frequency <= 0x7FF
    requires SweepShift(s.mem) == 0 && !(SweepIncrease(s.mem) && SweepTarget(s) > 0x7FF)
    ensures SweepStep(s).frequency == s.frequency && SweepStep(s).mem == s.mem
  {
  }

  /**
   * Otherwise the new frequency is in the shadow register and reads back
   * from NR13/NR14, whose upper bits are kept.
   */
  lemma SweepStepWritesBack(s: ApuState)
    requires 0 <= s.frequency <= 0x7FF
    requires SweepShift(s.mem) != 0 && !(SweepIncrease(s.mem) && SweepTarget(s) > 0x7FF)
    ensures SweepStep(s).frequency == SweepTarget(s)
    ensures Frequency1(SweepStep(s).mem) == SweepTarget(s)
    ensures SweepStep(s).mem[Nr14] & 0xF8 == s.mem[Nr14] & 0xF8
  {
    var s1 := if SweepIncrease(s.mem) then s else s.(negateExecuted := true);
    var t := WriteBack(s1, SweepTarget(s));
    assert SweepStep(s) == SweepOverflowCheck(t);
  }

  /**
   * The sweep clock of Apu::step: with the sweep enabled and channel 1 on,
   * the counter counts down with wrap-around; at 0 a non-zero register pace
   * reloads pace and counter and runs a sweep step, and a zero one reloads 8.
   */
  function ClockSweep(s: ApuState): (r: ApuState)
    requires StateOk(s)
    ensures StateOk(r)
    ensures r.divApu == s.divApu && r.sweepEnabled == s.sweepEnabled
    ensures r.env1 == s.env1 && r.env2 == s.env2 && r.env4 == s.env4
  {
    if s.sweepEnabled && SoundOn(s.mem, Ch1) then
      var c := (s.sweepCounter - 1) % 256;
      if c == 0 then
        (if SweepPaceReg(s.mem) != 0
         then SweepStep(s.(sweepPace := SweepPaceReg(s.mem), sweepCounter := SweepPaceReg(s.mem)))
         else s.(sweepCounter := 8))
      else s.(sweepCounter := c)
    else s
  }

  // ---------------------------------------------------------------------
  // The frame sequencer
  // ---------------------------------------------------------------------

  /** The envelope clock of one channel, when the channel is on. */
  function ClockEnvelope(s: ApuState, ch: Channel): (r: ApuState)
    requires ch != Ch3 && StateOk(s)
    ensures StateOk(r)
    ensures r.mem == s.mem && r.divApu == s.divApu && SweepPart(r) == SweepPart(s)
    ensures forall other :: other != Ch3 && other != ch ==> Env(r, other) == Env(s, other)
    ensures !SoundOn(s.mem, ch) ==> r == s
  {
    if SoundOn(s.mem, ch) then WithEnv(s, ch, EnvelopeClock(Env(s, ch), EnvPaceReg(s.mem, ch))) else s
  }

  function ClockEnvelopes(s: ApuState): (r: ApuState)
    requires StateOk(s)
    ensures StateOk(r)
    ensures r.mem == s.mem && r.divApu == s.divApu && SweepPart(r) == SweepPart(s)
    ensures forall ch :: ch != Ch3 && !SoundOn(s.mem, ch) ==> Env(r, ch) == Env(s, ch)
  {
    ClockEnvelope(ClockEnvelope(ClockEnvelope(s, Ch1), Ch2), Ch4)
  }

  /** The four length counters, in channel order. */
  function ClockLengths(m: ApuMem): ApuMem
  {
    IncLength(IncLength3(IncLength(IncLength(m, Ch1), Ch2)), Ch4)
  }

  /** The envelope clocks, run when div_apu is 7. */
  function EnvelopePhase(s: ApuState): (r: ApuState)
    requires StateOk(s)
    ensures StateOk(r)
    ensures r.mem == s.mem && r.divApu == s.divApu && SweepPart(r) == SweepPart(s)
    ensures s.divApu != 7 ==> r == s
    ensures forall ch :: ch != Ch3 && !SoundOn(s.mem, ch) ==> Env(r, ch) == Env(s, ch)
  {
    if s.divApu == 7 then ClockEnvelopes(s) else s
  }

  /** The sweep clock, run when div_apu is 2 or 6. */
  function SweepPhase(s: ApuState): (r: ApuState)
    requires StateOk(s)
    ensures StateOk(r)
    ensures r.divApu == s.divApu && r.sweepEnabled == s.sweepEnabled
    ensures r.env1 == s.env1 && r.env2 == s.env2 && r.env4 == s.env4
    ensures s.divApu % 4 != 2 ==> r == s
  {
    if s.divApu % 4 == 2 then ClockSweep(s) else s
  }

  /** The length clocks, run when div_apu is even. */
  function LengthPhase(s: ApuState): (r: ApuState)
    requires StateOk(s)
    ensures StateOk(r)
    ensures r.divApu == s.divApu && SweepPart(r) == SweepPart(s)
    ensures r.env1 == s.env1 && r.env2 == s.env2 && r.env4 == s.env4
    ensures s.divApu % 2 == 1 ==> r == s
    ensures s.divApu % 2 == 0 ==> r.mem == ClockLengths(s.mem)
  {
    if s.divApu % 2 == 0 then s.(mem := ClockLengths(s.mem)) else s
  }

  /**
   * Apu::step: div_apu advances modulo 8; at 7 the envelopes are clocked,
   * at 2 and 6 the sweep, and at every even value the length counters.
   */
  function StepSpec(s: ApuState): (r: ApuState)
    requires StateOk(s)
    ensures StateOk(r)
  {
    LengthPhase(SweepPhase(EnvelopePhase(s.(divApu := (s.divApu + 1) % 8))))
  }

  /** step advances div_apu modulo 8 and never changes whether the sweep is enabled. */
  lemma StepAdvances(s: ApuState)
    requires StateOk(s)
    ensures StepSpec(s).divApu == (s.divApu + 1) % 8
    ensures StepSpec(s).sweepEnabled == s.sweepEnabled
  {
    var s2 := EnvelopePhase(s.(divApu := (s.divApu + 1) % 8));
    assert StepSpec(s) == LengthPhase(SweepPhase(s2));
  }

  /** The envelopes are clocked only when div_apu becomes 7. */
  lemma StepEnvelopesOnlyAt7(s: ApuState)
    requires StateOk(s) && (s.divApu + 1) % 8 != 7
    ensures StepSpec(s).env1 == s.env1 && StepSpec(s).env2 == s.env2 && StepSpec(s).env4 == s.env4
  {
    var s2 := EnvelopePhase(s.(divApu := (s.divApu + 1) % 8));
    assert StepSpec(s) == LengthPhase(SweepPhase(s2));
  }

  /** The sweep state changes only when div_apu becomes 2 or 6. */
  lemma StepSweepOnlyAt2Or6(s: ApuState)
    requires StateOk(s) && (s.divApu + 1) % 4 != 2
    ensures SweepPart(StepSpec(s)) == SweepPart(s)
  {
    var d := (s.divApu + 1) % 8;
    assert d % 4 != 2;
    var s2 := EnvelopePhase(s.(divApu := d));
    assert SweepPart(s2) == SweepPart(s) && s2.divApu == d;
    assert SweepPhase(s2) == s2;
    assert SweepPart(LengthPhase(s2)) == SweepPart(s2);
  }

  /** The registers change only on even div_apu. */
  lemma StepKeepsRegistersOnOdd(s: ApuState)
    requires StateOk(s) && (s.divApu + 1) % 2 == 1
    ensures StepSpec(s).mem == s.mem
  {
    var d := (s.divApu + 1) % 8;
    assert d % 4 != 2 && d % 2 == 1;
    var s2 := EnvelopePhase(s.(divApu := d));
    assert s2.mem == s.mem && s2.divApu == d;
    assert SweepPhase(s2) == s2;
    assert LengthPhase(s2) == s2;
  }

  /** When div_apu becomes 0 or 4 the registers change only by the four length counters. */
  lemma StepLengthsAt0Or4(s: ApuState)
    requires StateOk(s) && (s.divApu + 1) % 4 == 0
    ensures StepSpec(s).mem == ClockLengths(s.mem)
  {
    var d := (s.divApu + 1) % 8;
    assert d % 4 == 0 && d % 2 == 0 && d != 7;
    var s2 := EnvelopePhase(s.(divApu := d));
    assert s2 == s.(divApu := d);
    assert SweepPhase(s2) == s2;
    assert LengthPhase(s2).mem == ClockLengths(s.mem);
  }

  /** An envelope is clocked only for a channel that is on. */
  lemma EnvelopeOnlyWhenOn(s: ApuState, ch: Channel)
    requires StateOk(s) && ch != Ch3 && !SoundOn(s.mem, ch)
    ensures Env(StepSpec(s), ch) == Env(s, ch)
  {
    var s1 := s.(divApu := (s.divApu + 1) % 8);
    assert s1.mem == s.mem && Env(s1, ch) == Env(s, ch);
    var s2 := EnvelopePhase(s1);
    var s3 := SweepPhase(s2);
    assert StepSpec(s) == LengthPhase(s3);
  }

  // ---------------------------------------------------------------------
  // Triggering and power
  // ---------------------------------------------------------------------

  /** An envelope loaded from the channel's NRx2: a zero pace gives counter 8. */
  function LoadEnvelope(m: ApuMem, ch: Channel): (e: Envelope)
    requires ch != Ch3
    ensures EnvelopeOk(e)
    ensures e.pace == EnvPaceReg(m, ch) && e.volume == EnvVolumeReg(m, ch)
    ensures e.increasing <==> EnvIncreasingReg(m, ch)
    ensures e.counter == if e.pace != 0 then e.pace else 8
  {
    var pace := EnvPaceReg(m, ch);
    Envelope(pace, if pace != 0 then pace else 8, EnvIncreasingReg(m, ch), EnvVolumeReg(m, ch))
  }

  /**
   * set_sound1: turns channel 1 on and reloads its shadow state from the
   * registers (frequency, sweep pace and counter, envelope); a non-zero
   * sweep shift runs the overflow check at once.
   */
  function SetSound1(s: ApuState): (r: ApuState)
    requires StateOk(s)
    ensures StateOk(r)
    ensures r.divApu == s.divApu && r.env2 == s.env2 && r.env4 == s.env4
    ensures r.frequency == Frequency1(s.mem) && r.env1 == LoadEnvelope(s.mem, Ch1)
    ensures r.sweepEnabled <==> SweepShift(s.mem) > 0 || SweepPaceReg(s.mem) > 0
    ensures r.mem == s.mem[Nr52 := r.mem[Nr52]]
  {
    var m := SetSoundBit(s.mem, Ch1);
    var pace := SweepPaceReg(m);
    var s1 := s.(mem := m, frequency := Frequency1(m), sweepPace := pace,
                 sweepCounter := if pace != 0 then pace else 8,
                 env1 := LoadEnvelope(m, Ch1), negateExecuted := false,
                 sweepEnabled := SweepShift(m) > 0 || pace > 0);
    if SweepShift(m) > 0 then SweepOverflowCheck(s1) else s1
  }

  /** set_sound2 and set_sound4: the channel goes on and its envelope is reloaded. */
  function SetSoundEnv(s: ApuState, ch: Channel): (r: ApuState)
    requires ch == Ch2 || ch == Ch4
    requires StateOk(s)
    ensures StateOk(r)
    ensures SoundOn(r.mem, ch) && Env(r, ch) == LoadEnvelope(s.mem, ch)
    ensures forall other :: other != ch ==> SoundOn(r.mem, other) == SoundOn(s.mem, other)
  {
    var m := SetSoundBit(s.mem, ch);
    SetSoundBitEffect(s.mem, ch, Ch1);
    SetSoundBitEffect(s.mem, ch, Ch2);
    SetSoundBitEffect(s.mem, ch, Ch3);
    SetSoundBitEffect(s.mem, ch, Ch4);
    WithEnv(s.(mem := m), ch, LoadEnvelope(m, ch))
  }

  /** set_sound_all: powering on from off restarts the sequencer at 7; then NR52 bit 7 is set. */
  function SetSoundAll(s: ApuState): (r: ApuState)
    requires StateOk(s)
    ensures StateOk(r)
  {
    var d := if !SoundAll(s.mem) then 7 else s.divApu;
    s.(divApu := d, mem := s.mem[Nr52 := s.mem[Nr52] | 0x80])
  }

  /** unset_sound_all's effect on the registers: 0xFF10..=0xFF2F become 0, wave RAM is kept. */
  function PowerOffMem(m: ApuMem): (r: ApuMem)
  {
    seq(ApuMemSize, i requires 0 <= i < ApuMemSize => if i < 0x20 then 0 else m[i])
  }

  /** unset_sound_all's bit updates before the zeroing loop: the four channel bits, then bit 7. */
  function ClearStatusBits(m: ApuMem): (r: ApuMem)
    ensures forall i :: 0 <= i < ApuMemSize && i != Nr52 ==> r[i] == m[i]
  {
    var m1 := UnsetSound(UnsetSound(UnsetSound(UnsetSound(m, Ch1), Ch2), Ch3), Ch4);
    m1[Nr52 := m1[Nr52] & !0x80]
  }

  predicate AllChannelsOff(m: ApuMem)
  {
    forall ch :: !SoundOn(m, ch)
  }

  /** Powering off leaves every channel and the APU off, and keeps wave RAM. */
  lemma PowerOffSilences(m: ApuMem)
    ensures !SoundAll(PowerOffMem(m))
    ensures AllChannelsOff(PowerOffMem(m))
    ensures forall i :: 0x20 <= i < ApuMemSize ==> PowerOffMem(m)[i] == m[i]
  {
    assert PowerOffMem(m)[Nr52] == 0;
  }

  /** The zeroing loop overwrites the status-bit updates, so they leave no trace. */
  lemma PowerOffAfterClear(m: ApuMem)
    ensures PowerOffMem(ClearStatusBits(m)) == PowerOffMem(m)
  {
  }

  // ---------------------------------------------------------------------
  // Register writes
  // ---------------------------------------------------------------------

  /**
   * The NR10 write: bit 7 is dropped; a pace going from 0 to non-zero is
   * cached; switching from subtract to add after a negation turns channel 1 off.
   */
  function WriteNr10(s: ApuState, v: bv8): (r: ApuState)
    requires StateOk(s)
    ensures StateOk(r)
    ensures r.mem[Nr10] == v & 0x7F
  {
    var oldPace := SweepPaceReg(s.mem);
    var oldSubtract := !SweepIncrease(s.mem);
    var m := s.mem[Nr10 := v & 0x7F];
    var s1 := if oldPace == 0 && SweepPaceReg(m) != 0 then s.(mem := m, sweepPace := SweepPaceReg(m)) else s.(mem := m);
    if oldSubtract && SweepIncrease(m) && s.negateExecuted then s1.(mem := UnsetSound(m, Ch1)) else s1
  }

  /** The NRx2 writes of channels 1, 2 and 4: a zero DAC (top five bits) turns the channel off. */
  function WriteEnvelopeReg(s: ApuState, ch: Channel, v: bv8): (r: ApuState)
    requires ch != Ch3
    ensures r == s.(mem := r.mem)
    ensures r.mem[EnvelopeReg(ch)] == v
  {
    var m := if v >> 3 == 0 then UnsetSound(s.mem, ch) else s.mem;
    s.(mem := m[EnvelopeReg(ch) := v])
  }

  /** The NR30 write: bit 7 clear (DAC off) turns channel 3 off; the DAC never turns it on. */
  function WriteNr30(s: ApuState, v: bv8): (r: ApuState)
    ensures r == s.(mem := r.mem)
    ensures r.mem[Nr30] == v
  {
    var m := if v >> 7 == 0 then UnsetSound(s.mem, Ch3) else s.mem;
    s.(mem := m[Nr30 := v])
  }

  /**
   * The length-enable edge of an NR14/NR24 write: turning length on in the
   * first half of a length period, with a non-zero length, counts once.
   */
  function LengthEnableEdge(m: ApuMem, oldEnabled: bool, divApu: int, ch: Channel): (r: ApuMem)
    requires ch == Ch1 || ch == Ch2
  {
    if LengthEnabled(m, ch) && !oldEnabled && divApu % 2 != 1 && LengthField(m, ch) != 0 then IncLength(m, ch) else m
  }

  /** On a trigger with a zero length, an enabled length in the first half of a period counts once. */
  function TriggerLength(m: ApuMem, divApu: int, ch: Channel): (r: ApuMem)
    requires ch == Ch1 || ch == Ch2
  {
    if LengthField(m, ch) == 0 && LengthEnabled(m, ch) && divApu % 2 != 1 then IncLength(m, ch) else m
  }

  /**
   * The NR14 write: the byte is stored, the length-enable edge is applied,
   * and bit 7 triggers channel 1, which is turned off again at once when
   * its DAC (NR12's top five bits) is off.
   */
  function WriteNr14(s: ApuState, v: bv8): (r: ApuState)
    requires StateOk(s)
    ensures StateOk(r)
  {
    var m := s.mem[Nr14 := v];
    var m1 := LengthEnableEdge(m, LengthEnabled(s.mem, Ch1), s.divApu, Ch1);
    if v >> 7 == 1 then
      var s2 := SetSound1(s.(mem := TriggerLength(m1, s.divApu, Ch1)));
      if s2.mem[Nr12] >> 3 == 0 then s2.(mem := UnsetSound(s2.mem, Ch1)) else s2
    else s.(mem := m1)
  }

  /** The NR24 write: as NR14, but channel 2 is triggered only when its DAC is on. */
  function WriteNr24(s: ApuState, v: bv8): (r: ApuState)
    requires StateOk(s)
    ensures StateOk(r)
  {
    var m := s.mem[Nr24 := v];
    var m1 := LengthEnableEdge(m, LengthEnabled(s.mem, Ch2), s.divApu, Ch2);
    if v >> 7 == 1 then
      var m2 := TriggerLength(m1, s.divApu, Ch2);
      if m2[Nr22] >> 3 != 0 then SetSoundEnv(s.(mem := m2), Ch2) else s.(mem := m2)
    else s.(mem := m1)
  }

  /** The NR34 write: a trigger turns channel 3 on only when its DAC (NR30 bit 7) is on; the byte is stored. */
  function WriteNr34(s: ApuState, v: bv8): (r: ApuState)
    ensures r == s.(mem := r.mem)
  {
    var m := if v >> 7 == 1 && s.mem[Nr30] >> 7 == 1 then SetSoundBit(s.mem, Ch3) else s.mem;
    s.(mem := m[Nr34 := v])
  }

  /** The NR44 write: a trigger turns channel 4 on only when its DAC is on; the byte is stored. */
  function WriteNr44(s: ApuState, v: bv8): (r: ApuState)
    requires StateOk(s)
    ensures StateOk(r)
  {
    var s1 := if v >> 7 == 1 && s.mem[Nr42] >> 3 != 0 then SetSoundEnv(s, Ch4) else s;
    s1.(mem := s1.mem[Nr44 := v])
  }

  /** The NR52 write: bit 7 clear powers off, bit 7 set powers on; the other bits are not written. */
  function WriteNr52(s: ApuState, v: bv8): (r: ApuState)
    requires StateOk(s)
    ensures StateOk(r)
  {
    if (v >> 7) & 1 == 0 then s.(mem := PowerOffMem(ClearStatusBits(s.mem))) else SetSoundAll(s)
  }

  /**
   * Apu::set_mem: while the APU is off, writes to 0xFF10..=0xFF25 are
   * ignored; the control registers have their own rules and every other
   * register (NR11, NR13, NR21, ..., wave RAM) stores the byte.
   */
  function SetMemSpec(s: ApuState, addr: int, v: bv8): (r: ApuState)
    requires StateOk(s) && IsApuAddr(addr)
    ensures StateOk(r)
  {
    var i := addr - ApuBase;
    if !SoundAll(s.mem) && addr <= 0xFF25 then s
    else if i == Nr10 then WriteNr10(s, v)
    else if i == Nr12 then WriteEnvelopeReg(s, Ch1, v)
    else if i == Nr22 then WriteEnvelopeReg(s, Ch2, v)
    else if i == Nr42 then WriteEnvelopeReg(s, Ch4, v)
    else if i == Nr30 then WriteNr30(s, v)
    else if i == Nr14 then WriteNr14(s, v)
    else if i == Nr24 then WriteNr24(s, v)
    else if i == Nr34 then WriteNr34(s, v)
    else if i == Nr44 then WriteNr44(s, v)
    else if i == Nr52 then WriteNr52(s, v)
    else s.(mem := s.mem[i := v])
  }

  /** While the APU is off, writes to 0xFF10..=0xFF25 change nothing. */
  lemma SetMemIgnoredWhenOff(s: ApuState, addr: int, v: bv8)
    requires StateOk(s) && IsApuAddr(addr) && addr <= 0xFF25
    requires !SoundAll(s.mem)
    ensures SetMemSpec(s, addr, v) == s
  {
  }

  /** Writing NR52 with bit 7 clear turns everything off and zeroes 0xFF10..=0xFF2F, keeping wave RAM. */
  lemma SetMemPowerOff(s: ApuState, v: bv8)
    requires StateOk(s) && (v >> 7) & 1 == 0
    ensures SetMemSpec(s, ApuBase + Nr52, v) == s.(mem := PowerOffMem(s.mem))
    ensures !SoundAll(SetMemSpec(s, ApuBase + Nr52, v).mem)
    ensures AllChannelsOff(SetMemSpec(s, ApuBase + Nr52, v).mem)
  {
    PowerOffAfterClear(s.mem);
    PowerOffSilences(s.mem);
  }

  /** Writing NR52 with bit 7 set sets only bit 7; from off, the sequencer restarts at 7. */
  lemma SetMemPowerOn(s: ApuState, v: bv8)
    requires StateOk(s) && (v >> 7) & 1 == 1
    ensures SetMemSpec(s, ApuBase + Nr52, v).mem == s.mem[Nr52 := s.mem[Nr52] | 0x80]
    ensures SoundAll(SetMemSpec(s, ApuBase + Nr52, v).mem)
    ensures forall ch :: SoundOn(SetMemSpec(s, ApuBase + Nr52, v).mem, ch) == SoundOn(s.mem, ch)
    ensures SetMemSpec(s, ApuBase + Nr52, v).divApu == if SoundAll(s.mem) then s.divApu else 7
  {
  }

  /** Writing NR12, NR22 or NR42 with the top five bits zero turns that channel off. */
  lemma SetMemDacOff(s: ApuState, ch: Channel, v: bv8)
    requires StateOk(s) && ch != Ch3 && SoundAll(s.mem)
    requires v >> 3 == 0
    ensures !SoundOn(SetMemSpec(s, ApuBase + EnvelopeReg(ch), v).mem, ch)
    ensures SetMemSpec(s, ApuBase + EnvelopeReg(ch), v).mem[EnvelopeReg(ch)] == v
  {
    UnsetSoundEffect(s.mem, ch, ch);
    assert SetMemSpec(s, ApuBase + EnvelopeReg(ch), v) == WriteEnvelopeReg(s, ch, v);
  }

  /** Writing NR30 with bit 7 clear turns channel 3 off. */
  lemma SetMemNr30Off(s: ApuState, v: bv8)
    requires StateOk(s) && SoundAll(s.mem)
    requires v >> 7 == 0
    ensures !SoundOn(SetMemSpec(s, ApuBase + Nr30, v).mem, Ch3)
  {
    UnsetSoundEffect(s.mem, Ch3, Ch3);
  }

  /** Writing a plain register (here NRx1, the length registers) while powered stores the byte and nothing else. */
  lemma SetMemStoresLength(s: ApuState, ch: Channel, v: bv8)
    requires StateOk(s) && SoundAll(s.mem)
    ensures SetMemSpec(s, ApuBase + LengthReg(ch), v) == s.(mem := s.mem[LengthReg(ch) := v])
  {
  }

  /** Wave RAM is written whether or not the APU is on. */
  lemma SetMemWaveRam(s: ApuState, addr: int, v: bv8)
    requires StateOk(s) && 0xFF30 <= addr < ApuBase + ApuMemSize
    ensures SetMemSpec(s, addr, v) == s.(mem := s.mem[addr - ApuBase := v])
  {
  }

  /** A trigger of channel 2, 3 or 4 with its DAC on turns the channel on. */
  lemma SetMemTriggerDacOn(s: ApuState, ch: Channel, v: bv8)
    requires StateOk(s) && SoundAll(s.mem) && ch != Ch1
    requires v >> 7 == 1
    requires ch == Ch3 ==> s.mem[Nr30] >> 7 == 1
    requires ch != Ch3 ==> s.mem[EnvelopeReg(ch)] >> 3 != 0
    ensures SoundOn(SetMemSpec(s, ApuBase + ControlReg(ch), v).mem, ch)
  {
    if ch == Ch3 {
      SetSoundBitEffect(s.mem, Ch3, Ch3);
    } else if ch == Ch2 {
      var m1 := LengthEnableEdge(s.mem[Nr24 := v], LengthEnabled(s.mem, Ch2), s.divApu, Ch2);
      var m2 := TriggerLength(m1, s.divApu, Ch2);
      assert m2[Nr22] == s.mem[Nr22];
    }
  }

  /** A trigger of channel 1 with its DAC off leaves it off. */
  lemma WriteNr14DacOff(s: ApuState, v: bv8)
    requires StateOk(s)
    requires v >> 7 == 1 && s.mem[Nr12] >> 3 == 0
    ensures !SoundOn(WriteNr14(s, v).mem, Ch1)
  {
    var m1 := LengthEnableEdge(s.mem[Nr14 := v], LengthEnabled(s.mem, Ch1), s.divApu, Ch1);
    var m2 := TriggerLength(m1, s.divApu, Ch1);
    assert m2[Nr12] == s.mem[Nr12];
    var s2 := SetSound1(s.(mem := m2));
    assert s2.mem[Nr12] == s.mem[Nr12];
    UnsetSoundEffect(s2.mem, Ch1, Ch1);
  }

  lemma SetMemTriggerDacOff(s: ApuState, v: bv8)
    requires StateOk(s) && SoundAll(s.mem)
    requires v >> 7 == 1 && s.mem[Nr12] >> 3 == 0
    ensures !SoundOn(SetMemSpec(s, ApuBase + Nr14, v).mem, Ch1)
  {
    WriteNr14DacOff(s, v);
  }

  // ---------------------------------------------------------------------
  // CPU-visible reads
  // ---------------------------------------------------------------------

  /**
   * The bits of each register that read as 1 whatever is stored: write-only
   * bits, unused bits and unused registers. Wave RAM reads back as stored.
   */
  function ReadMask(i: int): (mask: bv8)
    requires 0 <= i < ApuMemSize
  {
    if i == 0x00 then 0x80
    else if i == 0x01 || i == 0x06 then 0x3F
    else if i == 0x04 || i == 0x09 || i == 0x0E || i == 0x13 then 0xBF
    else if i == 0x0A then 0x7F
    else if i == 0x0C then 0x9F
    else if i == 0x16 then 0x70
    else if i == 0x03 || i == 0x05 || i == 0x08 || i == 0x0B || i == 0x0D || i == 0x0F || i == 0x10 then 0xFF
    else if 0x17 <= i <= 0x1F then 0xFF
    else 0
  }

  /** What a CPU read sees: the stored byte with the unreadable bits forced to 1. */
  function ApuRead(m: ApuMem, addr: int): (r: bv8)
    requires IsApuAddr(addr)
  {
    m[addr - ApuBase] | ReadMask(addr - ApuBase)
  }

  /** A read shows exactly the readable bits of the stored byte, and 1s elsewhere. */
  lemma ReadShowsReadableBits(m: ApuMem, addr: int)
    requires IsApuAddr(addr)
    ensures ApuRead(m, addr) & ReadMask(addr - ApuBase) == ReadMask(addr - ApuBase)
    ensures ApuRead(m, addr) & !ReadMask(addr - ApuBase) == m[addr - ApuBase] & !ReadMask(addr - ApuBase)
  {
    OrMaskBits(m[addr - ApuBase], ReadMask(addr - ApuBase));
  }

  lemma OrMaskBits(b: bv8, k: bv8)
    ensures (b | k) & k == k && (b | k) & !k == b & !k
  {
  }

  /** The write-only and unused registers read as 0xFF whatever is stored. */
  lemma WriteOnlyReadsFF(m: ApuMem, addr: int)
    requires addr in {0xFF13, 0xFF15, 0xFF18, 0xFF1B, 0xFF1D, 0xFF1F, 0xFF20} || 0xFF27 <= addr <= 0xFF2F
    ensures ApuRead(m, addr) == 0xFF
  {
  }

  /** Reading NR52 shows the power bit and the four channel bits; bits 4-6 read as 1. */
  lemma ReadNr52(m: ApuMem)
    ensures ApuRead(m, ApuBase + Nr52) & 0x8F == m[Nr52] & 0x8F
    ensures ApuRead(m, ApuBase + Nr52) & 0x70 == 0x70
  {
    ReadShowsReadableBits(m, ApuBase + Nr52);
  }

  // ---------------------------------------------------------------------
  // Construction and reset
  // ---------------------------------------------------------------------

  /** Apu::new: all registers zero (so powered off), div_apu 7, counters 8, envelopes increasing from 0. */
  function NewState(): (r: ApuState)
    ensures StateOk(r)
  {
    ApuState(7, 0, 8, true, 0, false, Envelope(0, 8, true, 0), Envelope(0, 8, true, 0), Envelope(0, 8, true, 0),
             seq(ApuMemSize, _ => 0))
  }

  /** A new APU is powered off, so it ignores writes to 0xFF10..=0xFF25. */
  lemma NewIgnoresWrites(addr: int, v: bv8)
    requires IsApuAddr(addr) && addr <= 0xFF25
    ensures !SoundAll(NewState().mem)
    ensures SetMemSpec(NewState(), addr, v) == NewState()
  {
  }

  /** The post-boot register values of reset, 0xFF10..=0xFF26; NR52 depends on SGB mode. */
  function ResetMem(m: ApuMem, sgb: bool): (r: ApuMem)
  {
    m[0x00 := 0x80][0x01 := 0xBF][0x02 := 0xF3][0x03 := 0xFF][0x04 := 0xBF][0x06 := 0x3F][0x07 := 0x00]
     [0x08 := 0xFF][0x09 := 0xBF][0x0A := 0x7F][0x0B := 0xFF][0x0C := 0x9F][0x0E := 0xBF][0x10 := 0xFF]
     [0x11 := 0x00][0x12 := 0x00][0x13 := 0xBF][0x14 := 0x77][0x15 := 0xF3][0x16 := if sgb then 0xF0 else 0xF1]
  }

  /** The shadow state reset reloads from the registers, with div_apu 7 and every counter 8. */
  function ResetFromRegs(s: ApuState, m: ApuMem): (r: ApuState)
    requires StateOk(s)
    ensures StateOk(r)
  {
    s.(mem := m, sweepPace := SweepPaceReg(m),
       env1 := Envelope(EnvPaceReg(m, Ch1), 8, EnvIncreasingReg(m, Ch1), EnvVolumeReg(m, Ch1)),
       frequency := Frequency1(m),
       env2 := Envelope(EnvPaceReg(m, Ch2), 8, EnvIncreasingReg(m, Ch2), EnvVolumeReg(m, Ch2)),
       env4 := Envelope(EnvPaceReg(m, Ch4), 8, EnvIncreasingReg(m, Ch4), EnvVolumeReg(m, Ch4)),
       divApu := 7, sweepCounter := 8)
  }

  /** Apu::reset. */
  function ResetSpec(s: ApuState, sgb: bool): (r: ApuState)
    requires StateOk(s)
    ensures StateOk(r)
  {
    ResetFromRegs(s, ResetMem(s.mem, sgb))
  }

  /** After reset the APU is on, with channel 1 on exactly outside SGB mode and the other channels off. */
  lemma ResetPowers(s: ApuState, sgb: bool)
    requires StateOk(s)
    ensures SoundAll(ResetSpec(s, sgb).mem)
    ensures SoundOn(ResetSpec(s, sgb).mem, Ch1) <==> !sgb
    ensures !SoundOn(ResetSpec(s, sgb).mem, Ch2) && !SoundOn(ResetSpec(s, sgb).mem, Ch3) && !SoundOn(ResetSpec(s, sgb).mem, Ch4)
  {
    assert ResetSpec(s, sgb).mem[Nr52] == if sgb then 0xF0 else 0xF1;
  }

  /** The shadow values reset derives from the post-boot registers. */
  lemma ResetShadowValues(s: ApuState, sgb: bool)
    requires StateOk(s)
    ensures ResetSpec(s, sgb).env1 == Envelope(3, 8, false, 15)
    ensures ResetSpec(s, sgb).env2 == Envelope(0, 8, false, 0) && ResetSpec(s, sgb).env4 == Envelope(0, 8, false, 0)
    ensures ResetSpec(s, sgb).frequency == 0x7FF && ResetSpec(s, sgb).sweepPace == 0
    ensures ResetSpec(s, sgb).divApu == 7 && ResetSpec(s, sgb).sweepCounter == 8
  {
    var m := ResetMem(s.mem, sgb);
    assert m[Nr10] == 0x80 && m[Nr12] == 0xF3 && m[Nr13] == 0xFF && m[Nr14] == 0xBF;
    assert m[Nr22] == 0 && m[Nr42] == 0;
  }

  /** The bytes reset does not write (0xFF15, 0xFF1D, 0xFF1F, and 0xFF27 upwards with wave RAM) are kept. */
  lemma ResetKeepsUnlisted(s: ApuState, sgb: bool, i: int)
    requires StateOk(s)
    requires i in {0x05, 0x0D, 0x0F} || 0x17 <= i < ApuMemSize
    ensures ResetSpec(s, sgb).mem[i] == s.mem[i]
  {
  }
}
