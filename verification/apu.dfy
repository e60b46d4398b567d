/**
 * The Apu struct of src/cpu/apu.rs as a class: its counters, cached
 * envelopes and sweep state are fields updated in place, and apu_mem
 * (0xFF10..=0xFF3F) is a fixed 0x30-byte array. Every method is proved to
 * take the state to the value the matching function of module ApuSpec gives.
 */
module Apu {
  import opened ApuSpec

  class Apu {
    var channel1SweepPace: int
    var channel1SweepCounter: int
    var channel1SweepEnabled: bool
    var channel1Frequency: int
    var channel1NegateExecuted: bool
    /** channel1_envelope_pace, _counter, _increasing and _volume. */
    var env1: Envelope
    /** The same four fields of channel 2. */
    var env2: Envelope
    /** The same four fields of channel 4. */
    var env4: Envelope
    var divApu: int
    const apuMem: array<bv8>

    /** The whole state as a value. */
    function State(): ApuState
      reads this, apuMem
      requires apuMem.Length == ApuMemSize
    {
      ApuState(divApu, channel1SweepPace, channel1SweepCounter, channel1SweepEnabled, channel1Frequency,
               channel1NegateExecuted, env1, env2, env4, apuMem[..])
    }

    predicate Valid()
      reads this, apuMem
    {
      apuMem.Length == ApuMemSize && StateOk(State())
    }

    /** Apu::new. */
    constructor ()
      ensures Valid() && State() == NewState() && fresh(apuMem)
    {
      channel1SweepPace := 0;
      channel1SweepCounter := 8;
      channel1SweepEnabled := true;
      channel1Frequency := 0;
      channel1NegateExecuted := false;
      env1 := Envelope(0, 8, true, 0);
      env2 := Envelope(0, 8, true, 0);
      env4 := Envelope(0, 8, true, 0);
      divApu := 7;
      apuMem := new bv8[ApuMemSize](_ => 0);
    }

    // -------------------------------------------------------------------
    // Channel status bits
    // -------------------------------------------------------------------

    /** unset_sound1..4. */
    method UnsetSound(ch: Channel)
      requires apuMem.Length == ApuMemSize
      modifies apuMem
      ensures apuMem[..] == ApuSpec.UnsetSound(old(apuMem[..]), ch)
    {
      apuMem[Nr52] := apuMem[Nr52] & !StatusBit(ch);
    }

    /**
     * unset_sound_all: the four channel bits and the power bit are cleared,
     * then 0xFF10..=0xFF2F are zeroed one by one.
     */
    method UnsetSoundAll()
      requires apuMem.Length == ApuMemSize
      modifies apuMem
      ensures apuMem[..] == PowerOffMem(ClearStatusBits(old(apuMem[..])))
    {
      UnsetSound(Ch1);
      UnsetSound(Ch2);
      UnsetSound(Ch3);
      UnsetSound(Ch4);
      apuMem[Nr52] := apuMem[Nr52] & !0x80;
      ghost var cleared := apuMem[..];
      assert cleared == ClearStatusBits(old(apuMem[..]));
      var i := 0xFF10;
      while i <= 0xFF2F
        invariant 0xFF10 <= i <= 0xFF30
        invariant forall k :: 0 <= k < i - ApuBase ==> apuMem[k] == 0
        invariant forall k :: i - ApuBase <= k < ApuMemSize ==> apuMem[k] == cleared[k]
      {
        apuMem[i - ApuBase] := 0;
        i := i + 1;
      }
    }

    /** The NR52 update that starts set_sound1..4: the channel's status bit is set. */
    method SetStatusBit(ch: Channel)
      requires apuMem.Length == ApuMemSize
      modifies apuMem
      ensures apuMem[..] == SetSoundBit(old(apuMem[..]), ch)
    {
      apuMem[Nr52] := apuMem[Nr52] | StatusBit(ch);
    }

    /** set_sound3: only the status bit. */
    method SetSound3()
      requires apuMem.Length == ApuMemSize
      modifies apuMem
      ensures apuMem[..] == SetSoundBit(old(apuMem[..]), Ch3)
    {
      SetStatusBit(Ch3);
    }

    /** set_sound_all. */
    method SetSoundAll()
      requires Valid()
      modifies this, apuMem
      ensures Valid() && State() == ApuSpec.SetSoundAll(old(State()))
    {
      if !SoundAll(apuMem[..]) {
        divApu := 7;
      }
      apuMem[Nr52] := apuMem[Nr52] | 0x80;
    }

    /** set_sound2 and set_sound4; the envelope's four fields are loaded as one value. */
    method SetSoundEnv(ch: Channel)
      requires Valid() && (ch == Ch2 || ch == Ch4)
      modifies this, apuMem
      ensures Valid() && State() == ApuSpec.SetSoundEnv(old(State()), ch)
    {
      ghost var s0 := State();
      SetStatusBit(ch);
      var m := apuMem[..];
      if ch == Ch2 {
        env2 := LoadEnvelope(m, Ch2);
      } else {
        env4 := LoadEnvelope(m, Ch4);
      }
      assert State() == WithEnv(s0.(mem := m), ch, LoadEnvelope(m, ch));
    }

    /** set_sound1; the envelope's four fields are loaded as one value. */
    method SetSound1()
      requires Valid()
      modifies this, apuMem
      ensures Valid() && State() == ApuSpec.SetSound1(old(State()))
    {
      ghost var s0 := State();
      SetStatusBit(Ch1);
      var m := apuMem[..];
      channel1Frequency := Frequency1(m);
      channel1SweepPace := SweepPaceReg(m);
      channel1SweepCounter := if channel1SweepPace != 0 then channel1SweepPace else 8;
      env1 := LoadEnvelope(m, Ch1);
      channel1NegateExecuted := false;
      channel1SweepEnabled := SweepShift(m) > 0 || channel1SweepPace > 0;
      ghost var pace := SweepPaceReg(m);
      assert State() == s0.(mem := m, frequency := Frequency1(m), sweepPace := pace,
                 sweepCounter := if pace != 0 then pace else 8,
                 env1 := LoadEnvelope(m, Ch1), negateExecuted := false,
                 sweepEnabled := SweepShift(m) > 0 || pace > 0);
      if SweepShift(m) > 0 {
        Channel1SweepStepOverflowLogic();
      }
    }

    // -------------------------------------------------------------------
    // Length counters, envelopes and the sweep
    // -------------------------------------------------------------------

    /** channel1/2/4_inc_sound_length. */
    method IncSoundLength(ch: Channel)
      requires apuMem.Length == ApuMemSize && ch != Ch3
      modifies apuMem
      ensures apuMem[..] == IncLength(old(apuMem[..]), ch)
    {
      if !LengthEnabled(apuMem[..], ch) {
        return;
      }
      var reg := LengthReg(ch);
      var val := (apuMem[reg] & 0x3F) + 1;
      if val >= 64 {
        UnsetSound(ch);
      }
      StoreLengthField(reg, val);
    }

    /** The end of inc_sound_length: the low six bits of NRx1 are replaced by val's. */
    method StoreLengthField(reg: int, val: bv8)
      requires apuMem.Length == ApuMemSize && 0 <= reg < ApuMemSize
      requires val == (apuMem[reg] & 0x3F) + 1
      modifies apuMem
      ensures apuMem[..] == old(apuMem[..])[reg := NextLengthByte(old(apuMem[reg]))]
    {
      apuMem[reg] := apuMem[reg] & !0x3F;
      apuMem[reg] := apuMem[reg] | (val & 0x3F);
    }

    /** channel3_inc_sound_length. */
    method Channel3IncSoundLength()
      requires apuMem.Length == ApuMemSize
      modifies apuMem
      ensures apuMem[..] == IncLength3(old(apuMem[..]))
    {
      if !LengthEnabled(apuMem[..], Ch3) {
        return;
      }
      var val := apuMem[Nr31];
      if val == 0xFF {
        val := 0;
        UnsetSound(Ch3);
      } else {
        val := val + 1;
      }
      apuMem[Nr31] := val;
    }

    /** The cached envelope of channel 1, 2 or 4. */
    function EnvOf(ch: Channel): (e: Envelope)
      reads this
      requires ch != Ch3
    {
      match ch
      case Ch1 => env1
      case Ch2 => env2
      case Ch4 => env4
    }

    method SetEnv(ch: Channel, e: Envelope)
      requires apuMem.Length == ApuMemSize && ch != Ch3
      modifies this
      ensures State() == WithEnv(old(State()), ch, e)
    {
      match ch
      case Ch1 => env1 := e;
      case Ch2 => env2 := e;
      case Ch4 => env4 := e;
    }

    /** channel1/2/4_step_envelope. */
    method StepEnvelope(ch: Channel)
      requires apuMem.Length == ApuMemSize && ch != Ch3
      requires 0 <= EnvOf(ch).volume <= 15
      modifies this
      ensures State() == WithEnv(old(State()), ch, StepEnvelopeValue(old(EnvOf(ch))))
    {
      var e := EnvOf(ch);
      var val := e.volume;
      var newVal;
      if e.increasing {
        var n := val + 1;
        newVal := if n >= 0xF then 0xF else n;
      } else {
        newVal := if val == 0 then 0 else val - 1;
      }
      SetEnv(ch, e.(volume := newVal));
    }

    /**
     * One channel's envelope clock in step, with the reload corrected: a
     * reloaded pace of 0 gives the counter 8.
     */
    method ClockEnvelope(ch: Channel)
      requires Valid() && ch != Ch3
      modifies this
      ensures Valid() && State() == ApuSpec.ClockEnvelope(old(State()), ch)
    {
      if SoundOn(apuMem[..], ch) {
        var e := EnvOf(ch);
        var counter := e.counter - 1;
        if counter == 0 {
          if e.pace != 0 {
            var pace := EnvPaceReg(apuMem[..], ch);
            SetEnv(ch, e.(pace := pace, counter := if pace != 0 then pace else 8));
            StepEnvelope(ch);
          } else {
            SetEnv(ch, e.(counter := 8));
          }
        } else {
          SetEnv(ch, e.(counter := counter));
        }
      }
    }

    /** channel1_sweep_step_overflow_logic. */
    method Channel1SweepStepOverflowLogic()
      requires Valid()
      modifies this, apuMem
      ensures Valid() && State() == SweepOverflowCheck(old(State()))
    {
      var freq := channel1Frequency;
      var shift := SweepShift(apuMem[..]);
      if SweepIncrease(apuMem[..]) {
        var n := freq + Shr(freq, shift);
        if n > 0x7FF {
          UnsetSound(Ch1);
          return;
        }
      } else {
        channel1NegateExecuted := true;
      }
    }

    /** channel1_sweep_step. */
    method Channel1SweepStep()
      requires Valid()
      modifies this, apuMem
      ensures Valid() && State() == SweepStep(old(State()))
    {
      ghost var s0 := State();
      var freq := channel1Frequency;
      var shift := SweepShift(apuMem[..]);
      var newValue;
      if SweepIncrease(apuMem[..]) {
        var n := freq + Shr(freq, shift);
        if n > 0x7FF {
          UnsetSound(Ch1);
          return;
        }
        newValue := n;
      } else {
        channel1NegateExecuted := true;
        newValue := freq - Shr(freq, shift);
      }
      assert newValue == SweepTarget(s0);
      ghost var s1 := State();
      if shift != 0 {
        WriteFrequency(newValue);
        assert State() == WriteBack(s1, newValue);
        Channel1SweepStepOverflowLogic();
      }
    }

    /** The write-back in channel1_sweep_step: the shadow register, NR13 and NR14's low three bits. */
    method WriteFrequency(newValue: int)
      requires Valid() && 0 <= newValue <= 0x7FF
      modifies this, apuMem
      ensures Valid() && State() == old(State()).(frequency := newValue, mem := WriteFrequency1(old(apuMem[..]), newValue))
    {
      channel1Frequency := newValue;
      apuMem[Nr13] := (newValue % 256) as bv8;
      apuMem[Nr14] := apuMem[Nr14] & !7;
      apuMem[Nr14] := apuMem[Nr14] | ((newValue / 256) as bv8 & 7);
    }

    /** The sweep clock of step. */
    method ClockSweep()
      requires Valid()
      modifies this, apuMem
      ensures Valid() && State() == ApuSpec.ClockSweep(old(State()))
    {
      if channel1SweepEnabled && SoundOn(apuMem[..], Ch1) {
        channel1SweepCounter := (channel1SweepCounter - 1) % 256;
        if channel1SweepCounter == 0 {
          if SweepPaceReg(apuMem[..]) != 0 {
            channel1SweepPace := SweepPaceReg(apuMem[..]);
            channel1SweepCounter := channel1SweepPace;
            Channel1SweepStep();
          } else {
            channel1SweepCounter := 8;
          }
        }
      }
    }

    /** Apu::step: the frame sequencer, in its three blocks. */
    method Step()
      requires Valid()
      modifies this, apuMem
      ensures Valid() && State() == StepSpec(old(State()))
    {
      divApu := (divApu + 1) % 8;
      EnvelopeBlock();
      SweepBlock();
      LengthBlock();
    }

    /** The envelope block of step: at div_apu 7, channels 1, 2 and 4 in turn. */
    method EnvelopeBlock()
      requires Valid()
      modifies this
      ensures Valid() && State() == EnvelopePhase(old(State()))
    {
      if divApu == 7 {
        ClockEnvelope(Ch1);
        ClockEnvelope(Ch2);
        ClockEnvelope(Ch4);
      }
    }

    /** The sweep block of step: at div_apu 2 and 6. */
    method SweepBlock()
      requires Valid()
      modifies this, apuMem
      ensures Valid() && State() == SweepPhase(old(State()))
    {
      if divApu % 4 == 2 {
        ClockSweep();
      }
    }

    /** The length block of step: at even div_apu, channels 1 to 4 in turn. */
    method LengthBlock()
      requires Valid()
      modifies apuMem
      ensures Valid() && State() == LengthPhase(old(State()))
    {
      if divApu % 2 == 0 {
        IncSoundLength(Ch1);
        IncSoundLength(Ch2);
        Channel3IncSoundLength();
        IncSoundLength(Ch4);
      }
    }

    // -------------------------------------------------------------------
    // CPU-visible reads and writes
    // -------------------------------------------------------------------

    /** Apu::get_mem. */
    function GetMem(addr: int): (r: bv8)
      reads this, apuMem
      requires apuMem.Length == ApuMemSize && IsApuAddr(addr)
      ensures r == ApuRead(apuMem[..], addr)
    {
      var i := addr - ApuBase;
      if addr == 0xFF10 then apuMem[i] | 0x80
      else if addr == 0xFF11 then apuMem[i] | 0x3F
      else if addr == 0xFF13 then 0xFF
      else if addr == 0xFF14 then apuMem[i] | !0x40
      else if addr == 0xFF15 then 0xFF
      else if addr == 0xFF16 then apuMem[i] | !0xC0
      else if addr == 0xFF18 then 0xFF
      else if addr == 0xFF19 then apuMem[i] | !0x40
      else if addr == 0xFF1A then apuMem[i] | !0x80
      else if addr == 0xFF1B then 0xFF
      else if addr == 0xFF1C then apuMem[i] | !0x60
      else if addr == 0xFF1D then 0xFF
      else if addr == 0xFF1E then apuMem[i] | !0x40
      else if addr == 0xFF1F then 0xFF
      else if addr == 0xFF20 then 0xFF
      else if addr == 0xFF23 then apuMem[i] | !0x40
      else if addr == 0xFF26 then apuMem[i] | !0x8F
      else if 0xFF27 <= addr <= 0xFF2F then 0xFF
      else apuMem[i]
    }

    /** The NR10 arm of set_mem. */
    method WriteSweepControl(value: bv8)
      requires Valid()
      modifies this, apuMem
      ensures Valid() && State() == WriteNr10(old(State()), value)
    {
      var oldSweepPace := SweepPaceReg(apuMem[..]);
      var oldDirectionIsSubtract := !SweepIncrease(apuMem[..]);
      apuMem[Nr10] := value & 0x7F;
      var newSweepPace := SweepPaceReg(apuMem[..]);
      var newDirectionIsAdd := SweepIncrease(apuMem[..]);
      if oldSweepPace == 0 && newSweepPace != 0 {
        channel1SweepPace := SweepPaceReg(apuMem[..]);
      }
      if oldDirectionIsSubtract && newDirectionIsAdd && channel1NegateExecuted {
        UnsetSound(Ch1);
      }
    }

    /** The NR12/NR22/NR42 arms of set_mem. */
    method WriteEnvelopeControl(ch: Channel, value: bv8)
      requires Valid() && ch != Ch3
      modifies apuMem
      ensures Valid() && State() == WriteEnvelopeReg(old(State()), ch, value)
    {
      if value >> 3 == 0 {
        UnsetSound(ch);
      }
      apuMem[EnvelopeReg(ch)] := value;
    }

    /** The NR30 arm of set_mem. */
    method WriteWaveDac(value: bv8)
      requires Valid()
      modifies apuMem
      ensures Valid() && State() == WriteNr30(old(State()), value)
    {
      if value >> 7 == 0 {
        UnsetSound(Ch3);
      }
      apuMem[Nr30] := value;
    }

    /** The length-enable edge of the NR14/NR24 arms. */
    method LengthEnableEdgeOnWrite(ch: Channel, oldEnabled: bool)
      requires apuMem.Length == ApuMemSize && (ch == Ch1 || ch == Ch2)
      modifies apuMem
      ensures apuMem[..] == LengthEnableEdge(old(apuMem[..]), oldEnabled, divApu, ch)
    {
      if LengthEnabled(apuMem[..], ch) && !oldEnabled && divApu % 2 != 1 && LengthField(apuMem[..], ch) != 0 {
        IncSoundLength(ch);
      }
    }

    /** The length count on a trigger of the NR14/NR24 arms. */
    method LengthOnTrigger(ch: Channel)
      requires apuMem.Length == ApuMemSize && (ch == Ch1 || ch == Ch2)
      modifies apuMem
      ensures apuMem[..] == TriggerLength(old(apuMem[..]), divApu, ch)
    {
      if LengthField(apuMem[..], ch) == 0 {
        if LengthEnabled(apuMem[..], ch) && divApu % 2 != 1 {
          IncSoundLength(ch);
        }
      }
    }

    /** The NR14 arm of set_mem. */
    method WriteControl1(value: bv8)
      requires Valid()
      modifies this, apuMem
      ensures Valid() && State() == WriteNr14(old(State()), value)
    {
      var oldLengthEnabled := LengthEnabled(apuMem[..], Ch1);
      apuMem[Nr14] := value;
      LengthEnableEdgeOnWrite(Ch1, oldLengthEnabled);
      if value >> 7 == 1 {
        LengthOnTrigger(Ch1);
        SetSound1();
        if apuMem[Nr12] >> 3 == 0 {
          UnsetSound(Ch1);
        }
      }
    }

    /** The NR24 arm of set_mem. */
    method WriteControl2(value: bv8)
      requires Valid()
      modifies this, apuMem
      ensures Valid() && State() == WriteNr24(old(State()), value)
    {
      var oldLengthEnabled := LengthEnabled(apuMem[..], Ch2);
      apuMem[Nr24] := value;
      LengthEnableEdgeOnWrite(Ch2, oldLengthEnabled);
      if value >> 7 == 1 {
        LengthOnTrigger(Ch2);
        if apuMem[Nr22] >> 3 != 0 {
          SetSoundEnv(Ch2);
        }
      }
    }

    /** The NR34 arm of set_mem. */
    method WriteControl3(value: bv8)
      requires Valid()
      modifies apuMem
      ensures Valid() && State() == WriteNr34(old(State()), value)
    {
      if value >> 7 == 1 {
        if apuMem[Nr30] >> 7 == 1 {
          SetSound3();
        }
      }
      apuMem[Nr34] := value;
    }

    /** The NR44 arm of set_mem. */
    method WriteControl4(value: bv8)
      requires Valid()
      modifies this, apuMem
      ensures Valid() && State() == WriteNr44(old(State()), value)
    {
      if value >> 7 == 1 {
        if apuMem[Nr42] >> 3 != 0 {
          SetSoundEnv(Ch4);
        }
      }
      apuMem[Nr44] := value;
    }

    /** The NR52 arm of set_mem. */
    method WritePower(value: bv8)
      requires Valid()
      modifies this, apuMem
      ensures Valid() && State() == WriteNr52(old(State()), value)
    {
      if (value >> 7) & 1 == 0 {
        UnsetSoundAll();
      } else {
        SetSoundAll();
      }
    }

    /**
     * Apu::set_mem. The NR11, NR21, NR31 and NR41 arms store the byte, as
     * the default arm does.
     */
    method SetMem(addr: int, value: bv8)
      requires Valid() && IsApuAddr(addr)
      modifies this, apuMem
      ensures Valid() && State() == SetMemSpec(old(State()), addr, value)
    {
      if !SoundAll(apuMem[..]) && 0xFF10 <= addr <= 0xFF25 {
        return;
      }
      var i := addr - ApuBase;
      if i == Nr10 {
        WriteSweepControl(value);
      } else if i == Nr12 {
        WriteEnvelopeControl(Ch1, value);
      } else if i == Nr22 {
        WriteEnvelopeControl(Ch2, value);
      } else if i == Nr42 {
        WriteEnvelopeControl(Ch4, value);
      } else if i == Nr30 {
        WriteWaveDac(value);
      } else if i == Nr14 {
        WriteControl1(value);
      } else if i == Nr24 {
        WriteControl2(value);
      } else if i == Nr34 {
        WriteControl3(value);
      } else if i == Nr44 {
        WriteControl4(value);
      } else if i == Nr52 {
        WritePower(value);
      } else {
        apuMem[i] := value;
      }
    }

    /** Apu::reset: the post-boot register values, then the shadow state reloaded from them. */
    method Reset(sgbMode: bool)
      requires Valid()
      modifies this, apuMem
      ensures Valid() && State() == ResetSpec(old(State()), sgbMode)
    {
      ghost var s0 := State();
      WriteBootRegisters(sgbMode);
      ghost var m := apuMem[..];
      channel1SweepPace := SweepPaceReg(apuMem[..]);
      env1 := Envelope(EnvPaceReg(apuMem[..], Ch1), env1.counter, EnvIncreasingReg(apuMem[..], Ch1), EnvVolumeReg(apuMem[..], Ch1));
      channel1Frequency := Frequency1(apuMem[..]);
      env2 := Envelope(EnvPaceReg(apuMem[..], Ch2), env2.counter, EnvIncreasingReg(apuMem[..], Ch2), EnvVolumeReg(apuMem[..], Ch2));
      env4 := Envelope(EnvPaceReg(apuMem[..], Ch4), env4.counter, EnvIncreasingReg(apuMem[..], Ch4), EnvVolumeReg(apuMem[..], Ch4));
      divApu := 7;
      channel1SweepCounter := 8;
      env1 := env1.(counter := 8);
      env2 := env2.(counter := 8);
      env4 := env4.(counter := 8);
      assert State() == ResetFromRegs(s0, m);
    }

    /** The register table at the start of reset. */
    method WriteBootRegisters(sgbMode: bool)
      requires apuMem.Length == ApuMemSize
      modifies apuMem
      ensures apuMem[..] == ResetMem(old(apuMem[..]), sgbMode)
    {
      apuMem[0x00] := 0x80;
      apuMem[0x01] := 0xBF;
      apuMem[0x02] := 0xF3;
      apuMem[0x03] := 0xFF;
      apuMem[0x04] := 0xBF;
      apuMem[0x06] := 0x3F;
      apuMem[0x07] := 0x00;
      apuMem[0x08] := 0xFF;
      apuMem[0x09] := 0xBF;
      apuMem[0x0A] := 0x7F;
      apuMem[0x0B] := 0xFF;
      apuMem[0x0C] := 0x9F;
      apuMem[0x0E] := 0xBF;
      apuMem[0x10] := 0xFF;
      apuMem[0x11] := 0x00;
      apuMem[0x12] := 0x00;
      apuMem[0x13] := 0xBF;
      apuMem[0x14] := 0x77;
      apuMem[0x15] := 0xF3;
      apuMem[0x16] := if sgbMode then 0xF0 else 0xF1;
    }
  }
}
