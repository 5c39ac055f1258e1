// The SID sound chip: three voices, each an ADSR envelope generator, a
// 24-bit phase accumulator and a 23-bit noise shift register, clocked once
// per CPU cycle and wired into a fixed ring for hard sync.
module SoundChip {
  import opened Bits

  datatype AdsrState = Attack | Decay | Release

  /** `adsrRateTable`: envelope rate periods, in cycles, indexed by a 4-bit rate nibble. */
  function RatePeriod(nibble: nat): (p: word)
    requires nibble < 16
    ensures 9 <= p <= 31251
  {
    match nibble
    case 0 => 9     case 1 => 32     case 2 => 63      case 3 => 95
    case 4 => 149   case 5 => 220    case 6 => 267     case 7 => 313
    case 8 => 392   case 9 => 977    case 10 => 1954   case 11 => 3126
    case 12 => 3907 case 13 => 11720 case 14 => 19532  case _ => 31251
  }

  /** `sustainLevels`: the sustain nibble repeated in both halves (0x00, 0x11, ..., 0xff). */
  function SustainLevel(nibble: nat): (l: byte)
    requires nibble < 16
    ensures l / 16 == nibble && l % 16 == nibble
  {
    nibble * 16 + nibble
  }

  /**
   * The exponential-decay divider: `expTargetTable[volume]` below 0x5d, whose
   * entries are 1 at volume 0 and then runs of 30 (volumes 1-5), 16 (6-13),
   * 8 (14-25), 4 (26-53) and 2 (54-92); 1 from 0x5d upwards.
   */
  function ExpTarget(volume: byte): (t: byte)
    ensures 1 <= t <= 30
    ensures volume == 0 || volume >= 0x5d <==> t == 1
  {
    if volume == 0 then 1
    else if volume <= 5 then 30
    else if volume <= 13 then 16
    else if volume <= 25 then 8
    else if volume <= 53 then 4
    else if volume < 0x5d then 2
    else 1
  }

  /** Initial value of the noise shift register, and its value after a test-bit reset. */
  const NoiseSeed: uint := 0x7ffff8

  /** One voice: its registers as loaded from $D400+7i and its generator state. */
  datatype Voice = Voice(
    frequency: word, ad: byte, sr: byte, pulse: word, waveform: byte, doSync: bool,
    state: AdsrState, accumulator: uint, noise: uint,
    adsrCounter: word, adsrExpCounter: byte, volume: byte)

  /** The ranges the generators keep: 24-bit phase, 23-bit noise, 15-bit rate counter. */
  predicate VoiceInv(v: Voice) {
    v.accumulator < 0x100_0000 && v.noise < 0x80_0000 &&
    v.adsrCounter < 0x8000 && v.adsrExpCounter < 30
  }

  /** Gate handling: a set gate bit starts Attack from Release, a clear one forces Release. */
  function Gate(waveform: byte, state: AdsrState): AdsrState {
    if Bit(waveform, 1) then (if state == Release then Attack else state) else Release
  }

  /** The rate period of an envelope phase: attack, decay and release nibbles of AD/SR. */
  function RateTarget(state: AdsrState, ad: byte, sr: byte): word {
    match state
    case Attack => RatePeriod(ad / 16)
    case Decay => RatePeriod(ad % 16)
    case Release => RatePeriod(sr % 16)
  }

  /**
   * One envelope step, taken after the gate and the counter increment: when
   * the counter equals the rate target it restarts and the volume may move.
   */
  function Envelope(v: Voice): Voice {
    if v.adsrCounter != RateTarget(v.state, v.ad, v.sr) then v
    else
      match v.state
      case Attack =>
        var vol := Wrap8(v.volume + 1);
        v.(adsrCounter := 0, adsrExpCounter := 0, volume := vol,
           state := if vol == 0xff then Decay else Attack)
      case Decay =>
        var exp := Wrap8(v.adsrExpCounter + 1);
        if exp >= ExpTarget(v.volume) then
          v.(adsrCounter := 0, adsrExpCounter := 0,
             volume := if v.volume > SustainLevel(v.sr / 16) then v.volume - 1 else v.volume)
        else v.(adsrCounter := 0, adsrExpCounter := exp)
      case Release =>
        if v.volume > 0 then
          var exp := Wrap8(v.adsrExpCounter + 1);
          if exp >= ExpTarget(v.volume) then v.(adsrCounter := 0, adsrExpCounter := 0, volume := v.volume - 1)
          else v.(adsrCounter := 0, adsrExpCounter := exp)
        else v.(adsrCounter := 0)
  }

  /** True when the bit `mask` is clear in `before` and set in `after`. */
  predicate RisingEdge(before: nat, after: nat, mask: nat)
    requires mask > 0
  {
    !Bit(before, mask) && Bit(after, mask)
  }

  /**
   * One shift of the noise register: the 32-bit shift left, bit 0 set when
   * bits 22 and 17 differ, the result masked to 23 bits.
   */
  function NoiseShift(n: uint): uint {
    var feedback := if Bit(n, 0x40_0000) != Bit(n, 0x2_0000) then 1 else 0;
    ((n * 2) % UintRange + feedback) % 0x80_0000
  }

  /** Phase accumulator, test bit, noise register and sync edge for one cycle. */
  function Oscillator(v: Voice): Voice {
    var sum := (v.accumulator + v.frequency) % UintRange % 0x100_0000;
    var test := Bit(v.waveform, 8);
    var acc := if test then 0 else sum;
    var noise := if test then NoiseSeed else v.noise;
    var noise' := if Bit(v.waveform, 0x80) && RisingEdge(v.accumulator, acc, 0x8_0000)
                  then NoiseShift(noise) else noise;
    v.(accumulator := acc, noise := noise', doSync := RisingEdge(v.accumulator, acc, 0x80_0000))
  }

  /** The voice after the gate update and the 15-bit rate counter increment. */
  function Gated(v: Voice): Voice {
    v.(state := Gate(v.waveform, v.state), adsrCounter := (v.adsrCounter + 1) % 0x1_0000 % 0x8000)
  }

  /** Reference definition of `SIDChannel.Clock`: gate, envelope, then oscillator. */
  function ClockSpec(v: Voice): Voice {
    Oscillator(Envelope(Gated(v)))
  }

  /** The noise shift moves bits 0..21 up by one and feeds back bit 22 xor bit 17. */
  lemma NoiseShiftBits(n: uint)
    ensures NoiseShift(n) < 0x80_0000
    ensures NoiseShift(n) / 2 == n % 0x40_0000
    ensures NoiseShift(n) % 2 == 1 <==> Bit(n, 0x40_0000) != Bit(n, 0x2_0000)
  {
    var feedback := if Bit(n, 0x40_0000) != Bit(n, 0x2_0000) then 1 else 0;
    var low := n % 0x40_0000;
    var high := n / 0x40_0000;
    var wrapped := if high < 0x200 then high else high - 0x200;
    assert n == 0x40_0000 * high + low;
    var shifted := 0x80_0000 * wrapped + 2 * low;
    assert 0 <= shifted < UintRange && n * 2 - shifted in {0, UintRange};
    assert (n * 2) % UintRange == shifted;
    assert shifted + feedback == 0x80_0000 * wrapped + (2 * low + feedback);
    assert NoiseShift(n) == 2 * low + feedback;
  }

  /** Gate: a clear gate bit ends in Release; a set one never leaves the voice in Release. */
  lemma GateControlsRelease(v: Voice)
    ensures !Bit(v.waveform, 1) ==> ClockSpec(v).state == Release
    ensures Bit(v.waveform, 1) ==> ClockSpec(v).state != Release
    ensures Bit(v.waveform, 1) && v.state == Decay ==> ClockSpec(v).state == Decay
  {
  }

  /** The rate counter stays 15-bit and restarts exactly when it hits the phase's target. */
  lemma RateCounter(v: Voice)
    ensures ClockSpec(v).adsrCounter < 0x8000
    ensures var g := Gated(v);
      ClockSpec(v).adsrCounter == if g.adsrCounter == RateTarget(g.state, v.ad, v.sr) then 0 else g.adsrCounter
  {
  }

  /** Attack: one volume step per rate period, handing over to Decay at 0xff. */
  lemma AttackRises(v: Voice)
    requires Bit(v.waveform, 1) && v.state != Decay
    requires (v.adsrCounter + 1) % 0x8000 == RatePeriod(v.ad / 16)
    ensures ClockSpec(v).volume == (v.volume + 1) % 0x100 && ClockSpec(v).adsrCounter == 0
    ensures ClockSpec(v).state == if v.volume + 1 == 0xff then Decay else Attack
  {
  }

  /** Decay never takes the volume below the sustain level; Release never below zero. */
  lemma EnvelopeFloors(v: Voice)
    ensures Bit(v.waveform, 1) && v.state == Decay ==>
      (ClockSpec(v).volume == v.volume ||
       (ClockSpec(v).volume == v.volume - 1 && v.volume > SustainLevel(v.sr / 16)))
    ensures !Bit(v.waveform, 1) ==>
      (ClockSpec(v).volume == v.volume || (ClockSpec(v).volume == v.volume - 1 && v.volume > 0))
  {
  }

  /** The phase stays 24-bit and the test bit holds the oscillator in reset. */
  lemma PhaseAndTestBit(v: Voice)
    ensures ClockSpec(v).accumulator < 0x100_0000
    ensures Bit(v.waveform, 8) ==> ClockSpec(v).accumulator == 0 && ClockSpec(v).noise == NoiseSeed
    ensures !Bit(v.waveform, 8) ==>
      ClockSpec(v).accumulator == (v.accumulator + v.frequency) % 0x100_0000
  {
  }

  /** The noise register stays 23-bit and shifts only on a rising edge of phase bit 19. */
  lemma NoiseShiftsOnEdge(v: Voice)
    requires v.noise < 0x80_0000
    ensures ClockSpec(v).noise < 0x80_0000
    ensures !Bit(v.waveform, 8) ==>
      ClockSpec(v).noise ==
        if Bit(v.waveform, 0x80) && RisingEdge(v.accumulator, ClockSpec(v).accumulator, 0x8_0000)
        then NoiseShift(v.noise) else v.noise
  {
  }

  /** `doSync` reports exactly a rising edge of phase bit 23. */
  lemma SyncEdge(v: Voice)
    ensures ClockSpec(v).doSync <==> RisingEdge(v.accumulator, ClockSpec(v).accumulator, 0x80_0000)
  {
  }

  lemma ClockKeepsInv(v: Voice)
    requires VoiceInv(v)
    ensures VoiceInv(ClockSpec(v))
  {
  }

  /** `ResetAccumulator`: the phase restarts from zero, nothing else changes. */
  function PhaseReset(v: Voice): (r: Voice)
    ensures r.accumulator == 0
    ensures r.(accumulator := v.accumulator) == v
  {
    v.(accumulator := 0)
  }

  // ---- waveform generators (pure integer expressions) ----

  /**
   * Triangle: the phase folded on bit 23, taking bits 7..22; with ring
   * modulation (control bit 2) the fold is decided by bit 23 of the phase xor
   * the sync source's phase.
   */
  function Triangle(accumulator: uint, waveform: byte, sourceAccumulator: uint): (r: nat)
    ensures r <= 0xffff
  {
    var folded := Xor(accumulator, if Bit(waveform, 4) then sourceAccumulator else 0);
    ((if folded >= 0x80_0000 then Xor(accumulator, 0xff_ffff) else accumulator) / 0x80) % 0x1_0000
  }

  /**
   * Without ring modulation the triangle is the 24-bit phase reflected at its
   * midpoint: rising over the first half period, falling over the second.
   */
  lemma TriangleFolds(accumulator: uint, waveform: byte, sourceAccumulator: uint)
    requires accumulator < 0x100_0000 && !Bit(waveform, 4)
    ensures Triangle(accumulator, waveform, sourceAccumulator) ==
      (if accumulator >= 0x80_0000 then 0xff_ffff - accumulator else accumulator) / 0x80
  {
    Pow2Widths();
    XorAllOnes(accumulator, 24);
    assert Xor(accumulator, 0) == accumulator;
  }

  /** Sawtooth: the top 16 bits of the 24-bit phase. */
  function Sawtooth(accumulator: uint): (r: nat)
    ensures accumulator < 0x100_0000 ==> r <= 0xffff
  {
    accumulator / 0x100
  }

  /** Pulse: full scale while the top 12 phase bits are at or above the 12-bit pulse width. */
  function Pulse(accumulator: uint, pulse: word): (r: nat)
    ensures r == 0 || r == 0xffff
  {
    if accumulator / 0x1000 >= pulse % 0x1000 then 0xffff else 0
  }

  /**
   * Noise: register bits 20, 18, 14, 11, 9, 5, 2 and 0 placed in output bits
   * 15 down to 8.
   */
  function Noise(noise: uint): (r: nat)
    ensures r <= 0xff00 && r % 0x100 == 0
  {
    var high := (if Bit(noise, 0x10_0000) then 0x80 else 0) + (if Bit(noise, 0x4_0000) then 0x40 else 0) +
      (if Bit(noise, 0x4000) then 0x20 else 0) + (if Bit(noise, 0x800) then 0x10 else 0);
    var low := (if Bit(noise, 0x200) then 8 else 0) + (if Bit(noise, 0x20) then 4 else 0) +
      (if Bit(noise, 0x4) then 2 else 0) + (if Bit(noise, 0x1) then 1 else 0);
    assert high <= 0xf0 && low <= 0xf;
    0x100 * (high + low)
  }

  /**
   * The combined-waveform rule: the pulse ANDed with a waveform and its two
   * neighbouring-bit shifts (32-bit shifts), shifted up once and clamped to 16 bits.
   */
  function Combined(pulse: nat, w: nat): (r: nat)
    ensures r <= 0xffff
  {
    var c := (And(And(And(pulse, w), w / 2), (w * 2) % UintRange) * 2) % UintRange;
    if c > 0xffff then 0xffff else c
  }

  /** The integer waveform selected by control bits 4..7 (`waveform & 0xf0`), 0 for none. */
  function WaveOutput(v: Voice, sourceAccumulator: uint): (r: nat)
    ensures v.accumulator < 0x100_0000 ==> r <= 0xffff
  {
    var acc := v.accumulator;
    match v.waveform / 16
    case 1 => Triangle(acc, v.waveform, sourceAccumulator)
    case 2 => Sawtooth(acc)
    case 4 => Pulse(acc, v.pulse)
    case 5 => Combined(Pulse(acc, v.pulse), Triangle(acc, v.waveform, sourceAccumulator))
    case 6 => Combined(Pulse(acc, v.pulse), Sawtooth(acc))
    case 7 => Combined(Pulse(acc, v.pulse), And(Triangle(acc, v.waveform, sourceAccumulator), Sawtooth(acc)))
    case 8 => Noise(v.noise)
    case _ => 0
  }

  // ---- the three-voice ring ----

  /** Voice i hard-syncs voice i+1 and takes its ring-modulation source from voice i+2. */
  function SyncTarget(i: nat): nat { if i < 2 then i + 1 else 0 }

  function SyncSource(i: nat): nat { if i == 0 then 2 else i - 1 }

  lemma SyncRing(i: nat)
    requires i < 3
    ensures SyncTarget(i) != i && SyncSource(i) != i && SyncTarget(i) != SyncSource(i)
    ensures SyncSource(SyncTarget(i)) == i && SyncTarget(SyncSource(i)) == i
  {
  }

  /** Load a voice's registers from the seven bytes at $D400+7i. */
  function LoadRegisters(v: Voice, regs: seq<byte>, i: nat): (r: Voice)
    requires |regs| == 25 && i < 3
    ensures Lo(r.frequency) == regs[7 * i] && Hi(r.frequency) == regs[7 * i + 1]
    ensures Lo(r.pulse) == regs[7 * i + 2] && Hi(r.pulse) == regs[7 * i + 3]
    ensures r.waveform == regs[7 * i + 4] && r.ad == regs[7 * i + 5] && r.sr == regs[7 * i + 6]
    ensures r.(frequency := v.frequency, pulse := v.pulse, waveform := v.waveform, ad := v.ad, sr := v.sr) == v
  {
    v.(frequency := Word(regs[7 * i], regs[7 * i + 1]), pulse := Word(regs[7 * i + 2], regs[7 * i + 3]),
       waveform := regs[7 * i + 4], ad := regs[7 * i + 5], sr := regs[7 * i + 6])
  }

  /** The three voices, indexed by voice number. */
  type Voices = s: seq<Voice> | |s| == 3 witness [InitialVoice(), InitialVoice(), InitialVoice()]

  predicate VoicesInv(s: Voices) {
    VoiceInv(s[0]) && VoiceInv(s[1]) && VoiceInv(s[2])
  }

  /** All three voices clocked. */
  function ClockAll(s: Voices): (r: Voices)
    ensures forall i :: 0 <= i < 3 ==> r[i] == ClockSpec(s[i])
  {
    [ClockSpec(s[0]), ClockSpec(s[1]), ClockSpec(s[2])]
  }

  /** Hard sync by voice j: its target restarts when j's phase wrapped and the target's sync bit is set. */
  function SyncStep(s: Voices, j: nat): Voices
    requires j < 3
  {
    var t := SyncTarget(j);
    if s[j].doSync && Bit(s[t].waveform, 2) then s[t := PhaseReset(s[t])] else s
  }

  /** A cycle up to its `j`-th sync step: all voices clocked, then the syncs of voices 0 .. j-1 in turn. */
  function CycleTo(s: Voices, j: nat): (r: Voices)
    requires j <= 3
  {
    if j == 0 then ClockAll(s) else SyncStep(CycleTo(s, j - 1), j - 1)
  }

  /** One SID cycle: clock voices 0, 1, 2, then apply the syncs of voices 0, 1, 2. */
  function CycleSpec(s: Voices): (r: Voices)
  {
    CycleTo(s, 3)
  }

  /** `n` applications of a step function. */
  function Iterate<T>(step: T -> T, x: T, n: nat): T
    decreases n
  {
    if n == 0 then x else step(Iterate(step, x, n - 1))
  }

  lemma {:induction false} IterateAdditive<T>(step: T -> T, x: T, m: nat, n: nat)
    ensures Iterate(step, Iterate(step, x, m), n) == Iterate(step, x, m + n)
    decreases n
  {
    if n > 0 {
      IterateAdditive(step, x, m, n - 1);
    }
  }

  /** `n` SID cycles. */
  function Run(s: Voices, n: nat): Voices
  {
    Iterate(CycleSpec, s, n)
  }

  lemma RunAdditive(s: Voices, m: nat, n: nat)
    ensures Run(Run(s, m), n) == Run(s, m + n)
  {
    IterateAdditive(CycleSpec, s, m, n);
  }

  /** Resetting a phase keeps it in range, so sync steps keep every voice's ranges. */
  lemma {:induction false} CycleToKeepsInv(s: Voices, j: nat)
    requires VoicesInv(s) && j <= 3
    ensures VoicesInv(CycleTo(s, j))
  {
    if j == 0 {
      ClockKeepsInv(s[0]);
      ClockKeepsInv(s[1]);
      ClockKeepsInv(s[2]);
    } else {
      CycleToKeepsInv(s, j - 1);
    }
  }

  lemma CycleKeepsInv(s: Voices)
    requires VoicesInv(s)
    ensures VoicesInv(CycleSpec(s))
  {
    CycleToKeepsInv(s, 3);
  }

  lemma {:induction false} RunKeepsInv(s: Voices, n: nat)
    requires VoicesInv(s)
    ensures VoicesInv(Run(s, n))
  {
    if n > 0 {
      RunKeepsInv(s, n - 1);
      CycleKeepsInv(Run(s, n - 1));
    }
  }

  /** Sync steps only ever reset voices whose sync bit (control bit 1) is set. */
  lemma {:induction false} SyncStepsSpareUnsynced(s: Voices, j: nat, i: nat)
    requires j <= 3 && i < 3
    requires !Bit(s[i].waveform, 2)
    ensures CycleTo(s, j)[i] == ClockSpec(s[i])
  {
    if j > 0 {
      SyncStepsSpareUnsynced(s, j - 1, i);
    }
  }

  /**
   * A voice with neither the sync bit nor the test bit set is never reset
   * within a cycle: its phase just advances by its frequency.
   */
  lemma AdvanceWithoutSync(s: Voices, i: nat)
    requires i < 3
    requires !Bit(s[i].waveform, 2) && !Bit(s[i].waveform, 8)
    ensures CycleSpec(s)[i].accumulator == (s[i].accumulator + s[i].frequency) % 0x100_0000
  {
    PhaseAndTestBit(s[i]);
    SyncStepsSpareUnsynced(s, 3, i);
  }

  /** The voices after loading the register snapshot of $D400..$D418. */
  function LoadAll(s: Voices, regs: seq<byte>): (r: Voices)
    requires |regs| == 25
    ensures (VoicesInv(s) ==> VoicesInv(r))
  {
    [LoadRegisters(s[0], regs, 0), LoadRegisters(s[1], regs, 1), LoadRegisters(s[2], regs, 2)]
  }

  /** The integer part of `SID.BufferSamples`, with the output queue at its target fill. */
  function BufferSpec(s: Voices, regs: seq<byte>, cpuCycles: int): (r: Voices)
    requires |regs| == 25
  {
    if cpuCycles == 0 then s
    else Run(LoadAll(s, regs), if cpuCycles < 0 then 0 else cpuCycles)
  }

  /** The register half of a voice, which clocking never changes. */
  function Registers(v: Voice): (word, word, byte, byte, byte) {
    (v.frequency, v.pulse, v.waveform, v.ad, v.sr)
  }

  /** Clocking a voice never writes its registers. */
  lemma ClockKeepsRegisters(v: Voice)
    ensures Registers(ClockSpec(v)) == Registers(v)
  {
  }

  lemma {:induction false} CycleToKeepsRegisters(s: Voices, j: nat, i: nat)
    requires j <= 3 && i < 3
    ensures Registers(CycleTo(s, j)[i]) == Registers(s[i])
  {
    if j == 0 {
      ClockKeepsRegisters(s[i]);
    } else {
      CycleToKeepsRegisters(s, j - 1, i);
      var t := CycleTo(s, j - 1);
      assert Registers(SyncStep(t, j - 1)[i]) == Registers(t[i]);
    }
  }

  lemma CycleKeepsRegisters(s: Voices, i: nat)
    requires i < 3
    ensures Registers(CycleSpec(s)[i]) == Registers(s[i])
  {
    CycleToKeepsRegisters(s, 3, i);
  }

  lemma {:induction false} RunKeepsRegisters(s: Voices, n: nat, i: nat)
    requires i < 3
    ensures Registers(Run(s, n)[i]) == Registers(s[i])
  {
    if n > 0 {
      RunKeepsRegisters(s, n - 1, i);
      CycleKeepsRegisters(Run(s, n - 1), i);
    }
  }

  /** Reloading the same register snapshot after running changes nothing. */
  lemma LoadIdempotent(s: Voices, regs: seq<byte>, n: nat)
    requires |regs| == 25
    ensures LoadAll(Run(LoadAll(s, regs), n), regs) == Run(LoadAll(s, regs), n)
  {
    var r := Run(LoadAll(s, regs), n);
    forall i | 0 <= i < 3
      ensures LoadRegisters(r[i], regs, i) == r[i]
    {
      RunKeepsRegisters(LoadAll(s, regs), n, i);
      WordOfHalves(r[i].frequency);
      WordOfHalves(r[i].pulse);
    }
  }

  /**
   * Rendering audio in two chunks with unchanged registers is rendering it in
   * one: the SID-write flush does not change how the voices evolve.
   */
  lemma BufferSplits(s: Voices, regs: seq<byte>, a: nat, b: nat)
    requires |regs| == 25 && a > 0 && b > 0
    ensures BufferSpec(BufferSpec(s, regs, a), regs, b) == BufferSpec(s, regs, a + b)
  {
    var loaded := LoadAll(s, regs);
    var mid := Run(loaded, a);
    assert LoadAll(mid, regs) == mid by {
      LoadIdempotent(loaded, regs, a);
    }
    RunAdditive(loaded, a, b);
  }

  function InitialVoice(): (v: Voice)
    ensures VoiceInv(v) && v.state == Release && v.volume == 0 && v.noise == NoiseSeed
  {
    Voice(0, 0, 0, 0, 0, false, Release, 0, NoiseSeed, 0, 0, 0)
  }

  // ---- the chip as the emulator holds it: three channel objects ----

  /** `SIDChannel`: one voice whose fields each clock updates in place. */
  class SidChannel {
    var syncTarget: SidChannel?
    var syncSource: SidChannel?

    var frequency: word
    var ad: byte
    var sr: byte
    var pulse: word
    var waveform: byte
    var doSync: bool

    var state: AdsrState
    var accumulator: uint
    var noiseGenerator: uint
    var adsrCounter: word
    var adsrExpCounter: byte
    var volumeLevel: byte

    /** The channel's fields as a value. */
    function State(): Voice
      reads this
    {
      Voice(frequency, ad, sr, pulse, waveform, doSync, state, accumulator, noiseGenerator,
            adsrCounter, adsrExpCounter, volumeLevel)
    }

    constructor ()
      ensures State() == InitialVoice() && syncTarget == null && syncSource == null
    {
      frequency, ad, sr, pulse, waveform, doSync := 0, 0, 0, 0, 0, false;
      state, accumulator, noiseGenerator := Release, 0, NoiseSeed;
      adsrCounter, adsrExpCounter, volumeLevel := 0, 0, 0;
      syncTarget, syncSource := null, null;
    }

    /** `Clock`: one cycle of envelope and oscillator. */
    method Clock()
      modifies this
      ensures State() == ClockSpec(old(State()))
      ensures syncTarget == old(syncTarget) && syncSource == old(syncSource)
    {
      GateAndCount();
      StepEnvelope();
      StepOscillator();
    }

    /** The gate test and the 15-bit rate counter increment that open `Clock`. */
    method GateAndCount()
      modifies this
      ensures State() == Gated(old(State()))
      ensures syncTarget == old(syncTarget) && syncSource == old(syncSource)
    {
      if Bit(waveform, 1) {
        if state == Release {
          state := Attack;
        }
      } else {
        state := Release;
      }
      adsrCounter := (adsrCounter + 1) % 0x1_0000;
      adsrCounter := adsrCounter % 0x8000;
    }

    /** The `switch (state)` of `Clock`. */
    method StepEnvelope()
      modifies this
      ensures State() == Envelope(old(State()))
      ensures syncTarget == old(syncTarget) && syncSource == old(syncSource)
    {
      var adsrTarget: word;
      match state {
        case Attack =>
          adsrTarget := RatePeriod(ad / 16);
          if adsrCounter == adsrTarget {
            adsrCounter := 0;
            adsrExpCounter := 0;
            volumeLevel := Wrap8(volumeLevel + 1);
            if volumeLevel == 0xff {
              state := Decay;
            }
          }
        case Decay =>
          adsrTarget := RatePeriod(ad % 16);
          if adsrCounter == adsrTarget {
            adsrCounter := 0;
            var adsrExpTarget := ExpTarget(volumeLevel);
            adsrExpCounter := Wrap8(adsrExpCounter + 1);
            if adsrExpCounter >= adsrExpTarget {
              adsrExpCounter := 0;
              if volumeLevel > SustainLevel(sr / 16) {
                volumeLevel := volumeLevel - 1;
              }
            }
          }
        case Release =>
          adsrTarget := RatePeriod(sr % 16);
          if adsrCounter == adsrTarget {
            adsrCounter := 0;
            if volumeLevel > 0 {
              var adsrExpTarget := ExpTarget(volumeLevel);
              adsrExpCounter := Wrap8(adsrExpCounter + 1);
              if adsrExpCounter >= adsrExpTarget {
                adsrExpCounter := 0;
                volumeLevel := volumeLevel - 1;
              }
            }
          }
      }
    }

    /** Phase accumulator, test bit, noise register and sync flag: the end of `Clock`. */
    method StepOscillator()
      modifies this
      ensures State() == Oscillator(old(State()))
      ensures syncTarget == old(syncTarget) && syncSource == old(syncSource)
    {
      ghost var v := State();
      var lastAccumulator := accumulator;
      accumulator := (accumulator + frequency) % UintRange;
      accumulator := accumulator % 0x100_0000;
      if Bit(waveform, 8) {
        accumulator := 0;
        noiseGenerator := NoiseSeed;
      }
      assert accumulator == Oscillator(v).accumulator;
      if Bit(waveform, 0x80) {
        if !Bit(lastAccumulator, 0x8_0000) && Bit(accumulator, 0x8_0000) {
          var temp := noiseGenerator;
          // `step` is non-zero exactly when bits 22 and 17 differ
          var step := Bit(temp, 0x40_0000) != Bit(temp, 0x2_0000);
          temp := (temp * 2) % UintRange;
          if step {
            temp := temp + 1;
          }
          noiseGenerator := temp % 0x80_0000;
          assert noiseGenerator == NoiseShift(v.noise);
        }
      }
      doSync := !Bit(lastAccumulator, 0x80_0000) && Bit(accumulator, 0x80_0000);
    }

    /** One iteration of the register loop of `SID.BufferSamples`: voice `i`'s seven bytes. */
    method Load(regs: seq<byte>, i: nat)
      requires |regs| == 25 && i < 3
      modifies this
      ensures State() == LoadRegisters(old(State()), regs, i)
      ensures syncTarget == old(syncTarget) && syncSource == old(syncSource)
    {
      var ioBase := 7 * i;
      frequency := Word(regs[ioBase], regs[ioBase + 1]);
      pulse := Word(regs[ioBase + 2], regs[ioBase + 3]);
      waveform := regs[ioBase + 4];
      ad := regs[ioBase + 5];
      sr := regs[ioBase + 6];
    }

    method ResetAccumulator()
      modifies this
      ensures State() == PhaseReset(old(State()))
      ensures syncTarget == old(syncTarget) && syncSource == old(syncSource)
    {
      accumulator := 0;
    }
  }

  /** `SID`: three channels wired into the sync ring. */
  class Sid {
    const channels: seq<SidChannel>

    /** Three distinct channels, each pointing at its ring neighbours. */
    ghost predicate Ring()
      reads this, channels
    {
      |channels| == 3 &&
      channels[0] != channels[1] && channels[1] != channels[2] && channels[0] != channels[2] &&
      channels[0].syncTarget == channels[1] && channels[1].syncTarget == channels[2] &&
      channels[2].syncTarget == channels[0] && channels[0].syncSource == channels[2] &&
      channels[1].syncSource == channels[0] && channels[2].syncSource == channels[1]
    }

    ghost predicate Valid()
      reads this, channels
    {
      Ring() && VoicesInv(Voices())
    }

    function Voices(): Voices
      reads this, channels
      requires |channels| == 3
    {
      [channels[0].State(), channels[1].State(), channels[2].State()]
    }

    constructor ()
      ensures Valid() && fresh(channels[0]) && fresh(channels[1]) && fresh(channels[2])
      ensures Voices() == [InitialVoice(), InitialVoice(), InitialVoice()]
    {
      var c0 := new SidChannel();
      var c1 := new SidChannel();
      var c2 := new SidChannel();
      Link(c0, c1);
      Link(c1, c2);
      Link(c2, c0);
      channels := [c0, c1, c2];
    }

    /** Makes `target` the channel that `source` hard-syncs. */
    static method Link(source: SidChannel, target: SidChannel)
      requires source != target
      modifies source, target
      ensures source.syncTarget == target && target.syncSource == source
      ensures source.syncSource == old(source.syncSource) && target.syncTarget == old(target.syncTarget)
      ensures source.State() == old(source.State()) && target.State() == old(target.State())
    {
      source.syncTarget := target;
      target.syncSource := source;
    }

    /**
     * `BufferSamples(cpuCycles)`: load the voice registers from the snapshot
     * of $D400..$D418, then run that many SID cycles.
     */
    method BufferSamples(cpuCycles: int, regs: seq<byte>)
      requires Valid() && |regs| == 25
      modifies channels
      ensures Valid()
      ensures Voices() == BufferSpec(old(Voices()), regs, cpuCycles)
    {
      if cpuCycles == 0 {
        return;
      }
      LoadVoices(regs);
      ghost var loaded := Voices();
      var n := if cpuCycles < 0 then 0 else cpuCycles;
      for i := 0 to n
        invariant Valid()
        invariant Voices() == Run(loaded, i)
      {
        Cycle();
      }
    }

    /** The register loop at the top of `BufferSamples`. */
    method LoadVoices(regs: seq<byte>)
      requires Valid() && |regs| == 25
      modifies channels
      ensures Valid()
      ensures Voices() == LoadAll(old(Voices()), regs)
    {
      ghost var s0 := Voices();
      for i := 0 to 3
        invariant Ring()
        invariant forall k :: 0 <= k < i ==> Voices()[k] == LoadAll(s0, regs)[k]
        invariant forall k :: i <= k < 3 ==> Voices()[k] == s0[k]
      {
        LoadChannel(regs, i);
      }
    }

    method LoadChannel(regs: seq<byte>, i: nat)
      requires Ring() && |regs| == 25 && i < 3
      modifies channels
      ensures Ring()
      ensures Voices() == old(Voices())[i := LoadRegisters(old(Voices())[i], regs, i)]
    {
      channels[i].Load(regs, i);
    }

    /** One SID cycle of the `BufferSamples` loop: clock every channel, then apply hard sync. */
    method Cycle()
      requires Valid()
      modifies channels
      ensures Valid()
      ensures Voices() == CycleSpec(old(Voices()))
    {
      CycleKeepsInv(Voices());
      ghost var before := Voices();
      ClockChannels();
      SyncChannels(before);
    }

    /** `for (j = 0; j < 3; ++j) _channels[j].Clock();` */
    method ClockChannels()
      requires Ring()
      modifies channels
      ensures Ring()
      ensures Voices() == ClockAll(old(Voices()))
    {
      ghost var before := Voices();
      for j := 0 to 3
        invariant Ring()
        invariant forall k :: 0 <= k < j ==> Voices()[k] == ClockSpec(before[k])
        invariant forall k :: j <= k < 3 ==> Voices()[k] == before[k]
      {
        ClockChannel(j);
      }
    }

    method ClockChannel(j: nat)
      requires Ring() && j < 3
      modifies channels
      ensures Ring()
      ensures Voices() == old(Voices())[j := ClockSpec(old(Voices())[j])]
    {
      channels[j].Clock();
    }

    /** The hard-sync loop: a channel whose phase wrapped restarts its target if the target's sync bit is set. */
    method SyncChannels(ghost before: Voices)
      requires Ring() && Voices() == ClockAll(before)
      modifies channels
      ensures Ring()
      ensures Voices() == CycleSpec(before)
    {
      for j := 0 to 3
        invariant Ring()
        invariant Voices() == CycleTo(before, j)
      {
        SyncFrom(j);
      }
    }

    /** One round of the hard-sync loop: channel `j` restarts its target when both conditions hold. */
    method SyncFrom(j: nat)
      requires Ring() && j < 3
      modifies channels
      ensures Ring()
      ensures Voices() == SyncStep(old(Voices()), j)
    {
      var target := channels[j].syncTarget;
      if channels[j].doSync && Bit(target.waveform, 2) {
        target.ResetAccumulator();
      }
    }
  }
}
