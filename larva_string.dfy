/** One string of a chord: 12 drone partials whose levels rise with light
    changes in their own light sub-band and decay over time, three pulse
    accumulators per partial that fire plok voices, and a triangle LFO that
    modulates the detune. */
module LarvaStrings {
  import opened Platform
  import opened LarvaDefs
  import opened PlokVoices

  // ---------------------------------------------------------------- LFO

  datatype LfoState = LfoState(rate: real, timer: int, step: int, hperiod: int)

  predicate LfoInv(l: LfoState)
  {
    l.hperiod >= 1 && 0 <= l.timer <= l.hperiod && (l.step == 1 || l.step == -1)
  }

  function InitialLfo(): LfoState
  {
    LfoState(0.1, 0, 1, 1)
  }

  /** SetRate: the half period is (int)(6 / rate) / 2 in C arithmetic, but
      at least 1; the timer restarts at 0 and the direction is kept. */
  function LfoRated(l: LfoState, rate: real): (r: LfoState)
    requires rate != 0.0
    ensures r.hperiod >= 1 && r.timer == 0 && r.step == l.step && r.rate == rate
    ensures DivT(Trunc(LfoSampleRate as real / rate), 2) >= 1 ==>
      r.hperiod == DivT(Trunc(LfoSampleRate as real / rate), 2)
  {
    var h := DivT(Trunc(LfoSampleRate as real / rate), 2);
    l.(rate := rate, hperiod := if h > 1 then h else 1, timer := 0)
  }

  /** The three string LFO rates give half periods of 30, 66 and 50 updates. */
  lemma StringLfoHalfPeriods(l: LfoState)
    ensures LfoRated(l, LfoRates[0]).hperiod == 30
    ensures LfoRated(l, LfoRates[1]).hperiod == 66
    ensures LfoRated(l, LfoRates[2]).hperiod == 50
  {
    assert LfoSampleRate as real / LfoRates[0] == 60.0;
    assert Trunc(60.0) == 60;
    assert LfoSampleRate as real / LfoRates[1] == 6.0 / 0.045;
    assert 133.0 <= 6.0 / 0.045 < 134.0;
    assert Trunc(6.0 / 0.045) == 133;
    assert LfoSampleRate as real / LfoRates[2] == 100.0;
    assert Trunc(100.0) == 100;
  }

  /** The fraction t / h of a whole h >= 1 with 0 <= t <= h lies in [0, 1]
      and scales back to t. */
  lemma Fraction(t: int, h: int)
    requires 1 <= h && 0 <= t <= h
    ensures 0.0 <= t as real / h as real <= 1.0
    ensures (t as real / h as real) * h as real == t as real
  {
    var q := t as real / h as real;
    assert q * h as real == t as real;
    assert (1.0 - q) * h as real == h as real - t as real;
  }

  /** Get: returns timer / hperiod, then moves the timer one step, turning
      up at 0 and down at the half period. */
  function LfoGet(l: LfoState): (r: (LfoState, real))
    requires LfoInv(l)
    ensures LfoInv(r.0) && r.0.hperiod == l.hperiod && r.0.rate == l.rate
    ensures 0.0 <= r.1 <= 1.0
    ensures r.1 * l.hperiod as real == l.timer as real
  {
    Fraction(l.timer, l.hperiod);
    var st := if l.timer == 0 then 1 else if l.timer >= l.hperiod then -1 else l.step;
    (l.(step := st, timer := l.timer + st), l.timer as real / l.hperiod as real)
  }

  /** n consecutive calls of Get. */
  function LfoRun(l: LfoState, n: nat): (r: LfoState)
    requires LfoInv(l)
    ensures LfoInv(r) && r.hperiod == l.hperiod
  {
    if n == 0 then l else LfoGet(LfoRun(l, n - 1)).0
  }

  /** Position on a triangle of half period h after n steps from 0. */
  function TriPos(n: nat, h: int): int
    requires h >= 1
  {
    var m := n % (2 * h);
    if m <= h then m else 2 * h - m
  }

  /** Uniqueness of Euclidean division: m = q * p + r with 0 <= r < p fixes m % p. */
  lemma ModUnique(m: int, p: int, q: int, r: int)
    requires p >= 1 && 0 <= r < p && m == q * p + r
    ensures m % p == r && m / p == q
  {
    var q', r' := m / p, m % p;
    assert m == q' * p + r';
    if q' > q {
      assert (q' - q) * p == r - r';
      MulLeftMono(1, q' - q, p);
    } else if q' < q {
      assert (q - q') * p == r' - r;
      MulLeftMono(1, q - q', p);
    }
  }

  lemma ModSucc(n: nat, p: int)
    requires p >= 1
    ensures (n + 1) % p == if n % p + 1 < p then n % p + 1 else 0
  {
    var q, r := n / p, n % p;
    assert n == q * p + r;
    if r + 1 < p {
      ModUnique(n + 1, p, q, r + 1);
    } else {
      assert n + 1 == (q + 1) * p + 0;
      ModUnique(n + 1, p, q + 1, 0);
    }
  }

  /** From timer 0 the LFO walks a triangle: after n calls of Get its timer
      is TriPos(n, hperiod), going up on the rising half and down on the
      falling half. */
  lemma {:induction false} LfoTriangle(l: LfoState, n: nat)
    requires LfoInv(l) && l.timer == 0
    ensures LfoRun(l, n).timer == TriPos(n, l.hperiod)
    ensures 0 < n % (2 * l.hperiod) < l.hperiod ==> LfoRun(l, n).step == 1
    ensures l.hperiod < n % (2 * l.hperiod) ==> LfoRun(l, n).step == -1
  {
    var h := l.hperiod;
    if n > 0 {
      LfoTriangle(l, n - 1);
      ModSucc(n - 1, 2 * h);
    }
  }

  lemma TriPosPeriodic(n: nat, h: int)
    requires h >= 1
    ensures TriPos(n, h) == TriPos(n + 2 * h, h)
  {
    var p := 2 * h;
    var q, r := n / p, n % p;
    assert n == q * p + r;
    assert n + p == (q + 1) * p + r;
    ModUnique(n + p, p, q + 1, r);
  }

  /** The LFO output is periodic with period 2 * hperiod and equals
      TriPos / hperiod, so it stays in [0, 1]. */
  lemma LfoOutputPeriodic(l: LfoState, n: nat)
    requires LfoInv(l) && l.timer == 0
    ensures LfoGet(LfoRun(l, n)).1 == TriPos(n, l.hperiod) as real / l.hperiod as real
    ensures LfoGet(LfoRun(l, n)).1 == LfoGet(LfoRun(l, n + 2 * l.hperiod)).1
  {
    var a, b := LfoRun(l, n), LfoRun(l, n + 2 * l.hperiod);
    LfoTriangle(l, n);
    LfoTriangle(l, n + 2 * l.hperiod);
    TriPosPeriodic(n, l.hperiod);
    assert a.timer == b.timer && a.hperiod == b.hperiod;
  }

  /** The triangle LFO of a string. */
  class Lfo {
    var rate: real
    var timer: int
    var step: int
    var hperiod: int

    ghost function Model(): LfoState
      reads this
    {
      LfoState(rate, timer, step, hperiod)
    }

    ghost predicate Valid()
      reads this
    {
      LfoInv(Model())
    }

    constructor ()
      ensures Valid() && Model() == InitialLfo()
    {
      rate, timer, step, hperiod := 0.1, 0, 1, 1;
    }

    method SetRate(value: real)
      requires Valid() && value != 0.0
      modifies this
      ensures Valid() && Model() == LfoRated(old(Model()), value)
    {
      rate := value;
      hperiod := DivT(Trunc(LfoSampleRate as real / rate), 2);
      hperiod := if hperiod > 1 then hperiod else 1;
      timer := 0;
    }

    method Get() returns (v: real)
      requires Valid()
      modifies this
      ensures Valid() && (Model(), v) == LfoGet(old(Model()))
    {
      v := timer as real / hperiod as real;
      if timer == 0 {
        step := 1;
      } else if timer >= hperiod {
        step := -1;
      }
      timer := timer + step;
    }
  }

  // ------------------------------------------------------- gain curves

  lemma MulMonoReal(a: real, b: real, c: real, d: real)
    requires 0.0 <= a <= c && 0.0 <= b <= d
    ensures a * b <= c * d
  {
    assert a * b <= c * b;
    assert c * b <= c * d;
  }

  lemma MulMonoInt(a: int, b: int, c: int, d: int)
    requires 0 <= a <= c && 0 <= b <= d
    ensures a * b <= c * d
  {
    assert a * b <= c * b;
    assert c * b <= c * d;
  }

  /** FreqScaler: 1 at or below the cutoff; above it the curve
      1 - ((f - cutoff) / (fmax - cutoff))^slope * (1 - gmin), floored at gmin. */
  function FreqScaler(num: Numerics, f: real, cutoff: real, fmax: real, gmin: real, slope: real): (g: real)
    requires fmax != cutoff
    ensures f <= cutoff ==> g == 1.0
    ensures f > cutoff ==> g >= gmin
    ensures f > cutoff && gmin <= 1.0 && num.fastPow((f - cutoff) / (fmax - cutoff), slope) >= 0.0 ==> g <= 1.0
  {
    if f <= cutoff then 1.0
    else
      var p := num.fastPow((f - cutoff) / (fmax - cutoff), slope);
      var vg := 1.0 - p * (1.0 - gmin);
      assert p >= 0.0 && gmin <= 1.0 ==> p * (1.0 - gmin) >= 0.0 by {
        if p >= 0.0 && gmin <= 1.0 { MulMonoReal(0.0, 0.0, p, 1.0 - gmin); }
      }
      if vg < gmin then gmin else vg
  }

  /** A frequency-to-gain table: 128 weights in [0, 1]. */
  predicate TableOk(table: seq<real>)
  {
    |table| == Freq2GainTableSize && forall n :: 0 <= n < |table| ==> 0.0 <= table[n] <= 1.0
  }

  /** Freq2GainScaler: a gain byte weighted by the table entry of its
      frequency band; gains at or below the cutoff pass unchanged. */
  function Freq2GainScaler(f: real, g: int, table: seq<real>): (r: int)
    requires 0 <= g < 256 && TableOk(table)
    requires f - FreqCutoff < Freq2GainTableRange
    ensures f <= FreqCutoff ==> r == g
    ensures 0 <= r <= g
  {
    var vdf := f - FreqCutoff;
    if vdf <= 0.0 then g
    else
      TableIndexInRange(f);
      var t := table[TableIndex(f)];
      MulMonoReal(g as real, t, g as real, 1.0);
      MulMonoReal(0.0, 0.0, g as real, t);
      assert 0.0 <= g as real * t <= g as real;
      Trunc(g as real * t)
  }

  /** The byte a drone level maps to: 0 below the start threshold, otherwise
      Arduino map from [150, range] onto [0, 255], stored in a byte. */
  function RawGain(level: int, range: int): int
    requires level >= DroneStartThres ==> range != DroneStartThres
  {
    if level < DroneStartThres then 0 else ToByte(Map(level, DroneStartThres, range, 0, GainMax))
  }

  /** The cubic loudness curve: g^3 >> 16. */
  function Cubed(g: int): int
  {
    g * g * g / 0x1_0000
  }

  /** A partial's gain before smoothing: cubed raw gain weighted by frequency. */
  function PartialGain(level: int, range: int, f: real, table: seq<real>): int
    requires level >= DroneStartThres ==> range != DroneStartThres
    requires TableOk(table) && f - FreqCutoff < Freq2GainTableRange
  {
    if level < DroneStartThres then 0
    else Freq2GainScaler(f, ToByte(Cubed(RawGain(level, range))), table)
  }

  lemma CubedBound(g: int)
    requires 0 <= g <= GainMax
    ensures 0 <= Cubed(g) <= 253
    ensures g == GainMax ==> Cubed(g) == 253
  {
    MulMonoInt(g, g, 255, 255);
    MulMonoInt(g * g, g, 255 * 255, 255);
  }

  lemma DivTExact(k: nat, x: int)
    requires x > 0
    ensures DivT(k * x, x) == k
  {
    ModUnique(k * x, x, k, 0);
  }

  /** For a level within [0, range] (range above the start threshold) the
      map lands in [0, 255] without wrapping, and reaches 255 at full range. */
  lemma RawGainRange(level: int, range: int)
    requires DroneStartThres < range && 0 <= level <= range
    ensures 0 <= RawGain(level, range) <= GainMax
    ensures level == range ==> RawGain(level, range) == GainMax
  {
    if level >= DroneStartThres {
      MapWithin(level, DroneStartThres, range, 0, GainMax);
      if level == range {
        assert (range - DroneStartThres) * (GainMax - 0) == GainMax * (range - DroneStartThres);
        DivTExact(GainMax, range - DroneStartThres);
      }
    }
  }

  /** A partial's gain is 0 below the start threshold, never exceeds its
      cubed raw gain, which is at most 253 and exactly 253 at full range. */
  lemma GainCurve(level: int, range: int, f: real, table: seq<real>)
    requires DroneStartThres < range && 0 <= level <= range
    requires TableOk(table) && f - FreqCutoff < Freq2GainTableRange
    ensures level < DroneStartThres ==> PartialGain(level, range, f, table) == 0
    ensures level == range ==> Cubed(RawGain(level, range)) == 253
    ensures 0 <= PartialGain(level, range, f, table) <= Cubed(RawGain(level, range)) <= 253
  {
    RawGainRange(level, range);
    CubedBound(RawGain(level, range));
  }

  // ------------------------------------------------------- string state

  /** The random draws of one retune: the partial offset (rand(3)) and one
      random(2000) detune draw per partial. */
  datatype RetuneDraws = RetuneDraws(offset: int, detune: seq<int>)

  predicate RetuneDrawsOk(d: RetuneDraws)
  {
    0 <= d.offset < MaxTuningOffset && |d.detune| == NumPartials &&
    forall i :: 0 <= i < NumPartials ==> 0 <= d.detune[i] < 2000
  }

  /** The random draws of one pulse: rand(2000) for Q and rand(20) for duration. */
  datatype PulseDraw = PulseDraw(res: int, dur: int)

  predicate PulseDrawOk(d: PulseDraw)
  {
    0 <= d.res < 2000 && 0 <= d.dur < PlokImpulseDurRange
  }

  predicate PulseDrawsOk(ds: seq<PulseDraw>)
  {
    |ds| == NumPartials && forall i :: 0 <= i < NumPartials ==> PulseDrawOk(ds[i])
  }

  datatype StringState = StringState(
    id: int, active: bool, triggered: bool, fundFreq: real,
    baseFreq: seq<real>, detune: seq<real>, freq: seq<real>,
    gains: seq<int>, smoothGains: seq<int>, cutoffPartial: int,
    ploks: SynthState, pulseMasterGain: real, pulseResonanceAvg: real,
    pulseL: seq<int>, pulseM: seq<int>, pulseS: seq<int>,
    thresL: int, thresM: int, thresS: int,
    droneLevels: seq<int>, droneRange: int, decreaseStepMaster: int,
    decreaseStep: seq<int>, decreaseTime: int,
    lightMin: seq<int>, lightMax: seq<int>,
    lfo: LfoState, lfoUpdateTimer: int)

  /** Twelve values that each fit in a byte. */
  predicate Bytes(xs: seq<int>)
  {
    |xs| == NumPartials && forall i :: 0 <= i < NumPartials ==> 0 <= xs[i] < 256
  }

  /** Tuning stays inside the range the frequency table covers: the
      fundamental is a chord-table frequency, the offset is 1..3, every base
      frequency is at most 14 * MaxFundamental, and the current frequency is
      within the detune (at most 1%) of its base. */
  predicate TuningOk(fund: real, cp: int, base: seq<real>, detune: seq<real>, freq: seq<real>)
  {
    |base| == |detune| == |freq| == NumPartials &&
    0.0 < fund <= MaxFundamental && 1 <= cp <= MaxTuningOffset &&
    forall i :: 0 <= i < NumPartials ==>
      0.0 <= base[i] <= 14.0 * MaxFundamental &&
      AbsR(detune[i]) <= DetuneFactor * base[i] &&
      AbsR(freq[i] - base[i]) <= AbsR(detune[i])
  }

  predicate StringInv(s: StringState)
  {
    |s.pulseL| == |s.pulseM| == |s.pulseS| == |s.droneLevels| == |s.decreaseStep| == NumPartials &&
    |s.lightMin| == |s.lightMax| == NumPartials &&
    Bytes(s.gains) && Bytes(s.smoothGains) &&
    SynthInv(s.ploks) && LfoInv(s.lfo) && 0 <= s.decreaseTime < 0x1_0000_0000 &&
    0 <= s.lfoUpdateTimer < LfoUpdateInterval &&
    TuningOk(s.fundFreq, s.cutoffPartial, s.baseFreq, s.detune, s.freq)
  }

  /** The part of the invariant the pulse scan relies on: per-partial
      accumulators and frequencies, and a well-formed pulse pool. */
  predicate PulseShape(s: StringState)
  {
    |s.pulseL| == |s.pulseM| == |s.pulseS| == |s.freq| == NumPartials && SynthInv(s.ploks)
  }

  /** Every current frequency indexes inside the frequency-to-gain table. */
  lemma FreqInTableRange(s: StringState, i: int)
    requires StringInv(s) && 0 <= i < NumPartials
    ensures s.freq[i] - FreqCutoff < Freq2GainTableRange
  {
    MulMonoReal(DetuneFactor, s.baseFreq[i], DetuneFactor, 14.0 * MaxFundamental);
  }

  /** Drone levels within [0, range]. */
  predicate LevelsWithin(levels: seq<int>, range: int)
  {
    forall i :: 0 <= i < |levels| ==> 0 <= levels[i] <= range
  }

  predicate NonNegative(xs: seq<int>)
  {
    forall i :: 0 <= i < |xs| ==> 0 <= xs[i]
  }

  /** Drone levels stay within [0, range] when the decay steps are non-negative. */
  predicate DroneBounded(s: StringState)
  {
    0 <= s.decreaseStepMaster && LevelsWithin(s.droneLevels, s.droneRange) && NonNegative(s.decreaseStep)
  }

  /** The gain map divides by range - 150 whenever a level reaches 150. */
  predicate GainMapDefined(s: StringState)
  {
    forall i :: 0 <= i < |s.droneLevels| && s.droneLevels[i] >= DroneStartThres ==> s.droneRange != DroneStartThres
  }

  function Zeros(n: nat): seq<int> { seq(n, _ => 0) }
  function ZerosR(n: nat): seq<real> { seq(n, _ => 0.0) }

  function InitialString(num: Numerics): (s: StringState)
    ensures StringInv(s) && DroneBounded(s)
  {
    StringState(0, false, false, 333.0,
      ZerosR(NumPartials), ZerosR(NumPartials), ZerosR(NumPartials),
      Zeros(NumPartials), Zeros(NumPartials), 1,
      InitialSynth(num), 1.0, PulseResonanceMin,
      Zeros(NumPartials), Zeros(NumPartials), Zeros(NumPartials),
      0, 0, 0,
      Zeros(NumPartials), 0, 66, Zeros(NumPartials), 0,
      Zeros(NumPartials), Zeros(NumPartials),
      InitialLfo(), 0)
  }

  // ------------------------------------------------------------ retune

  /** The random detune of a partial with base frequency b. */
  function Detune(draw: int, b: real): real
  {
    (draw as real * 0.001 - 1.0) * (DetuneFactor * b)
  }

  lemma DetuneBound(draw: int, b: real)
    requires 0 <= draw < 2000 && b >= 0.0
    ensures AbsR(Detune(draw, b)) <= DetuneFactor * b
  {
    var a := draw as real * 0.001 - 1.0;
    var c := DetuneFactor * b;
    if a >= 0.0 {
      MulMonoReal(a, c, 1.0, c);
    } else {
      MulMonoReal(-a, c, 1.0, c);
      assert Detune(draw, b) == -((-a) * c);
    }
  }

  /** The decay step of a partial: master / max(scaler, 1e-5), truncated. */
  function DecreaseStep(master: int, scaler: real): (n: int)
    ensures master >= 0 ==> n >= 0
  {
    var vs := if scaler > 0.00001 then scaler else 0.00001;
    assert master >= 0 ==> master as real / vs >= 0.0;
    Trunc(master as real / vs)
  }

  /** fastPow returns a non-negative power of a non-negative base. */
  ghost predicate PowNonNeg(num: Numerics)
  {
    forall x: real, y: real :: x >= 0.0 ==> num.fastPow(x, y) >= 0.0
  }

  /** The decay scaler of a frequency: 1 up to 800 Hz, then down to 0.1. */
  function DecayScaler(num: Numerics, f: real): real
  {
    FreqScaler(num, f, DecrCutoff, DecrFreqMax, DecrHF, DecrSlope)
  }

  /** Base frequency of partial number n of a string on fund: n * fund. */
  function PartialBase(fund: real, n: int): real
  {
    fund * n as real
  }

  /** Base frequencies of a retune: fund * (offset + i). */
  function RetuneBases(fund: real, cp: int): (base: seq<real>)
    requires 0.0 < fund <= MaxFundamental && 1 <= cp <= MaxTuningOffset
    ensures |base| == NumPartials
    ensures forall i :: 0 <= i < NumPartials ==>
      base[i] == PartialBase(fund, cp + i) && 0.0 <= base[i] <= 14.0 * MaxFundamental
  {
    var base := seq(NumPartials, i => PartialBase(fund, cp + i));
    assert forall i :: 0 <= i < NumPartials ==> 0.0 <= base[i] <= 14.0 * MaxFundamental by {
      forall i | 0 <= i < NumPartials
        ensures 0.0 <= base[i] <= 14.0 * MaxFundamental
      {
        assert base[i] == PartialBase(fund, cp + i);
        MulMonoReal(fund, (cp + i) as real, MaxFundamental, 14.0);
      }
    }
    base
  }

  /** Random detunes of a retune, at most 1% of each base frequency. */
  function RetuneDetunes(base: seq<real>, draws: seq<int>): (det: seq<real>)
    requires |base| == |draws| == NumPartials
    requires forall i :: 0 <= i < NumPartials ==> 0.0 <= base[i] && 0 <= draws[i] < 2000
    ensures |det| == NumPartials
    ensures forall i :: 0 <= i < NumPartials ==>
      det[i] == Detune(draws[i], base[i]) && AbsR(det[i]) <= DetuneFactor * base[i]
  {
    var det := seq(NumPartials, i requires 0 <= i < NumPartials => Detune(draws[i], base[i]));
    assert forall i :: 0 <= i < NumPartials ==> AbsR(det[i]) <= DetuneFactor * base[i] by {
      forall i | 0 <= i < NumPartials
        ensures AbsR(det[i]) <= DetuneFactor * base[i]
      {
        DetuneBound(draws[i], base[i]);
      }
    }
    det
  }

  /** Retuned frequencies: base + detune. */
  function RetuneFreqs(base: seq<real>, det: seq<real>): (fr: seq<real>)
    requires |base| == |det| == NumPartials
    ensures |fr| == NumPartials
    ensures forall i :: 0 <= i < NumPartials ==> fr[i] == base[i] + det[i]
  {
    seq(NumPartials, i requires 0 <= i < NumPartials => base[i] + det[i])
  }

  lemma RetuneTuningOk(fund: real, cp: int, base: seq<real>, det: seq<real>, fr: seq<real>)
    requires 0.0 < fund <= MaxFundamental && 1 <= cp <= MaxTuningOffset
    requires |base| == |det| == |fr| == NumPartials
    requires forall i :: 0 <= i < NumPartials ==> 0.0 <= base[i] <= 14.0 * MaxFundamental
    requires forall i :: 0 <= i < NumPartials ==> AbsR(det[i]) <= DetuneFactor * base[i]
    requires forall i :: 0 <= i < NumPartials ==> fr[i] == base[i] + det[i]
    ensures TuningOk(fund, cp, base, det, fr)
  {
  }

  /** Decay steps of the retuned frequencies. */
  function RetuneSteps(num: Numerics, master: int, fr: seq<real>): (steps: seq<int>)
    requires |fr| == NumPartials
    ensures |steps| == NumPartials
    ensures forall i :: 0 <= i < NumPartials ==> steps[i] == DecreaseStep(master, DecayScaler(num, fr[i]))
  {
    seq(NumPartials, i requires 0 <= i < NumPartials => DecreaseStep(master, DecayScaler(num, fr[i])))
  }

  /** Retune: picks the partial offset, sets base frequencies fund * (offset + i),
      draws a detune of at most 1% per partial, and recomputes decay steps. */
  function Retuned(s: StringState, num: Numerics, fund: real, d: RetuneDraws): (r: StringState)
    requires StringInv(s) && RetuneDrawsOk(d) && 0.0 < fund <= MaxFundamental
    ensures StringInv(r)
    ensures r.fundFreq == fund && r.cutoffPartial == d.offset + 1 && 1 <= r.cutoffPartial <= MaxTuningOffset
    ensures r.baseFreq == RetuneBases(fund, d.offset + 1)
    ensures r.detune == RetuneDetunes(r.baseFreq, d.detune)
    ensures r.freq == RetuneFreqs(r.baseFreq, r.detune)
    ensures r.decreaseStep == RetuneSteps(num, s.decreaseStepMaster, r.freq)
    ensures r == s.(cutoffPartial := r.cutoffPartial, fundFreq := r.fundFreq, baseFreq := r.baseFreq,
      detune := r.detune, freq := r.freq, decreaseStep := r.decreaseStep)
  {
    var cp := d.offset + 1;
    var base := RetuneBases(fund, cp);
    var det := RetuneDetunes(base, d.detune);
    var fr := RetuneFreqs(base, det);
    RetuneTuningOk(fund, cp, base, det, fr);
    s.(cutoffPartial := cp, fundFreq := fund, baseFreq := base, detune := det, freq := fr,
      decreaseStep := RetuneSteps(num, s.decreaseStepMaster, fr))
  }

  lemma DecreaseStepRange(master: int, g: real)
    requires master >= 0 && DecrHF <= g <= 1.0
    ensures master <= DecreaseStep(master, g) <= 10 * master
    ensures g == 1.0 ==> DecreaseStep(master, g) == master
  {
    var m := master as real;
    var q := m / g;
    QuotientBounds(m, g, DecrHF);
    assert DecrHF == 0.1;
    assert q <= 10.0 * m;
    assert DecreaseStep(master, g) == Trunc(q);
  }

  /** Dividing m >= 0 by g in [lo, 1] gives at least m, and at most m / lo. */
  lemma QuotientBounds(m: real, g: real, lo: real)
    requires 0.0 <= m && 0.0 < lo <= g <= 1.0
    ensures m <= m / g && (m / g) * lo <= m
  {
    var q := m / g;
    assert q * g == m;
    assert q >= 0.0;
    MulMonoReal(q, g, q, 1.0);
    MulMonoReal(q, lo, q, g);
  }

  lemma DecayStepBounds(num: Numerics, master: int, f: real)
    requires PowNonNeg(num) && master >= 0
    ensures master <= DecreaseStep(master, DecayScaler(num, f)) <= 10 * master
    ensures f <= DecrCutoff ==> DecreaseStep(master, DecayScaler(num, f)) == master
  {
    var g := DecayScaler(num, f);
    if f > DecrCutoff {
      var x := (f - DecrCutoff) / (DecrFreqMax - DecrCutoff);
      assert x >= 0.0;
      assert num.fastPow(x, DecrSlope) >= 0.0;
    }
    DecreaseStepRange(master, g);
  }

  /** After a retune every partial's decay step lies between the master step
      and ten times it, and equals the master step at or below 800 Hz. */
  lemma RetuneDecaySteps(s: StringState, num: Numerics, fund: real, d: RetuneDraws)
    requires StringInv(s) && RetuneDrawsOk(d) && 0.0 < fund <= MaxFundamental
    requires PowNonNeg(num) && s.decreaseStepMaster >= 0
    ensures var r := Retuned(s, num, fund, d);
      forall i :: 0 <= i < NumPartials ==>
        s.decreaseStepMaster <= r.decreaseStep[i] <= 10 * s.decreaseStepMaster &&
        (r.freq[i] <= DecrCutoff ==> r.decreaseStep[i] == s.decreaseStepMaster)
  {
    var r := Retuned(s, num, fund, d);
    forall i | 0 <= i < NumPartials
      ensures s.decreaseStepMaster <= r.decreaseStep[i] <= 10 * s.decreaseStepMaster
      ensures r.freq[i] <= DecrCutoff ==> r.decreaseStep[i] == s.decreaseStepMaster
    {
      DecayStepBounds(num, s.decreaseStepMaster, r.freq[i]);
    }
  }

  // ------------------------------------------------------ mute / unmute

  /** Mute: an active string becomes inactive; nothing else changes. */
  function Muted(s: StringState): (r: StringState)
    ensures !r.active && r.(active := s.active) == s
  {
    s.(active := false)
  }

  lemma MuteIdempotent(s: StringState)
    ensures Muted(Muted(s)) == Muted(s)
    ensures !s.active ==> Muted(s) == s
  {
  }

  /** Unmute: an inactive string is retuned to its stored fundamental and
      becomes active and triggered; an active string is left alone. */
  function Unmuted(s: StringState, num: Numerics, d: RetuneDraws): (r: StringState)
    requires StringInv(s) && RetuneDrawsOk(d)
    ensures StringInv(r) && r.active
    ensures s.active ==> r == s
    ensures !s.active ==> (r.triggered &&
      r.(active := false, triggered := s.triggered) == Retuned(s, num, s.fundFreq, d))
  {
    if s.active then s else Retuned(s, num, s.fundFreq, d).(active := true, triggered := true)
  }

  // ------------------------------------------------------ level updates

  /** Whether partial i's light sub-band [min, max) contains the input. */
  predicate InBand(s: StringState, input: int, i: int)
    requires StringInv(s) && 0 <= i < NumPartials
  {
    s.lightMin[i] <= input < s.lightMax[i]
  }

  function RaisedDrone(s: StringState, input: int, delta: int, i: int): int
    requires StringInv(s) && 0 <= i < NumPartials
  {
    if InBand(s, input, i) then Min(s.droneLevels[i] + delta, s.droneRange) else s.droneLevels[i]
  }

  function RaisedPulse(s: StringState, acc: seq<int>, input: int, delta: int, i: int): int
    requires StringInv(s) && |acc| == NumPartials && 0 <= i < NumPartials
  {
    if InBand(s, input, i) then acc[i] + delta else acc[i]
  }

  /** UpdateLevels: on a light change of at least 80, every partial whose
      sub-band holds the input gains delta on its drone level (clipped at
      the drone range) and on its three pulse accumulators (unclipped). */
  function LevelsRaised(s: StringState, input: int, delta: int): (r: StringState)
    requires StringInv(s)
    ensures StringInv(r)
    ensures delta < LightTriggerThreshold ==> r == s
    ensures r == s.(droneLevels := r.droneLevels, pulseL := r.pulseL, pulseM := r.pulseM, pulseS := r.pulseS)
  {
    if delta < LightTriggerThreshold then s
    else s.(droneLevels := seq(NumPartials, i requires 0 <= i < NumPartials => RaisedDrone(s, input, delta, i)),
      pulseL := seq(NumPartials, i requires 0 <= i < NumPartials => RaisedPulse(s, s.pulseL, input, delta, i)),
      pulseM := seq(NumPartials, i requires 0 <= i < NumPartials => RaisedPulse(s, s.pulseM, input, delta, i)),
      pulseS := seq(NumPartials, i requires 0 <= i < NumPartials => RaisedPulse(s, s.pulseS, input, delta, i)))
  }

  /** A light change below 80 leaves the string as it is; from 80 on, only
      the partials whose band holds the input change: their drone level
      becomes min(level + delta, range) and each accumulator grows by exactly
      delta. Drone levels stay within [0, range]. */
  lemma LevelsRaisedEffect(s: StringState, input: int, delta: int)
    requires StringInv(s)
    ensures delta < LightTriggerThreshold ==> LevelsRaised(s, input, delta) == s
    ensures var r := LevelsRaised(s, input, delta);
      delta >= LightTriggerThreshold ==>
        forall i :: 0 <= i < NumPartials ==>
          (s.lightMin[i] <= input < s.lightMax[i] ==>
            r.droneLevels[i] == Min(s.droneLevels[i] + delta, s.droneRange) &&
            r.pulseL[i] == s.pulseL[i] + delta && r.pulseM[i] == s.pulseM[i] + delta &&
            r.pulseS[i] == s.pulseS[i] + delta) &&
          (!(s.lightMin[i] <= input < s.lightMax[i]) ==>
            r.droneLevels[i] == s.droneLevels[i] && r.pulseL[i] == s.pulseL[i] &&
            r.pulseM[i] == s.pulseM[i] && r.pulseS[i] == s.pulseS[i])
    ensures DroneBounded(s) ==> DroneBounded(LevelsRaised(s, input, delta))
  {
  }

  // ------------------------------------------------------------- decay

  /** Drone decay: more than 20 ms after the last decay, every level drops
      by its decay step, floored at 0, and the decay time is reset. */
  function Decayed(s: StringState, now: ULong): (r: StringState)
    requires StringInv(s)
    ensures StringInv(r)
  {
    if Elapsed(now, s.decreaseTime) > DroneDecreaseRate then
      s.(droneLevels := seq(NumPartials, i requires 0 <= i < NumPartials =>
          Max(s.droneLevels[i] - s.decreaseStep[i], 0)),
        decreaseTime := now)
    else s
  }

  /** Decay never raises a level, never goes below 0 and keeps drone levels
      within [0, range]; it does nothing within 20 ms of the last decay. */
  lemma DecayedBounds(s: StringState, now: ULong)
    requires StringInv(s) && DroneBounded(s)
    ensures var r := Decayed(s, now);
      DroneBounded(r) &&
      (forall i :: 0 <= i < NumPartials ==> 0 <= r.droneLevels[i] <= s.droneLevels[i]) &&
      (Elapsed(now, s.decreaseTime) <= DroneDecreaseRate ==> r == s) &&
      (Elapsed(now, s.decreaseTime) > DroneDecreaseRate ==> (r.decreaseTime == now &&
        forall i :: 0 <= i < NumPartials && s.droneLevels[i] <= s.decreaseStep[i] ==> r.droneLevels[i] == 0))
  {
  }

  // ------------------------------------------------------------ pulses

  /** The dithered Q of a random pulse: avg + (rand(2000) * 0.001 - 1) * 5. */
  function PulseQ(avg: real, d: PulseDraw): (q: real)
    requires PulseDrawOk(d)
    ensures avg - PulseResonanceRandRange <= q < avg + PulseResonanceRandRange
  {
    avg + (d.res as real * 0.001 - 1.0) * PulseResonanceRandRange
  }

  /** The impulse duration of a random pulse: 10 + rand(20). */
  function PulseDur(d: PulseDraw): (n: int)
    requires PulseDrawOk(d)
    ensures PlokImpulseDurMin <= n < PlokImpulseDurMin + PlokImpulseDurRange
  {
    PlokImpulseDurMin + d.dur
  }

  /** The level of a random pulse: the tier's gain times the master gain. */
  function PulseLevel(gain: real, master: real): real
  {
    gain * master
  }

  /** The trigger level of each tier: its pulse gain times the master gain. */
  function PulseLevels(s: StringState): (lv: seq<real>)
    ensures |lv| == 3
  {
    [PulseLevel(PulseGainL, s.pulseMasterGain), PulseLevel(PulseGainM, s.pulseMasterGain),
     PulseLevel(PulseGainS, s.pulseMasterGain)]
  }

  /** The tier partial i fires: 1 (large), 2 (medium), 3 (small) or 0 (none).
      The scan step of a partial touches only that partial's accumulators,
      so its tier depends on the accumulators before the scan. */
  function Tier(s: StringState, i: int): (t: int)
    requires PulseShape(s) && 0 <= i < NumPartials
    ensures 0 <= t <= 3
  {
    if s.pulseL[i] >= s.thresL then 1
    else if s.pulseM[i] >= s.thresM then 2
    else if s.pulseS[i] >= s.thresS then 3
    else 0
  }

  /** The parameters of one TriggerRandomPulse call: the partial's
      frequency, the dithered Q, the tier's level and the impulse duration. */
  datatype PulseRequest = PulseRequest(freq: real, q: real, level: real, dur: int)

  /** The pulse partial i asks for when it fires with tier t. */
  function Request(s: StringState, lv: seq<real>, i: int, t: int, d: PulseDraw): (r: PulseRequest)
    requires PulseShape(s) && |lv| == 3 && 0 <= i < NumPartials && 1 <= t <= 3 && PulseDrawOk(d)
    ensures r.freq == s.freq[i] && r.level == lv[t - 1]
    ensures PlokImpulseDurMin <= r.dur < PlokImpulseDurMin + PlokImpulseDurRange
    ensures s.pulseResonanceAvg - PulseResonanceRandRange <= r.q < s.pulseResonanceAvg + PulseResonanceRandRange
  {
    PulseRequest(s.freq[i], PulseQ(s.pulseResonanceAvg, d), lv[t - 1], PulseDur(d))
  }

  /** The pulses a scan over partials 0 .. n-1 asks for, in partial order:
      one per firing partial. */
  function ScanRequests(s: StringState, ds: seq<PulseDraw>, lv: seq<real>, n: int): (r: seq<PulseRequest>)
    requires PulseShape(s) && PulseDrawsOk(ds) && |lv| == 3 && 0 <= n <= NumPartials
    ensures |r| <= n
  {
    if n == 0 then []
    else
      var t := Tier(s, n - 1);
      ScanRequests(s, ds, lv, n - 1) + if t == 0 then [] else [Request(s, lv, n - 1, t, ds[n - 1])]
  }

  /** The number of partials among 0 .. n-1 that fire. */
  function FireCount(s: StringState, n: int): (c: int)
    requires PulseShape(s) && 0 <= n <= NumPartials
    ensures 0 <= c <= n
  {
    if n == 0 then 0 else FireCount(s, n - 1) + (if Tier(s, n - 1) != 0 then 1 else 0)
  }

  /** A scan asks for exactly one pulse per firing partial, each with a
      duration in [10, 29] and a Q within 5 of the average resonance. */
  lemma {:induction false} ScanRequestsCount(s: StringState, ds: seq<PulseDraw>, lv: seq<real>, n: int)
    requires PulseShape(s) && PulseDrawsOk(ds) && |lv| == 3 && 0 <= n <= NumPartials
    ensures |ScanRequests(s, ds, lv, n)| == FireCount(s, n)
    ensures forall k :: 0 <= k < |ScanRequests(s, ds, lv, n)| ==>
      PlokImpulseDurMin <= ScanRequests(s, ds, lv, n)[k].dur < PlokImpulseDurMin + PlokImpulseDurRange &&
      s.pulseResonanceAvg - PulseResonanceRandRange <= ScanRequests(s, ds, lv, n)[k].q < s.pulseResonanceAvg + PulseResonanceRandRange
  {
    if n > 0 {
      ScanRequestsCount(s, ds, lv, n - 1);
    }
  }

  /** The pool after serving a list of pulse requests in order. */
  function Fired(ploks: SynthState, num: Numerics, reqs: seq<PulseRequest>): (r: SynthState)
    requires SynthInv(ploks)
    ensures SynthInv(r)
  {
    if reqs == [] then ploks
    else
      var last := reqs[|reqs| - 1];
      SynthTrigger(Fired(ploks, num, reqs[..|reqs| - 1]), num, last.freq, last.q, last.level, last.dur)
  }

  /** Each request takes one more voice until the pool is full: the count
      grows by the number of requests, saturating at 12; the active list is
      untouched. */
  lemma {:induction false} FiredCount(ploks: SynthState, num: Numerics, reqs: seq<PulseRequest>)
    requires SynthInv(ploks)
    ensures Fired(ploks, num, reqs).nActive == Min(ploks.nActive + |reqs|, NumVoices)
    ensures Fired(ploks, num, reqs).activeList == ploks.activeList
  {
    if reqs != [] {
      var init := reqs[..|reqs| - 1];
      var last := reqs[|reqs| - 1];
      FiredCount(ploks, num, init);
      AvailableIffTriggerTakesVoice(Fired(ploks, num, init), num, last.freq, last.q, last.level, last.dur);
    }
  }

  /** Serving one more request is one more SynthTrigger on the pool. */
  lemma FiredSnoc(ploks: SynthState, num: Numerics, reqs: seq<PulseRequest>, r: PulseRequest)
    requires SynthInv(ploks)
    ensures Fired(ploks, num, reqs + [r]) ==
      SynthTrigger(Fired(ploks, num, reqs), num, r.freq, r.q, r.level, r.dur)
  {
    assert (reqs + [r])[..|reqs|] == reqs;
  }

  /** An accumulator after the scan: reset to 0 when its tier fired. */
  function ScannedAcc(s: StringState, acc: seq<int>, tier: int): (r: seq<int>)
    requires PulseShape(s) && |acc| == NumPartials
    ensures |r| == NumPartials
    ensures forall i :: 0 <= i < NumPartials ==> r[i] == if Tier(s, i) == tier then 0 else acc[i]
  {
    seq(NumPartials, i requires 0 <= i < NumPartials => if Tier(s, i) == tier then 0 else acc[i])
  }

  /** The pulse scan of Update: every partial's firing tier is reset to 0 and
      the requested pulses are served by the pool in partial order. */
  function ScanApplied(s: StringState, num: Numerics, ds: seq<PulseDraw>): (r: StringState)
    requires StringInv(s) && PulseDrawsOk(ds)
    ensures StringInv(r)
  {
    s.(pulseL := ScannedAcc(s, s.pulseL, 1), pulseM := ScannedAcc(s, s.pulseM, 2),
      pulseS := ScannedAcc(s, s.pulseS, 3),
      ploks := Fired(s.ploks, num, ScanRequests(s, ds, PulseLevels(s), NumPartials)))
  }

  /** At most one tier fires per partial, chosen in the order large, medium,
      small: the first accumulator at or above its threshold is reset to 0
      and the other two keep their values; a partial below all three
      thresholds keeps all three. Afterwards, with a positive large threshold,
      every large accumulator lies below it. The pool takes one voice per
      firing partial until it is full. */
  lemma ScanTiers(s: StringState, num: Numerics, ds: seq<PulseDraw>)
    requires StringInv(s) && PulseDrawsOk(ds)
    ensures var r := ScanApplied(s, num, ds);
      (forall i :: 0 <= i < NumPartials ==>
        (s.pulseL[i] >= s.thresL ==>
          r.pulseL[i] == 0 && r.pulseM[i] == s.pulseM[i] && r.pulseS[i] == s.pulseS[i]) &&
        (s.pulseL[i] < s.thresL && s.pulseM[i] >= s.thresM ==>
          r.pulseL[i] == s.pulseL[i] && r.pulseM[i] == 0 && r.pulseS[i] == s.pulseS[i]) &&
        (s.pulseL[i] < s.thresL && s.pulseM[i] < s.thresM && s.pulseS[i] >= s.thresS ==>
          r.pulseL[i] == s.pulseL[i] && r.pulseM[i] == s.pulseM[i] && r.pulseS[i] == 0) &&
        (s.pulseL[i] < s.thresL && s.pulseM[i] < s.thresM && s.pulseS[i] < s.thresS ==>
          r.pulseL[i] == s.pulseL[i] && r.pulseM[i] == s.pulseM[i] && r.pulseS[i] == s.pulseS[i]) &&
        (s.thresL > 0 ==> r.pulseL[i] < s.thresL)) &&
      r.ploks.nActive == Min(s.ploks.nActive + FireCount(s, NumPartials), NumVoices) &&
      r.ploks.activeList == s.ploks.activeList
  {
    var reqs := ScanRequests(s, ds, PulseLevels(s), NumPartials);
    ScanRequestsCount(s, ds, PulseLevels(s), NumPartials);
    FiredCount(s.ploks, num, reqs);
  }

  // --------------------------------------------------------------- LFO

  /** Frequencies modulated by an LFO value v in [0, 1]: base + detune * v,
      so each stays between its base and base + detune. */
  function ModulatedFreqs(base: seq<real>, detune: seq<real>, v: real): (fr: seq<real>)
    requires |base| == |detune| == NumPartials && 0.0 <= v <= 1.0
    ensures |fr| == NumPartials
    ensures forall i :: 0 <= i < NumPartials ==> fr[i] == base[i] + detune[i] * v
    ensures forall i :: 0 <= i < NumPartials ==>
      MinR(base[i], base[i] + detune[i]) <= fr[i] <= MaxR(base[i], base[i] + detune[i])
    ensures forall i :: 0 <= i < NumPartials ==> AbsR(fr[i] - base[i]) <= AbsR(detune[i])
  {
    var fr := seq(NumPartials, i requires 0 <= i < NumPartials => base[i] + detune[i] * v);
    assert forall i :: 0 <= i < NumPartials ==>
      MinR(base[i], base[i] + detune[i]) <= fr[i] <= MaxR(base[i], base[i] + detune[i]) &&
      AbsR(fr[i] - base[i]) <= AbsR(detune[i]) by {
      forall i | 0 <= i < NumPartials
        ensures MinR(base[i], base[i] + detune[i]) <= fr[i] <= MaxR(base[i], base[i] + detune[i])
        ensures AbsR(fr[i] - base[i]) <= AbsR(detune[i])
      {
        ScaledDetune(base[i], detune[i], v);
      }
    }
    fr
  }

  /** base + d * v for v in [0, 1] lies between base and base + d. */
  lemma ScaledDetune(b: real, d: real, v: real)
    requires 0.0 <= v <= 1.0
    ensures MinR(b, b + d) <= b + d * v <= MaxR(b, b + d)
    ensures AbsR((b + d * v) - b) <= AbsR(d)
  {
    if d >= 0.0 {
      MulMonoReal(d, v, d, 1.0);
      MulMonoReal(0.0, 0.0, d, v);
    } else {
      MulMonoReal(-d, v, -d, 1.0);
      MulMonoReal(0.0, 0.0, -d, v);
      assert d * v == -((-d) * v);
    }
  }

  /** Frequency modulation: every tenth update the LFO is read and each
      frequency becomes base + detune * lfo. */
  function Modulated(s: StringState): (r: StringState)
    requires StringInv(s)
    ensures StringInv(r)
  {
    var t := s.lfoUpdateTimer + 1;
    if t >= LfoUpdateInterval then
      var g := LfoGet(s.lfo);
      s.(lfo := g.0, lfoUpdateTimer := 0, freq := ModulatedFreqs(s.baseFreq, s.detune, g.1))
    else s.(lfoUpdateTimer := t)
  }

  /** The LFO is read on exactly every tenth update; in between, the
      frequencies and the LFO are left alone, and on a read every partial
      frequency lies between its base and base + detune. */
  lemma ModulatedRange(s: StringState)
    requires StringInv(s)
    ensures var r := Modulated(s);
      (s.lfoUpdateTimer + 1 < LfoUpdateInterval ==>
        r.lfo == s.lfo && r.freq == s.freq && r.lfoUpdateTimer == s.lfoUpdateTimer + 1) &&
      (s.lfoUpdateTimer + 1 == LfoUpdateInterval ==>
        r.lfo == LfoGet(s.lfo).0 && r.lfoUpdateTimer == 0 &&
        forall i :: 0 <= i < NumPartials ==>
          MinR(s.baseFreq[i], s.baseFreq[i] + s.detune[i]) <= r.freq[i] <= MaxR(s.baseFreq[i], s.baseFreq[i] + s.detune[i]))
  {
    if s.lfoUpdateTimer + 1 == LfoUpdateInterval {
      var g := LfoGet(s.lfo);
      assert Modulated(s).freq == ModulatedFreqs(s.baseFreq, s.detune, g.1);
    }
  }

  // ------------------------------------------------------------ update

  /** Sum of the smoothed gains. */
  function Sum(xs: seq<int>): int
  {
    if xs == [] then 0 else Sum(xs[..|xs| - 1]) + xs[|xs| - 1]
  }

  /** A sum of non-negative values is at most 0 exactly when every value is 0. */
  lemma {:induction false} SumZeroIffAllZero(xs: seq<int>)
    requires forall i :: 0 <= i < |xs| ==> xs[i] >= 0
    ensures Sum(xs) >= 0
    ensures Sum(xs) <= 0 <==> forall i :: 0 <= i < |xs| ==> xs[i] == 0
  {
    if xs != [] {
      var init := xs[..|xs| - 1];
      SumZeroIffAllZero(init);
      assert forall i :: 0 <= i < |init| ==> init[i] == xs[i];
    }
  }

  /** The gains of all partials after the gain update. */
  function WithGains(s: StringState, table: seq<real>): (r: StringState)
    requires StringInv(s) && GainMapDefined(s) && TableOk(table)
    ensures StringInv(r) && r.(gains := s.gains) == s
  {
    FreqsInTableRange(s);
    s.(gains := seq(NumPartials, i requires 0 <= i < NumPartials =>
      PartialGain(s.droneLevels[i], s.droneRange, s.freq[i], table)))
  }

  lemma FreqsInTableRange(s: StringState)
    requires StringInv(s)
    ensures forall i :: 0 <= i < NumPartials ==> s.freq[i] - FreqCutoff < Freq2GainTableRange
  {
    forall i | 0 <= i < NumPartials
      ensures s.freq[i] - FreqCutoff < Freq2GainTableRange
    {
      FreqInTableRange(s, i);
    }
  }

  /** The smoothed gains: each smoother's output, stored in a byte. */
  function WithSmoothGains(s: StringState, smoothOut: seq<int>): (r: StringState)
    requires StringInv(s) && |smoothOut| == NumPartials
    ensures StringInv(r) && r.(smoothGains := s.smoothGains) == s
  {
    s.(smoothGains := seq(NumPartials, i requires 0 <= i < NumPartials => ToByte(smoothOut[i])))
  }

  /** The inputs of one control-rate update that come from outside: the
      smoothers' outputs, millis(), and the random draws of a retune and of
      the pulses. */
  predicate UpdateInputsOk(smoothOut: seq<int>, d: RetuneDraws, ds: seq<PulseDraw>)
  {
    |smoothOut| == NumPartials && RetuneDrawsOk(d) && PulseDrawsOk(ds)
  }

  /** The sounding part of an update: decay, pulse scan, pool update, LFO. */
  function Played(s: StringState, num: Numerics, now: ULong, ds: seq<PulseDraw>): (r: StringState)
    requires StringInv(s) && PulseDrawsOk(ds)
    ensures StringInv(r) && r.active == s.active && r.triggered == s.triggered
    ensures r.droneRange == s.droneRange
  {
    var s1 := Decayed(s, now);
    var s2 := ScanApplied(s1, num, ds);
    var s3 := s2.(ploks := SynthUpdated(s2.ploks));
    Modulated(s3)
  }

  /** The first half of LarvaString::Update: gains, smoothed gains, and
      mute or unmute on their sum. */
  function Activated(s: StringState, num: Numerics, table: seq<real>, smoothOut: seq<int>, d: RetuneDraws): (r: StringState)
    requires StringInv(s) && GainMapDefined(s) && TableOk(table) && |smoothOut| == NumPartials && RetuneDrawsOk(d)
    ensures StringInv(r) && r.droneRange == s.droneRange
  {
    var s1 := WithGains(s.(triggered := false), table);
    var s2 := WithSmoothGains(s1, smoothOut);
    if Sum(s2.smoothGains) <= 0 then Muted(s2) else Unmuted(s2, num, d)
  }

  /** LarvaString::Update: the sounding part runs only on an active string. */
  function StringUpdated(s: StringState, num: Numerics, table: seq<real>, now: ULong,
                         smoothOut: seq<int>, d: RetuneDraws, ds: seq<PulseDraw>): (r: StringState)
    requires StringInv(s) && GainMapDefined(s) && TableOk(table) && UpdateInputsOk(smoothOut, d, ds)
    ensures StringInv(r) && r.droneRange == s.droneRange
  {
    var s3 := Activated(s, num, table, smoothOut, d);
    if s3.active then Played(s3, num, now, ds) else s3
  }

  /** After an update the string is active exactly when some smoothed gain is
      non-zero, and triggered exactly when it went from inactive to active in
      this update; a string left inactive keeps its drone levels,
      accumulators, pool, LFO and tuning. */
  lemma UpdateActivity(s: StringState, num: Numerics, table: seq<real>, now: ULong,
                       smoothOut: seq<int>, d: RetuneDraws, ds: seq<PulseDraw>)
    requires StringInv(s) && GainMapDefined(s) && TableOk(table) && UpdateInputsOk(smoothOut, d, ds)
    ensures var r := StringUpdated(s, num, table, now, smoothOut, d, ds);
      (r.active <==> exists i :: 0 <= i < NumPartials && ToByte(smoothOut[i]) != 0) &&
      (r.triggered <==> !s.active && r.active) &&
      (!r.active ==> (r.droneLevels == s.droneLevels && r.pulseL == s.pulseL && r.pulseM == s.pulseM &&
        r.pulseS == s.pulseS && r.ploks == s.ploks && r.lfo == s.lfo && r.freq == s.freq))
  {
    var s1 := WithGains(s.(triggered := false), table);
    var s2 := WithSmoothGains(s1, smoothOut);
    SmoothedSilence(s1, smoothOut);
    var s3 := if Sum(s2.smoothGains) <= 0 then Muted(s2) else Unmuted(s2, num, d);
    assert s3.active <==> Sum(s2.smoothGains) > 0;
    assert s3.triggered <==> !s.active && s3.active;
  }

  /** The smoothed gains sum to at most 0 exactly when every smoother output
      stores as a zero byte. */
  lemma SmoothedSilence(s: StringState, smoothOut: seq<int>)
    requires StringInv(s) && |smoothOut| == NumPartials
    ensures Sum(WithSmoothGains(s, smoothOut).smoothGains) <= 0 <==>
      forall i :: 0 <= i < NumPartials ==> ToByte(smoothOut[i]) == 0
  {
    var g := WithSmoothGains(s, smoothOut).smoothGains;
    SumZeroIffAllZero(g);
    assert forall i :: 0 <= i < NumPartials ==> g[i] == ToByte(smoothOut[i]);
  }

  /** The decay steps a retune computes are non-negative when the master is. */
  lemma RetunedStepsNonNegative(s: StringState, num: Numerics, fund: real, d: RetuneDraws)
    requires StringInv(s) && RetuneDrawsOk(d) && 0.0 < fund <= MaxFundamental
    requires 0 <= s.decreaseStepMaster
    ensures NonNegative(Retuned(s, num, fund, d).decreaseStep)
  {
  }

  lemma PlayedKeepsDroneBounded(s: StringState, num: Numerics, now: ULong, ds: seq<PulseDraw>)
    requires StringInv(s) && PulseDrawsOk(ds) && DroneBounded(s)
    ensures DroneBounded(Played(s, num, now, ds))
  {
    DecayedBounds(s, now);
    ScanTiers(Decayed(s, now), num, ds);
  }

  /** Drone levels stay within [0, range] across an update. */
  lemma UpdateKeepsDroneBounded(s: StringState, num: Numerics, table: seq<real>, now: ULong,
                                smoothOut: seq<int>, d: RetuneDraws, ds: seq<PulseDraw>)
    requires StringInv(s) && GainMapDefined(s) && TableOk(table) && UpdateInputsOk(smoothOut, d, ds)
    requires DroneBounded(s)
    ensures DroneBounded(StringUpdated(s, num, table, now, smoothOut, d, ds))
  {
    var s1 := WithGains(s.(triggered := false), table);
    var s2 := WithSmoothGains(s1, smoothOut);
    assert DroneBounded(s2);
    if Sum(s2.smoothGains) > 0 && !s2.active {
      RetunedStepsNonNegative(s2, num, s2.fundFreq, d);
    }
    var s3 := if Sum(s2.smoothGains) <= 0 then Muted(s2) else Unmuted(s2, num, d);
    assert DroneBounded(s3);
    if s3.active {
      PlayedKeepsDroneBounded(s3, num, now, ds);
    }
  }

  // --------------------------------------------------------- light bands

  /** SetLightRange: partial i gets [lo + i * w, lo + (i + 1) * w) with
      w = (hi - lo) / 12 in C division. */
  function LightRangeSet(s: StringState, lo: int, hi: int): (r: StringState)
    requires StringInv(s)
    ensures StringInv(r) && r.(lightMin := s.lightMin, lightMax := s.lightMax) == s
  {
    var w := DivT(hi - lo, NumPartials);
    s.(lightMin := seq(NumPartials, i => lo + i * w), lightMax := seq(NumPartials, i => lo + (i + 1) * w))
  }

  /** For lo <= hi the band width w = (hi - lo) / 12 is non-negative and the
      12 bands end at most 11 short of hi; consecutive bands touch. */
  lemma LightBandsContiguous(s: StringState, lo: int, hi: int)
    requires StringInv(s)
    ensures var r := LightRangeSet(s, lo, hi); var w := DivT(hi - lo, NumPartials);
      (lo <= hi ==> 0 <= w && lo + NumPartials * w <= hi < lo + NumPartials * w + NumPartials) &&
      (forall i :: 0 <= i < NumPartials - 1 ==> r.lightMax[i] == r.lightMin[i + 1])
  {
    var w := DivT(hi - lo, NumPartials);
    if lo <= hi {
      assert w * NumPartials <= hi - lo < (w + 1) * NumPartials;
    }
  }

  /** An input in [lo, lo + 12w) lies in exactly one band, (input - lo) / w. */
  lemma LightBandUnique(s: StringState, lo: int, hi: int, x: int)
    requires StringInv(s)
    ensures var r := LightRangeSet(s, lo, hi); var w := DivT(hi - lo, NumPartials);
      w > 0 && lo <= x < lo + NumPartials * w ==>
        forall i :: 0 <= i < NumPartials ==> (InBand(r, x, i) <==> i == (x - lo) / w)
  {
    var r := LightRangeSet(s, lo, hi);
    var w := DivT(hi - lo, NumPartials);
    if w > 0 && lo <= x < lo + NumPartials * w {
      var k := (x - lo) / w;
      assert k * w <= x - lo < (k + 1) * w;
      forall i | 0 <= i < NumPartials
        ensures InBand(r, x, i) <==> i == k
      {
        if i < k { MulLeftMono(i + 1, k, w); }
        if i > k { MulLeftMono(k + 1, i, w); }
      }
    }
  }

  /** Inputs below lo or in the tail from lo + 12w lie in no band; when
      lo > hi that is every input. */
  lemma LightBandNone(s: StringState, lo: int, hi: int, x: int)
    requires StringInv(s)
    ensures var r := LightRangeSet(s, lo, hi); var w := DivT(hi - lo, NumPartials);
      (lo > hi ==> lo + NumPartials * w <= lo) &&
      ((x < lo || lo + NumPartials * w <= x) ==> forall i :: 0 <= i < NumPartials ==> !InBand(r, x, i))
  {
    var r := LightRangeSet(s, lo, hi);
    var w := DivT(hi - lo, NumPartials);
    if lo > hi {
      assert w <= 0;
    }
    if x < lo || lo + NumPartials * w <= x {
      forall i | 0 <= i < NumPartials
        ensures !InBand(r, x, i)
      {
        if w >= 0 {
          MulLeftMono(i + 1, NumPartials, w);
        } else {
          assert lo + i * w >= lo + (i + 1) * w;
        }
      }
    }
  }

  // ----------------------------------------------------------- process

  /** The drone mix before scaling: sum of oscillator sample * smoothed gain. */
  function DroneMix(osc: seq<int>, gains: seq<int>, n: int): int
    requires 0 <= n <= |osc| && n <= |gains|
  {
    if n == 0 then 0 else DroneMix(osc, gains, n - 1) + osc[n - 1] * gains[n - 1]
  }

  /** 1 / (12 * 32640) * 2.5: full-scale 8-bit samples times full gains give
      at most the drone master gain. */
  const StringDroneGainScaler: real := 1.0 / (NumPartials as real * 32640.0) * DroneMasterGain

  predicate OscOk(osc: seq<int>)
  {
    |osc| == NumPartials && forall i :: 0 <= i < NumPartials ==> -128 <= osc[i] < 128
  }

  /** LarvaString::Process: the scaled drone mix plus the pool output. */
  function StringProcessed(s: StringState, osc: seq<int>): (r: (StringState, real))
    requires StringInv(s) && OscOk(osc)
    ensures StringInv(r.0) && r.0.(ploks := s.ploks) == s
  {
    var p := SynthProcessed(s.ploks);
    (s.(ploks := p.0), DroneMix(osc, s.smoothGains, NumPartials) as real * StringDroneGainScaler + p.1)
  }

  lemma {:induction false} DroneMixBound(osc: seq<int>, gains: seq<int>, n: int)
    requires 0 <= n <= |osc| && n <= |gains|
    requires forall i :: 0 <= i < n ==> -128 <= osc[i] < 128 && 0 <= gains[i] < 256
    ensures -n * 32640 <= DroneMix(osc, gains, n) <= n * 32640
  {
    if n > 0 {
      DroneMixBound(osc, gains, n - 1);
      SampleProductBound(osc[n - 1], gains[n - 1]);
    }
  }

  lemma SampleProductBound(o: int, g: int)
    requires -128 <= o < 128 && 0 <= g < 256
    ensures -32640 <= o * g <= 32640
  {
    if o >= 0 {
      MulMonoInt(o, g, 128, 255);
    } else {
      MulMonoInt(-o, g, 128, 255);
      assert o * g == -((-o) * g);
    }
  }

  /** The drone part of a string's output lies in [-2.5, 2.5]. */
  lemma DroneOutputBound(s: StringState, osc: seq<int>)
    requires StringInv(s) && OscOk(osc)
    ensures -DroneMasterGain <= DroneMix(osc, s.smoothGains, NumPartials) as real * StringDroneGainScaler <= DroneMasterGain
  {
    DroneMixBound(osc, s.smoothGains, NumPartials);
    var m := DroneMix(osc, s.smoothGains, NumPartials) as real;
    assert -391680.0 <= m <= 391680.0;
    assert StringDroneGainScaler == 2.5 / 391680.0;
  }
}
