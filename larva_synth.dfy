/** The engine: the light-input processing of LarvaSynth2 (trigger counting,
    the adaptive delta scaler, the pulse gain fed by the trigger rate, the
    per-second min/max window feeding the pulse resonance), its five chords
    with their fixed light bands, and the frequency-to-gain table it fills. */
module LarvaSynth {
  import opened Platform
  import opened LarvaDefs
  import opened LarvaStrings
  import opened LarvaChords
  import opened LarvaChordFacts

  // -------------------------------------------------------------- bell curve

  /** The raised-cosine shape of BellCurve on a normalised input v:
      outMin + (1 - cos(2 pi v)) / 2 * (outMax - outMin). */
  function BellShape(num: Numerics, v: real, outMin: real, outMax: real): real
  {
    outMin + (1.0 - num.cosf(2.0 * Pi * v)) * 0.5 * (outMax - outMin)
  }

  /** The values of cosf the bell shape is pinned to. */
  predicate CosOk(num: Numerics)
  {
    num.cosf(0.0) == 1.0 && num.cosf(Pi) == -1.0 && num.cosf(2.0 * Pi) == 1.0
  }

  /** cosf stays within [-1, 1]. */
  ghost predicate CosBounded(num: Numerics)
  {
    forall x: real :: -1.0 <= num.cosf(x) <= 1.0
  }

  /** The output clamp of BellCurve: first down to outMax, then up to outMin. */
  function ClampOut(v: real, outMin: real, outMax: real): (r: real)
    ensures r >= outMin
    ensures outMin <= outMax ==> r <= outMax
    ensures outMin <= v <= outMax ==> r == v
  {
    var w := if v > outMax then outMax else v;
    if w < outMin then outMin else w
  }

  /** BellCurve as written: when the input is not below inMin, the input
      clamp reads `vin` inside its own initialiser, so the value it starts
      from is indeterminate; it is the parameter `garbage` here. */
  function BellCurveAsWritten(num: Numerics, x: real, inMin: real, inMax: real,
                              outMin: real, outMax: real, garbage: real): (r: real)
    requires inMin < inMax
    ensures r >= outMin
    ensures outMin <= outMax ==> r <= outMax
  {
    var vin0 := if x < inMin then inMin else garbage;
    var vin := if vin0 > inMax then inMax else vin0;
    ClampOut(BellShape(num, (vin - inMin) / (inMax - inMin), outMin, outMax), outMin, outMax)
  }

  /** BellCurve as evidently intended: the input clamped to [inMin, inMax],
      normalised, shaped, and the output clamped. */
  function BellCurve(num: Numerics, x: real, inMin: real, inMax: real,
                     outMin: real, outMax: real): (r: real)
    requires inMin < inMax
    ensures r >= outMin
    ensures outMin <= outMax ==> r <= outMax
  {
    var vin0 := if x < inMin then inMin else x;
    var vin := if vin0 > inMax then inMax else vin0;
    ClampOut(BellShape(num, (vin - inMin) / (inMax - inMin), outMin, outMax), outMin, outMax)
  }

  /** A factor in [0, 1] scales a non-negative value down. */
  lemma MulUnit(h: real, d: real)
    requires 0.0 <= h <= 1.0 && 0.0 <= d
    ensures 0.0 <= h * d <= d
  {
    assert d - h * d == (1.0 - h) * d;
  }

  /** The shape sends the normalised ends 0 and 1 to outMin and the middle
      0.5 to outMax. */
  lemma BellShapeEnds(num: Numerics, outMin: real, outMax: real)
    requires CosOk(num)
    ensures BellShape(num, 0.0, outMin, outMax) == outMin
    ensures BellShape(num, 1.0, outMin, outMax) == outMin
    ensures BellShape(num, 0.5, outMin, outMax) == outMax
  {
    assert 2.0 * Pi * 0.0 == 0.0;
    assert 2.0 * Pi * 0.5 == Pi;
    assert 2.0 * Pi * 1.0 == 2.0 * Pi;
    assert (1.0 - (-1.0)) * 0.5 == 1.0;
  }

  /** With cosf in [-1, 1] the shape never leaves [outMin, outMax], so the
      output clamp of BellCurve changes nothing. */
  lemma BellShapeBounded(num: Numerics, v: real, outMin: real, outMax: real)
    requires CosBounded(num) && outMin <= outMax
    ensures outMin <= BellShape(num, v, outMin, outMax) <= outMax
    ensures ClampOut(BellShape(num, v, outMin, outMax), outMin, outMax) == BellShape(num, v, outMin, outMax)
  {
    var c := num.cosf(2.0 * Pi * v);
    var h := (1.0 - c) * 0.5;
    assert -1.0 <= c <= 1.0;
    assert 0.0 <= h <= 1.0;
    var d := outMax - outMin;
    MulUnit(h, d);
    var p := h * d;
    assert 0.0 <= p <= d;
    assert BellShape(num, v, outMin, outMax) == outMin + p;
  }

  /** The intended curve: inputs at or below inMin and at or above inMax give
      outMin, the midpoint gives outMax. */
  lemma BellCurvePoints(num: Numerics, x: real, inMin: real, inMax: real, outMin: real, outMax: real)
    requires CosOk(num) && inMin < inMax && outMin <= outMax
    ensures x <= inMin ==> BellCurve(num, x, inMin, inMax, outMin, outMax) == outMin
    ensures x >= inMax ==> BellCurve(num, x, inMin, inMax, outMin, outMax) == outMin
    ensures x == (inMin + inMax) / 2.0 ==> BellCurve(num, x, inMin, inMax, outMin, outMax) == outMax
  {
    BellShapeEnds(num, outMin, outMax);
    var d := inMax - inMin;
    assert (inMin - inMin) / d == 0.0;
    assert (inMax - inMin) / d == 1.0;
    if x == (inMin + inMax) / 2.0 {
      assert x - inMin == d * 0.5;
      assert (x - inMin) / d == 0.5;
    }
  }

  /** The finding: an excursion of 150 sits at the middle of [0, 300], where
      the intended curve gives the top resonance 50; as written, an
      indeterminate start value of 0 gives the bottom resonance 20. */
  lemma BellCurveReadsGarbage(num: Numerics)
    requires CosOk(num)
    ensures BellCurveAsWritten(num, 150.0, LightExcursionMin, LightExcursionMax,
      PulseResonanceMin, PulseResonanceMax, 0.0) == PulseResonanceMin
    ensures BellCurve(num, 150.0, LightExcursionMin, LightExcursionMax,
      PulseResonanceMin, PulseResonanceMax) == PulseResonanceMax
  {
    BellShapeEnds(num, PulseResonanceMin, PulseResonanceMax);
    BellCurvePoints(num, 150.0, LightExcursionMin, LightExcursionMax, PulseResonanceMin, PulseResonanceMax);
  }

  // ------------------------------------------------------------ delta scaler

  /** light_delta: the distance of the raw reading from its rolling average,
      scaled, converted to int by truncation. */
  function LightDelta(raw: int, avg: int, scaler: real): (d: int)
    ensures scaler >= 0.0 ==> d >= 0
  {
    Trunc(Abs(raw - avg) as real * scaler)
  }

  /** The delta scaler for an average delta: below the trigger threshold,
      Arduino map from [80, 0] onto [1000, 20000]; above it, map from
      [160, 400] onto [1000, 500] constrained to [500, 1000]; then / 1000. */
  function DeltaScalerFor(avg: int): real
  {
    if avg <= LightTriggerThreshold then
      Map(avg, LightTriggerThreshold, 0, DeltaScalerDef, DeltaScalerMax) as real / 1000.0
    else
      Constrain(Map(avg, LightTriggerThreshold * 2, LightTriggerThreshold * 5, DeltaScalerDef, DeltaScalerMin),
        DeltaScalerMin, DeltaScalerDef) as real / 1000.0
  }

  /** A quiet input raises the scaler to between 1 and 20 (20 at a zero
      average, 1 at the threshold); a busy one lowers it to between 0.5 and 1
      (1 up to twice the threshold, 0.5 from five times it on). */
  lemma DeltaScalerBands(avg: int)
    ensures 0 <= avg <= LightTriggerThreshold ==> 1.0 <= DeltaScalerFor(avg) <= 20.0
    ensures avg == 0 ==> DeltaScalerFor(avg) == 20.0
    ensures avg == LightTriggerThreshold ==> DeltaScalerFor(avg) == 1.0
    ensures avg > LightTriggerThreshold ==> 0.5 <= DeltaScalerFor(avg) <= 1.0
    ensures LightTriggerThreshold < avg <= 2 * LightTriggerThreshold ==> DeltaScalerFor(avg) == 1.0
    ensures avg >= 5 * LightTriggerThreshold ==> DeltaScalerFor(avg) == 0.5
  {
    if 0 <= avg <= LightTriggerThreshold {
      MapWithin(avg, LightTriggerThreshold, 0, DeltaScalerDef, DeltaScalerMax);
    } else if avg > LightTriggerThreshold {
      var a := (avg - 2 * LightTriggerThreshold) * (DeltaScalerMin - DeltaScalerDef);
      var q := DivT(a, 3 * LightTriggerThreshold);
      if avg <= 2 * LightTriggerThreshold {
        assert a >= 0;
        assert q >= 0;
      }
      if avg >= 5 * LightTriggerThreshold {
        assert a <= -500 * 240;
        assert Abs(q) * 240 <= Abs(a) < (Abs(q) + 1) * 240;
        assert q <= -500;
      }
    }
  }

  /** The scaler stays in [0.5, 20] whenever the average delta is not negative. */
  lemma DeltaScalerRange(avg: int)
    requires avg >= 0
    ensures DeltaScalerMin as real / 1000.0 <= DeltaScalerFor(avg) <= DeltaScalerMax as real / 1000.0
  {
    DeltaScalerBands(avg);
  }

  // ----------------------------------------------------------- control state

  /** The control-rate scalars and the min/max window of the engine. */
  datatype Control = Control(
    triggered: bool, deltaScaler: real,
    triggersAvg: int, triggersCounter: int, triggersTimestamp: int,
    pulseGain: real, pulseRes: real,
    curLightMin: int, curLightMax: int, lightMin: seq<int>, lightMax: seq<int>, timer: int)

  /** The excursion window spans 60 seconds of control ticks. */
  const ExcursionInterval: int := LightExcursionIntervalSecs * ControlRate

  predicate ControlInv(k: Control)
  {
    |k.lightMin| == |k.lightMax| == LightExcursionIntervalSecs &&
    0 <= k.timer < ExcursionInterval && k.triggersCounter >= 0 &&
    0.5 <= k.deltaScaler <= 20.0 &&
    PulseMasterGainMin <= k.pulseGain <= PulseMasterGainMax &&
    (k.pulseRes == 15.0 || PulseResonanceMin <= k.pulseRes <= PulseResonanceMax)
  }

  /** The initial values of the engine's fields; the window arrays of the
      global engine object start zeroed. */
  function InitialControl(): (k: Control)
    ensures ControlInv(k)
  {
    Control(false, 1.0, 0, 0, 0, 1.0, 15.0, IntMax, 0,
      Zeros(LightExcursionIntervalSecs), Zeros(LightExcursionIntervalSecs), 0)
  }

  /** The outputs of the four rolling averages of one update, each as a
      function of the value fed to it this tick. */
  datatype Smoothers = Smoothers(light: int -> int, slow: int -> int, delta: int -> int, triggers: int -> int)

  /** A rolling average of values that are never negative is never negative. */
  ghost predicate SmoothersOk(sm: Smoothers)
  {
    forall x: int :: x >= 0 ==> sm.delta(x) >= 0
  }

  /** The light-reading stage of Update: the delta, the trigger flag and
      count, the slow average handed to the chords, and the new scaler. */
  datatype Sensed = Sensed(ctl: Control, delta: int, slow: int)

  function LightSensed(k: Control, raw: int, scaled: int, sm: Smoothers): (r: Sensed)
  {
    var delta := LightDelta(raw, sm.light(raw), k.deltaScaler);
    var trig := delta > LightTriggerThreshold;
    var count := if trig then k.triggersCounter + 1 else k.triggersCounter;
    Sensed(k.(triggered := trig, triggersCounter := count, deltaScaler := DeltaScalerFor(sm.delta(delta))),
      delta, sm.slow(scaled))
  }

  /** A trigger is counted exactly when the delta exceeds 80, strictly; the
      delta is never negative and the scaler stays in [0.5, 20]. */
  lemma LightSensedCounts(k: Control, raw: int, scaled: int, sm: Smoothers)
    requires ControlInv(k) && SmoothersOk(sm)
    ensures var r := LightSensed(k, raw, scaled, sm);
      ControlInv(r.ctl) && r.delta >= 0 &&
      (r.ctl.triggered <==> r.delta > LightTriggerThreshold) &&
      r.ctl.triggersCounter == k.triggersCounter + (if r.delta > LightTriggerThreshold then 1 else 0) &&
      r.ctl.(triggered := k.triggered, triggersCounter := k.triggersCounter, deltaScaler := k.deltaScaler) == k
  {
    var r := LightSensed(k, raw, scaled, sm);
    DeltaScalerRange(sm.delta(r.delta));
  }

  /** The trigger-rate stage: once more than a second has passed, the count
      is fed to the rolling average and reset, and the pulse gain follows the
      bell curve of the average over [1, 64] onto [0.2, 1.3]. */
  function GainTicked(num: Numerics, k: Control, now: int, sm: Smoothers): (r: Control)
  {
    if now - k.triggersTimestamp > TriggersInterval then
      var avg := sm.triggers(k.triggersCounter);
      k.(triggersTimestamp := now, triggersAvg := avg, triggersCounter := 0,
        pulseGain := BellCurve(num, avg as real, TriggersAvgMin as real, TriggersAvgMax as real,
          PulseMasterGainMin, PulseMasterGainMax))
    else k
  }

  /** Within a second nothing changes; after it the counter restarts from 0
      and the gain lies in [0.2, 1.3]. */
  lemma GainTickedEffect(num: Numerics, k: Control, now: int, sm: Smoothers)
    requires ControlInv(k)
    ensures var r := GainTicked(num, k, now, sm);
      ControlInv(r) &&
      (now - k.triggersTimestamp <= TriggersInterval ==> r == k) &&
      (now - k.triggersTimestamp > TriggersInterval ==>
        r.triggersCounter == 0 && r.triggersTimestamp == now &&
        r.triggersAvg == sm.triggers(k.triggersCounter) &&
        r.(triggersCounter := k.triggersCounter, triggersTimestamp := k.triggersTimestamp,
           triggersAvg := k.triggersAvg, pulseGain := k.pulseGain) == k)
  {
  }

  // -------------------------------------------------------- excursion window

  /** The window scan's maximum: the largest of 0 and the first n slots. */
  function WindowMax(xs: seq<int>, n: int): int
    requires 0 <= n <= |xs|
  {
    if n == 0 then 0
    else
      var m := WindowMax(xs, n - 1);
      if xs[n - 1] > m then xs[n - 1] else m
  }

  /** The window scan's minimum: the smallest of INT_MAX and the first n slots. */
  function WindowMin(xs: seq<int>, n: int): int
    requires 0 <= n <= |xs|
  {
    if n == 0 then IntMax
    else
      var m := WindowMin(xs, n - 1);
      if xs[n - 1] < m then xs[n - 1] else m
  }

  /** WindowMax bounds every slot from above and is 0 or one of them. */
  lemma {:induction false} WindowMaxIsMax(xs: seq<int>, n: int)
    requires 0 <= n <= |xs|
    ensures forall i :: 0 <= i < n ==> xs[i] <= WindowMax(xs, n)
    ensures WindowMax(xs, n) >= 0
    ensures WindowMax(xs, n) == 0 || exists i :: 0 <= i < n && xs[i] == WindowMax(xs, n)
  {
    if n > 0 {
      WindowMaxIsMax(xs, n - 1);
    }
  }

  /** WindowMin bounds every slot from below and is INT_MAX or one of them. */
  lemma {:induction false} WindowMinIsMin(xs: seq<int>, n: int)
    requires 0 <= n <= |xs|
    ensures forall i :: 0 <= i < n ==> WindowMin(xs, n) <= xs[i]
    ensures WindowMin(xs, n) <= IntMax
    ensures WindowMin(xs, n) == IntMax || exists i :: 0 <= i < n && xs[i] == WindowMin(xs, n)
  {
    if n > 0 {
      WindowMinIsMin(xs, n - 1);
    }
  }

  /** The excursion stage: the running min/max take in the reading and are
      stored in the slot of the current second; on a second boundary the
      excursion over all 60 slots sets the resonance through the bell curve
      over [0, 300] onto [20, 50], and the running min/max restart; the timer
      then advances modulo the 60 s interval. */
  function ExcursionTicked(num: Numerics, k: Control, scaled: int): (r: Control)
    requires ControlInv(k)
    ensures ControlInv(r)
  {
    var k1 := SlotWritten(k, scaled);
    var k2 := if k.timer % ControlRate == 0 then WindowClosed(num, k1) else k1;
    k2.(timer := (k.timer + 1) % ExcursionInterval)
  }

  /** The running min/max take in the reading and are stored in the slot of
      the current second. */
  function SlotWritten(k: Control, scaled: int): (r: Control)
    requires ControlInv(k)
    ensures ControlInv(r)
  {
    var cmin := if scaled < k.curLightMin then scaled else k.curLightMin;
    var cmax := if scaled > k.curLightMax then scaled else k.curLightMax;
    var sec := k.timer / ControlRate;
    k.(curLightMin := cmin, curLightMax := cmax,
      lightMin := k.lightMin[sec := cmin], lightMax := k.lightMax[sec := cmax])
  }

  /** On a second boundary: the resonance from the window's excursion, and
      the running min/max restart. */
  function WindowClosed(num: Numerics, k: Control): (r: Control)
    requires ControlInv(k)
    ensures ControlInv(r)
  {
    var excursion := WindowMax(k.lightMax, LightExcursionIntervalSecs) - WindowMin(k.lightMin, LightExcursionIntervalSecs);
    k.(pulseRes := BellCurve(num, excursion as real, LightExcursionMin, LightExcursionMax,
          PulseResonanceMin, PulseResonanceMax),
        curLightMax := 0, curLightMin := IntMax)
  }

  /** Only the slot of the current second (timer / 64) is written, and it
      brackets the reading; off a boundary the running min/max carry on,
      on one they restart and the excursion is the spread of the whole
      window, at least that of the written slot. */
  lemma ExcursionSlot(num: Numerics, k: Control, scaled: int)
    requires ControlInv(k)
    ensures var r := ExcursionTicked(num, k, scaled); var sec := k.timer / ControlRate;
      0 <= sec < LightExcursionIntervalSecs &&
      r.timer == (k.timer + 1) % ExcursionInterval &&
      r.lightMin[sec] <= scaled <= r.lightMax[sec] &&
      r.lightMin[sec] <= k.curLightMin && r.lightMax[sec] >= k.curLightMax &&
      (forall j :: 0 <= j < LightExcursionIntervalSecs && j != sec ==>
        r.lightMin[j] == k.lightMin[j] && r.lightMax[j] == k.lightMax[j]) &&
      (k.timer % ControlRate != 0 ==>
        r.curLightMin == r.lightMin[sec] && r.curLightMax == r.lightMax[sec] && r.pulseRes == k.pulseRes) &&
      (k.timer % ControlRate == 0 ==>
        r.curLightMin == IntMax && r.curLightMax == 0 &&
        WindowMax(r.lightMax, LightExcursionIntervalSecs) - WindowMin(r.lightMin, LightExcursionIntervalSecs)
          >= r.lightMax[sec] - r.lightMin[sec] >= 0)
  {
    var r := ExcursionTicked(num, k, scaled);
    WindowMaxIsMax(r.lightMax, LightExcursionIntervalSecs);
    WindowMinIsMin(r.lightMin, LightExcursionIntervalSecs);
  }

  /** The timer runs through the 3840 ticks of the window: n ticks from t
      land on (t + n) mod 3840, so the slot index moves on every 64 ticks. */
  function TimerAfter(t: int, n: nat): int
  {
    if n == 0 then t else (TimerAfter(t, n - 1) + 1) % ExcursionInterval
  }

  lemma {:induction false} TimerCycles(t: int, n: nat)
    requires 0 <= t < ExcursionInterval
    ensures TimerAfter(t, n) == (t + n) % ExcursionInterval
  {
    if n > 0 {
      TimerCycles(t, n - 1);
      var q := (t + n - 1) / 3840;
      var m := TimerAfter(t, n - 1);
      assert t + n - 1 == q * 3840 + m && 0 <= m < 3840;
      if m + 1 < 3840 {
        assert (t + n) / 3840 == q;
      } else {
        assert (t + n) / 3840 == q + 1;
      }
    }
  }

  // ------------------------------------------------------------------ chords

  /** The inputs of one chord's update: its strings' smoother outputs and
      draws, and its own retune draws. */
  datatype ChordTickInputs = ChordTickInputs(ins: seq<StringInputs>, draws: ChordDraws)

  /** What every chord's update of one engine tick shares: the numerics, the
      gain table, the slow average, the delta, millis(), the master pulse gain
      and resonance; and each chord's own inputs. */
  datatype ChordTick = ChordTick(num: Numerics, table: seq<real>, slow: int, delta: int, now: ULong,
                                 gain: real, res: real, ins: seq<ChordTickInputs>)

  predicate ChordTickOk(a: ChordTick)
  {
    |a.ins| == NumChords && forall s :: 0 <= s < NumChords ==> UpdateArgsOk(a.table, a.ins[s].ins, a.ins[s].draws)
  }

  /** Chord s's share of the engine's loop: Update with the slow average and
      the delta, then the master pulse gain and resonance. */
  function ChordTicked(c: ChordState, a: ChordTick, s: int): (r: ChordState)
    requires ChordInv(c) && ChordTickOk(a) && 0 <= s < NumChords
    ensures ChordInv(r)
  {
    var t := a.ins[s];
    ChordResonanceSet(ChordPulseGainSet(ChordUpdated(c, a.num, a.table, a.slow, a.delta, a.now, t.ins, t.draws), a.gain), a.res)
  }

  /** Five well-formed chords. */
  predicate ChordsOk(cs: seq<ChordState>)
  {
    |cs| == NumChords && forall s :: 0 <= s < NumChords ==> ChordInv(cs[s])
  }

  /** A step of the chord loop: it takes any well-formed chord and its index
      to a well-formed chord. */
  ghost predicate StepOk(step: (ChordState, int) --> ChordState)
  {
    forall c, s | ChordInv(c) && 0 <= s < NumChords :: step.requires(c, s) && ChordInv(step(c, s))
  }

  /** The step of Update's chord loop: ChordTicked with the tick's shared
      inputs. */
  function TickStep(a: ChordTick): (step: (ChordState, int) --> ChordState)
    requires ChordTickOk(a)
    ensures StepOk(step)
  {
    (c: ChordState, s: int) requires ChordInv(c) && ChordTickOk(a) && 0 <= s < NumChords => ChordTicked(c, a, s)
  }

  /** TickStep(a) ticks every well-formed chord as ChordTicked does. */
  lemma TickStepTicks(a: ChordTick)
    requires ChordTickOk(a)
    ensures forall c, s | ChordInv(c) && 0 <= s < NumChords :: TickStep(a)(c, s) == ChordTicked(c, a, s)
  {
  }

  /** The chord loop of Update after chords 0 to s - 1: those chords have
      taken their step, and each that came out active was appended to the
      list. */
  function StepsUpTo(cs: seq<ChordState>, step: (ChordState, int) --> ChordState, s: int): (r: (seq<ChordState>, seq<int>))
    requires ChordsOk(cs) && StepOk(step) && 0 <= s <= NumChords
    ensures ChordsOk(r.0) && |r.1| <= s
  {
    if s == 0 then (cs, [])
    else
      var p := StepsUpTo(cs, step, s - 1);
      var c := step(p.0[s - 1], s - 1);
      (p.0[s - 1 := c], p.1 + if c.active then [s - 1] else [])
  }

  /** One more chord: step s moves chord s and appends s when it comes out
      active. */
  lemma StepsUpToStep(cs: seq<ChordState>, step: (ChordState, int) --> ChordState, s: int)
    requires ChordsOk(cs) && StepOk(step) && 0 <= s < NumChords
    ensures var p := StepsUpTo(cs, step, s); var c := step(p.0[s], s);
      StepsUpTo(cs, step, s + 1).0 == p.0[s := c] &&
      StepsUpTo(cs, step, s + 1).1 == if c.active then p.1 + [s] else p.1
  {
  }

  /** After s steps chords below s have taken their step once and the others
      are untouched. */
  lemma {:induction false} StepsUpToChords(cs: seq<ChordState>, step: (ChordState, int) --> ChordState, s: int)
    requires ChordsOk(cs) && StepOk(step) && 0 <= s <= NumChords
    ensures forall j :: 0 <= j < NumChords ==>
      StepsUpTo(cs, step, s).0[j] == if j < s then step(cs[j], j) else cs[j]
  {
    if s > 0 {
      StepsUpToChords(cs, step, s - 1);
    }
  }

  /** The indices below n of the active chords, in increasing order. */
  function ActiveIndices(cs: seq<ChordState>, n: int): (r: seq<int>)
    requires 0 <= n <= |cs|
    ensures |r| <= n
  {
    if n == 0 then [] else ActiveIndices(cs, n - 1) + (if cs[n - 1].active then [n - 1] else [])
  }

  /** ActiveIndices lists each active chord below n once, in increasing
      order, and nothing else. */
  lemma {:induction false} ActiveIndicesExact(cs: seq<ChordState>, n: int)
    requires 0 <= n <= |cs|
    ensures forall k :: 0 <= k < |ActiveIndices(cs, n)| ==>
      0 <= ActiveIndices(cs, n)[k] < n && cs[ActiveIndices(cs, n)[k]].active
    ensures forall j, k :: 0 <= j < k < |ActiveIndices(cs, n)| ==> ActiveIndices(cs, n)[j] < ActiveIndices(cs, n)[k]
    ensures forall i :: 0 <= i < n && cs[i].active ==> i in ActiveIndices(cs, n)
  {
    if n > 0 {
      ActiveIndicesExact(cs, n - 1);
    }
  }

  /** ActiveIndices below n looks at the first n chords' flags only. */
  lemma {:induction false} ActiveIndicesPrefix(cs: seq<ChordState>, ds: seq<ChordState>, n: int)
    requires 0 <= n <= |cs| && n <= |ds|
    requires forall j :: 0 <= j < n ==> cs[j].active == ds[j].active
    ensures ActiveIndices(cs, n) == ActiveIndices(ds, n)
  {
    if n > 0 {
      ActiveIndicesPrefix(cs, ds, n - 1);
    }
  }

  /** The list built while stepping is the list of the chords active after
      their step: appending as the loop goes equals filtering at the end. */
  lemma {:induction false} StepsUpToList(cs: seq<ChordState>, step: (ChordState, int) --> ChordState, s: int)
    requires ChordsOk(cs) && StepOk(step) && 0 <= s <= NumChords
    ensures StepsUpTo(cs, step, s).1 == ActiveIndices(StepsUpTo(cs, step, s).0, s)
  {
    if s > 0 {
      StepsUpToList(cs, step, s - 1);
      var p := StepsUpTo(cs, step, s - 1);
      var r := StepsUpTo(cs, step, s);
      ActiveIndicesPrefix(p.0, r.0, s - 1);
    }
  }

  /** The first n entries of the active-chord list are chord indices in
      strictly increasing order. */
  predicate ChordListOk(list: seq<int>, n: int)
  {
    |list| == NumChords && 0 <= n <= NumChords &&
    (forall k :: 0 <= k < n ==> 0 <= list[k] < NumChords) &&
    (forall j, k :: 0 <= j < k < n ==> list[j] < list[k])
  }

  // ------------------------------------------------------------------ engine

  /** The engine: its control state, its five chords, the active-chord list
      (chord indices in place of pointers) and the frequency-to-gain table. */
  datatype EngineState = EngineState(ctl: Control, chords: seq<ChordState>, nActive: int,
                                     activeList: seq<int>, table: seq<real>)

  predicate EngineInv(e: EngineState)
  {
    ControlInv(e.ctl) && ChordsOk(e.chords) && ChordListOk(e.activeList, e.nActive) && TableOk(e.table)
  }

  /** A new engine: initial control values, five new chords, an empty list
      (its slots modelled as 0) and the zeroed global table. */
  function InitialEngine(num: Numerics): (e: EngineState)
    ensures EngineInv(e) && e.nActive == 0
  {
    var c := InitialChord(num);
    EngineState(InitialControl(), [c, c, c, c, c], 0, Zeros(NumChords), ZerosR(Freq2GainTableSize))
  }

  /** The chord loop of Update over all five chords; list entries past the
      new count keep their values. */
  function ChordsRebuilt(e: EngineState, a: ChordTick): (r: EngineState)
    requires EngineInv(e) && ChordTickOk(a)
    ensures EngineInv(r)
  {
    var p := StepsUpTo(e.chords, TickStep(a), NumChords);
    StepsUpToList(e.chords, TickStep(a), NumChords);
    ActiveIndicesExact(p.0, NumChords);
    e.(chords := p.0, nActive := |p.1|, activeList := p.1 + e.activeList[|p.1|..])
  }

  /** The inputs of one engine update: the two light readings, millis(), the
      rolling averages and the chords' inputs. */
  datatype EngineInputs = EngineInputs(raw: int, scaled: int, now: ULong, sm: Smoothers, chords: seq<ChordTickInputs>)

  ghost predicate EngineInputsOk(e: EngineState, inp: EngineInputs)
  {
    SmoothersOk(inp.sm) && |inp.chords| == NumChords &&
    forall s :: 0 <= s < NumChords ==> UpdateArgsOk(e.table, inp.chords[s].ins, inp.chords[s].draws)
  }

  /** The control part of LarvaSynth2::Update: sense, count, rescale; refresh
      the pulse gain every second; run the min/max window. The result holds
      the new control state with the delta and the slow average. */
  function ControlUpdated(num: Numerics, k: Control, raw: int, scaled: int, now: ULong, sm: Smoothers): (r: Sensed)
    requires ControlInv(k) && SmoothersOk(sm)
    ensures ControlInv(r.ctl)
  {
    var sensed := LightSensed(k, raw, scaled, sm);
    LightSensedCounts(k, raw, scaled, sm);
    Sensed(ExcursionTicked(num, GainTicked(num, sensed.ctl, now as int, sm), scaled), sensed.delta, sensed.slow)
  }

  /** What Update hands every chord: the slow average, the delta, millis()
      and the master pulse gain and resonance just computed. */
  function TickFor(num: Numerics, e: EngineState, inp: EngineInputs, s: Sensed): ChordTick
  {
    ChordTick(num, e.table, s.slow, s.delta, inp.now, s.ctl.pulseGain, s.ctl.pulseRes, inp.chords)
  }

  /** LarvaSynth2::Update: the control stages, then every chord ticks with the
      slow average and the active list is rebuilt. The raw reading reaches
      the chords too but they do not use it. */
  function EngineUpdated(e: EngineState, num: Numerics, inp: EngineInputs): (r: EngineState)
    requires EngineInv(e) && EngineInputsOk(e, inp)
    ensures EngineInv(r)
  {
    var s := ControlUpdated(num, e.ctl, inp.raw, inp.scaled, inp.now, inp.sm);
    ChordsRebuilt(e.(ctl := s.ctl), TickFor(num, e, inp, s))
  }

  /** Update's outcome from its stages: the new control state s, and the
      three values the chord loop leaves. */
  lemma EngineUpdatedFrom(e: EngineState, num: Numerics, inp: EngineInputs, s: Sensed,
                          cs: seq<ChordState>, n: int, l: seq<int>)
    requires EngineInv(e) && EngineInputsOk(e, inp)
    requires s == ControlUpdated(num, e.ctl, inp.raw, inp.scaled, inp.now, inp.sm)
    requires cs == StepsUpTo(e.chords, TickStep(TickFor(num, e, inp, s)), NumChords).0
    requires n == |StepsUpTo(e.chords, TickStep(TickFor(num, e, inp, s)), NumChords).1|
    requires l == StepsUpTo(e.chords, TickStep(TickFor(num, e, inp, s)), NumChords).1 + e.activeList[n..]
    ensures EngineUpdated(e, num, inp) == EngineState(s.ctl, cs, n, l, e.table)
  {
  }

  /** After the chord loop the list head holds exactly the active chords,
      each once, in increasing index order, and every chord has ticked once. */
  lemma ChordsRebuiltList(e: EngineState, a: ChordTick)
    requires EngineInv(e) && ChordTickOk(a)
    ensures var r := ChordsRebuilt(e, a);
      0 <= r.nActive <= NumChords &&
      (forall k :: 0 <= k < r.nActive ==> r.chords[r.activeList[k]].active) &&
      (forall s :: 0 <= s < NumChords && r.chords[s].active ==> s in r.activeList[..r.nActive]) &&
      (forall j, k :: 0 <= j < k < r.nActive ==> r.activeList[j] < r.activeList[k]) &&
      (forall s :: 0 <= s < NumChords ==> r.chords[s] == ChordTicked(e.chords[s], a, s))
  {
    var r := ChordsRebuilt(e, a);
    StepsUpToChords(e.chords, TickStep(a), NumChords);
    StepsUpToList(e.chords, TickStep(a), NumChords);
    TickStepTicks(a);
    ActiveIndicesExact(r.chords, NumChords);
    assert r.activeList[..r.nActive] == ActiveIndices(r.chords, NumChords);
  }

  // ----------------------------------------------------------------- process

  predicate EngineOscsOk(osc: seq<seq<seq<int>>>)
  {
    |osc| == NumChords && forall s :: 0 <= s < NumChords ==> OscsOk(osc[s])
  }

  /** The audio loop over the first n listed chords: each is processed, in
      list order, and its output added. */
  function ChordsProcessedUpTo(cs: seq<ChordState>, list: seq<int>, osc: seq<seq<seq<int>>>, n: int)
    : (r: (seq<ChordState>, real))
    requires ChordsOk(cs) && ChordListOk(list, n) && EngineOscsOk(osc)
    ensures ChordsOk(r.0)
  {
    if n == 0 then (cs, 0.0)
    else
      var p := ChordsProcessedUpTo(cs, list, osc, n - 1);
      var s := list[n - 1];
      var q := ChordProcessed(p.0[s], osc[s]);
      (p.0[s := q.0], p.1 + q.1)
  }

  /** One more listed chord: the loop over k + 1 entries is the loop over k
      followed by chord list[k]. */
  lemma ChordsProcessedStep(cs: seq<ChordState>, list: seq<int>, osc: seq<seq<seq<int>>>, k: int, n: int)
    requires ChordsOk(cs) && ChordListOk(list, n) && EngineOscsOk(osc) && 0 <= k < n
    ensures ChordListOk(list, k) && ChordListOk(list, k + 1) && 0 <= list[k] < NumChords
    ensures var p := ChordsProcessedUpTo(cs, list, osc, k); var q := ChordProcessed(p.0[list[k]], osc[list[k]]);
      ChordsProcessedUpTo(cs, list, osc, k + 1) == (p.0[list[k] := q.0], p.1 + q.1)
  {
  }

  /** LarvaSynth2::Process before the int16 conversion: the sum over the
      listed chords. */
  function EngineProcessed(e: EngineState, osc: seq<seq<seq<int>>>): (r: (EngineState, real))
    requires EngineInv(e) && EngineOscsOk(osc)
    ensures EngineInv(r.0)
  {
    var p := ChordsProcessedUpTo(e.chords, e.activeList, osc, e.nActive);
    (e.(chords := p.0), p.1)
  }

  /** Processing advances each listed chord once and leaves every other
      chord as it was. */
  lemma {:induction false} ChordsProcessedOnce(cs: seq<ChordState>, list: seq<int>, osc: seq<seq<seq<int>>>, n: int)
    requires ChordsOk(cs) && ChordListOk(list, n) && EngineOscsOk(osc)
    ensures forall s :: 0 <= s < NumChords ==>
      ChordsProcessedUpTo(cs, list, osc, n).0[s] ==
        if s in list[..n] then ChordProcessed(cs[s], osc[s]).0 else cs[s]
  {
    if n > 0 {
      ChordsProcessedOnce(cs, list, osc, n - 1);
      assert list[..n] == list[..n - 1] + [list[n - 1]];
      assert list[n - 1] !in list[..n - 1];
    }
  }

  /** Reference mix: the outputs of the first n listed chords, each processed
      from its own state, added up in list order. */
  function ListedChordsMix(cs: seq<ChordState>, list: seq<int>, osc: seq<seq<seq<int>>>, n: int): real
    requires ChordsOk(cs) && ChordListOk(list, n) && EngineOscsOk(osc)
  {
    if n == 0 then 0.0
    else
      var s := list[n - 1];
      ListedChordsMix(cs, list, osc, n - 1) + ChordProcessed(cs[s], osc[s]).1
  }

  /** The audio loop's sum over n listed chords is the reference mix: each
      chord is still in its own state when its turn comes. */
  lemma {:induction false} ChordsProcessedMix(cs: seq<ChordState>, list: seq<int>, osc: seq<seq<seq<int>>>, n: int)
    requires ChordsOk(cs) && ChordListOk(list, n) && EngineOscsOk(osc)
    ensures ChordsProcessedUpTo(cs, list, osc, n).1 == ListedChordsMix(cs, list, osc, n)
  {
    if n > 0 {
      ChordsProcessedMix(cs, list, osc, n - 1);
      ChordsProcessedOnce(cs, list, osc, n - 1);
      assert list[n - 1] !in list[..n - 1];
    }
  }

  /** LarvaSynth2::Process returns the sum of the listed chords' own outputs. */
  lemma EngineProcessedMix(e: EngineState, osc: seq<seq<seq<int>>>)
    requires EngineInv(e) && EngineOscsOk(osc)
    ensures EngineProcessed(e, osc).1 == ListedChordsMix(e.chords, e.activeList, osc, e.nActive)
  {
    ChordsProcessedMix(e.chords, e.activeList, osc, e.nActive);
  }

  // -------------------------------------------------------------------- init

  /** Entry n of the frequency-to-gain table: 1 - (n * step / range)^0.8 *
      (1 - 0.001), floored at 0.001. */
  function TableEntry(num: Numerics, n: int): real
  {
    var vf := n as real * Freq2GainTableStep;
    var vg := 1.0 - num.fastPow(vf / Freq2GainTableRange, GainSlope) * (1.0 - GainHF);
    if vg < GainHF then GainHF else vg
  }

  function GainTable(num: Numerics): (t: seq<real>)
    ensures |t| == Freq2GainTableSize && forall n :: 0 <= n < |t| ==> t[n] == TableEntry(num, n)
  {
    seq(Freq2GainTableSize, n requires 0 <= n < Freq2GainTableSize => TableEntry(num, n))
  }

  /** Every entry is at least 0.001; with a non-negative power it is at most
      1, so the table is one the strings can read. */
  lemma GainTableBounds(num: Numerics)
    ensures forall n :: 0 <= n < Freq2GainTableSize ==> GainTable(num)[n] >= GainHF
    ensures PowNonNeg(num) ==> TableOk(GainTable(num))
  {
    if PowNonNeg(num) {
      forall n | 0 <= n < Freq2GainTableSize
        ensures GainTable(num)[n] <= 1.0
      {
        var vf := n as real * Freq2GainTableStep;
        var p := num.fastPow(vf / Freq2GainTableRange, GainSlope);
        assert vf >= 0.0;
        assert p >= 0.0;
        MulUnit(1.0 - GainHF, p);
      }
    }
  }

  /** The light band of chord s: [200 s, 200 s + 250). */
  function BandMin(s: int): int { 200 * s }
  function BandMax(s: int): int { 200 * s + 250 }

  /** The bands overlap by 50 and cover [0, 1050): every value in that range
      lies in one or two bands, never three, and no other value in any. */
  lemma BandsOverlap(x: int)
    ensures 0 <= x < 1050 <==> exists s :: 0 <= s < NumChords && BandMin(s) <= x < BandMax(s)
    ensures forall s1, s2, s3 :: 0 <= s1 < s2 < s3 < NumChords ==>
      !(BandMin(s1) <= x < BandMax(s1) && BandMin(s2) <= x < BandMax(s2) && BandMin(s3) <= x < BandMax(s3))
  {
    if 0 <= x < 1050 {
      var s := if x < 200 then 0 else if x < 400 then 1 else if x < 600 then 2 else if x < 800 then 3 else 4;
      assert BandMin(s) <= x < BandMax(s);
    }
  }

  /** Chord s's share of Init: its ID, then its band. */
  function ChordSetUp(c: ChordState, num: Numerics, s: int, d: ChordDraws): (r: ChordState)
    requires ChordInv(c) && 0 <= s < NumChords && ChordDrawsOk(d)
    ensures ChordInv(r)
  {
    ChordLightRangeSet(ChordInitialised(c, num, s, d), BandMin(s), BandMax(s))
  }

  predicate InitDrawsOk(ds: seq<ChordDraws>)
  {
    |ds| == NumChords && forall s :: 0 <= s < NumChords ==> ChordDrawsOk(ds[s])
  }

  /** Every chord set up with its own ID, draws and band. */
  function ChordsSetUp(cs: seq<ChordState>, num: Numerics, ds: seq<ChordDraws>): (r: seq<ChordState>)
    requires ChordsOk(cs) && InitDrawsOk(ds)
    ensures ChordsOk(r)
  {
    seq(NumChords, s requires 0 <= s < NumChords => ChordSetUp(cs[s], num, s, ds[s]))
  }

  /** LarvaSynth2::Init: fill the table, set up chords 0 to 4 with their
      bands, and stamp the trigger window with millis(). */
  function EngineInitialised(e: EngineState, num: Numerics, now: ULong, ds: seq<ChordDraws>): (r: EngineState)
    requires EngineInv(e) && PowNonNeg(num) && InitDrawsOk(ds)
    ensures EngineInv(r)
  {
    GainTableBounds(num);
    e.(ctl := e.ctl.(triggersTimestamp := now), table := GainTable(num), chords := ChordsSetUp(e.chords, num, ds))
  }

  /** After Init chord s has ID s and band [200 s, 200 s + 250), shared by
      its three strings. */
  lemma InitBands(e: EngineState, num: Numerics, now: ULong, ds: seq<ChordDraws>)
    requires EngineInv(e) && PowNonNeg(num) && InitDrawsOk(ds)
    ensures var r := EngineInitialised(e, num, now, ds);
      forall s :: 0 <= s < NumChords ==>
        r.chords[s].id == s && r.chords[s].lightMin == BandMin(s) && r.chords[s].lightMax == BandMax(s) &&
        forall i :: 0 <= i < NumStrings ==>
          r.chords[s].strings[i].lightMin == r.chords[s].strings[0].lightMin &&
          r.chords[s].strings[i].lightMax == r.chords[s].strings[0].lightMax
  {
    var r := EngineInitialised(e, num, now, ds);
    forall s | 0 <= s < NumChords
      ensures r.chords[s].id == s && r.chords[s].lightMin == BandMin(s) && r.chords[s].lightMax == BandMax(s)
      ensures forall i :: 0 <= i < NumStrings ==>
          r.chords[s].strings[i].lightMin == r.chords[s].strings[0].lightMin &&
          r.chords[s].strings[i].lightMax == r.chords[s].strings[0].lightMax
    {
      var c1 := ChordInitialised(e.chords[s], num, s, ds[s]);
      ChordLightBands(c1, BandMin(s), BandMax(s));
    }
  }
}
