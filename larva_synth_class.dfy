/** The engine as an object: LarvaSynth2 with its control fields, its
    min/max window, active-chord and gain-table arrays updated in place, and
    its five chords held by value, proved against the engine functions of
    LarvaSynth. */
module LarvaSynthClass {
  import opened Platform
  import opened LarvaDefs
  import opened LarvaStrings
  import opened LarvaChords
  import opened LarvaSynth

  class LarvaSynth2 {
    const num: Numerics
    var triggered: bool
    /** mChords: the chords are embedded in the engine by value. */
    var chords: seq<ChordState>
    /** mpActiveChords, holding chord indices in place of pointers. */
    const activeChords: array<int>
    var nActive: int
    var deltaScaler: real
    var triggersAvg: int
    var triggersCounter: int
    var triggersTimestamp: int
    var pulseGain: real
    var pulseRes: real
    var curLightMin: int
    var curLightMax: int
    const lightMin: array<int>
    const lightMax: array<int>
    var timer: int
    /** The frequency-to-gain table the engine fills and its strings read. */
    const table: array<real>

    function Ctl(): Control
      reads this, lightMin, lightMax
    {
      Control(triggered, deltaScaler, triggersAvg, triggersCounter, triggersTimestamp,
        pulseGain, pulseRes, curLightMin, curLightMax, lightMin[..], lightMax[..], timer)
    }

    ghost function Model(): EngineState
      reads this, lightMin, lightMax, activeChords, table
    {
      EngineState(Ctl(), chords, nActive, activeChords[..], table[..])
    }

    /** The arrays are distinct and of their fixed sizes. */
    ghost predicate ArraysOk()
      reads this
    {
      lightMin.Length == LightExcursionIntervalSecs && lightMax.Length == LightExcursionIntervalSecs &&
      activeChords.Length == NumChords && table.Length == Freq2GainTableSize &&
      lightMin != lightMax && activeChords != lightMin && activeChords != lightMax
    }

    ghost predicate Valid()
      reads this, lightMin, lightMax, activeChords, table
    {
      ArraysOk() && EngineInv(Model())
    }

    constructor (num: Numerics)
      ensures Valid() && Model() == InitialEngine(num) && this.num == num
    {
      this.num := num;
      var c := InitialChord(num);
      chords := [c, c, c, c, c];
      activeChords := new int[NumChords](_ => 0);
      lightMin := new int[LightExcursionIntervalSecs](_ => 0);
      lightMax := new int[LightExcursionIntervalSecs](_ => 0);
      table := new real[Freq2GainTableSize](_ => 0.0);
      triggered, nActive, deltaScaler := false, 0, 1.0;
      triggersAvg, triggersCounter, triggersTimestamp := 0, 0, 0;
      pulseGain, pulseRes := 1.0, 15.0;
      curLightMin, curLightMax, timer := IntMax, 0, 0;
      new;
      assert lightMin[..] == Zeros(LightExcursionIntervalSecs);
      assert lightMax[..] == Zeros(LightExcursionIntervalSecs);
      assert activeChords[..] == Zeros(NumChords);
      assert table[..] == ZerosR(Freq2GainTableSize);
    }

    /** LarvaSynth2::Init: the gain table, chords 1 to 5 with their bands,
        and the trigger window stamped with millis(). */
    method Init(now: ULong, ds: seq<ChordDraws>)
      requires Valid() && PowNonNeg(num) && InitDrawsOk(ds)
      modifies this, table
      ensures Valid() && Model() == EngineInitialised(old(Model()), num, now, ds)
    {
      ghost var e0 := Model();
      FillGainTable(table, num);
      chords := SetUpChords(chords, num, ds);
      triggersTimestamp := now;
    }

    /** LarvaSynth2::Process before the int16 conversion: the listed chords'
        samples summed. */
    method Process(osc: seq<seq<seq<int>>>) returns (v: real)
      requires Valid() && EngineOscsOk(osc)
      modifies this
      ensures Valid() && (Model(), v) == EngineProcessed(old(Model()), osc)
    {
      var cs, mix := ProcessChords(chords, activeChords[..], osc, nActive);
      chords, v := cs, mix;
    }

    /** LarvaSynth2::Update at one control tick. */
    method Update(raw: int, scaled: int, now: ULong, sm: Smoothers, ts: seq<ChordTickInputs>)
      requires Valid() && EngineInputsOk(Model(), EngineInputs(raw, scaled, now, sm, ts))
      modifies this, lightMin, lightMax, activeChords
      ensures Model() == EngineUpdated(old(Model()), num, EngineInputs(raw, scaled, now, sm, ts)) && Valid()
    {
      ghost var e0 := Model();
      ghost var inp := EngineInputs(raw, scaled, now, sm, ts);
      var delta, slow := TickControl(raw, scaled, now, sm);
      ghost var s := Sensed(Ctl(), delta, slow);
      var a := ChordTick(num, table[..], slow, delta, now, pulseGain, pulseRes, ts);
      assert a == TickFor(num, e0, inp, s);
      RebuildChords(TickStep(a));
      EngineUpdatedFrom(e0, num, inp, s, chords, nActive, activeChords[..]);
    }

    /** The chord loop of Update on the engine's own chords and list; the
        control fields are left alone. */
    method RebuildChords(step: (ChordState, int) --> ChordState)
      requires ArraysOk() && ChordsOk(chords) && StepOk(step)
      modifies this, activeChords
      ensures chords == StepsUpTo(old(chords), step, NumChords).0
      ensures nActive == |StepsUpTo(old(chords), step, NumChords).1|
      ensures activeChords[..] == StepsUpTo(old(chords), step, NumChords).1 + old(activeChords[..])[nActive..]
      ensures Ctl() == old(Ctl()) && ArraysOk()
    {
      var cs, n := TickChords(chords, activeChords, step);
      chords, nActive := cs, n;
    }

    /** The control stages of Update, in the order of `LarvaSynth2::Update`. */
    method TickControl(raw: int, scaled: int, now: ULong, sm: Smoothers) returns (delta: int, slow: int)
      requires ArraysOk() && ControlInv(Ctl()) && SmoothersOk(sm)
      modifies this, lightMin, lightMax
      ensures Sensed(Ctl(), delta, slow) == ControlUpdated(num, old(Ctl()), raw, scaled, now, sm)
      ensures chords == old(chords) && nActive == old(nActive)
    {
      delta, slow := Sense(raw, scaled, sm);
      TickGain(now, sm);
      TickExcursion(scaled);
    }

    /** The light-reading stage: delta, trigger, counter and scaler. */
    method Sense(raw: int, scaled: int, sm: Smoothers) returns (delta: int, slow: int)
      requires ArraysOk() && ControlInv(Ctl()) && SmoothersOk(sm)
      modifies this
      ensures Ctl() == LightSensed(old(Ctl()), raw, scaled, sm).ctl && ControlInv(Ctl())
      ensures chords == old(chords) && nActive == old(nActive)
      ensures delta == LightSensed(old(Ctl()), raw, scaled, sm).delta
      ensures slow == LightSensed(old(Ctl()), raw, scaled, sm).slow
    {
      LightSensedCounts(Ctl(), raw, scaled, sm);
      var avg := sm.light(raw);
      slow := sm.slow(scaled);
      delta := LightDelta(raw, avg, deltaScaler);
      triggered := delta > LightTriggerThreshold;
      if triggered {
        triggersCounter := triggersCounter + 1;
      }
      var davg := sm.delta(delta);
      deltaScaler := DeltaScalerFor(davg);
    }

    /** The trigger-rate stage: once a second, the pulse gain. */
    method TickGain(now: ULong, sm: Smoothers)
      requires ArraysOk() && ControlInv(Ctl())
      modifies this
      ensures Ctl() == GainTicked(num, old(Ctl()), now, sm) && ControlInv(Ctl())
      ensures chords == old(chords) && nActive == old(nActive)
    {
      GainTickedEffect(num, Ctl(), now, sm);
      if now - triggersTimestamp > TriggersInterval {
        triggersTimestamp := now;
        triggersAvg := sm.triggers(triggersCounter);
        triggersCounter := 0;
        pulseGain := BellCurve(num, triggersAvg as real, TriggersAvgMin as real, TriggersAvgMax as real,
          PulseMasterGainMin, PulseMasterGainMax);
      }
    }

    /** The excursion stage: the running min/max into the current second's
        slot, the resonance on a second boundary, the timer. */
    method TickExcursion(scaled: int)
      requires ArraysOk() && ControlInv(Ctl())
      modifies this, lightMin, lightMax
      ensures Ctl() == ExcursionTicked(num, old(Ctl()), scaled)
      ensures chords == old(chords) && nActive == old(nActive)
    {
      ghost var k0 := Ctl();
      curLightMin := if scaled < curLightMin then scaled else curLightMin;
      curLightMax := if scaled > curLightMax then scaled else curLightMax;
      var sec := timer / ControlRate;
      lightMin[sec] := curLightMin;
      lightMax[sec] := curLightMax;
      assert Ctl() == SlotWritten(k0, scaled);
      if timer % ControlRate == 0 {
        CloseWindow();
      }
      timer := (timer + 1) % ExcursionInterval;
    }

    /** The second boundary of the excursion stage: the resonance from the
        window's spread, and the running min/max restart. */
    method CloseWindow()
      requires ArraysOk() && ControlInv(Ctl())
      modifies this
      ensures Ctl() == WindowClosed(num, old(Ctl()))
      ensures chords == old(chords) && nActive == old(nActive)
    {
      var vmax, vmin := ScanWindow(lightMax, lightMin);
      pulseRes := BellCurve(num, (vmax - vmin) as real, LightExcursionMin, LightExcursionMax,
        PulseResonanceMin, PulseResonanceMax);
      curLightMax := 0;
      curLightMin := IntMax;
    }
  }

  /** ComputeFreq2GainTable: entry n of the table is TableEntry(n). */
  method FillGainTable(t: array<real>, num: Numerics)
    requires t.Length == Freq2GainTableSize
    modifies t
    ensures t[..] == GainTable(num)
  {
    var n := 0;
    while n < Freq2GainTableSize
      invariant 0 <= n <= Freq2GainTableSize
      invariant forall j :: 0 <= j < n ==> t[j] == TableEntry(num, j)
    {
      var vf := n as real * Freq2GainTableStep;
      var vg := 1.0 - num.fastPow(vf / Freq2GainTableRange, GainSlope) * (1.0 - GainHF);
      t[n] := if vg < GainHF then GainHF else vg;
      assert t[n] == TableEntry(num, n);
      n := n + 1;
    }
  }

  /** The chord part of Init: each chord gets its ID, then its band. */
  method SetUpChords(cs0: seq<ChordState>, num: Numerics, ds: seq<ChordDraws>) returns (cs: seq<ChordState>)
    requires ChordsOk(cs0) && InitDrawsOk(ds)
    ensures cs == ChordsSetUp(cs0, num, ds)
  {
    var c0 := SetUpChord(cs0[0], num, 0, ds[0], 0, 250);
    var c1 := SetUpChord(cs0[1], num, 1, ds[1], 200, 450);
    var c2 := SetUpChord(cs0[2], num, 2, ds[2], 400, 650);
    var c3 := SetUpChord(cs0[3], num, 3, ds[3], 600, 850);
    var c4 := SetUpChord(cs0[4], num, 4, ds[4], 800, 1050);
    cs := [c0, c1, c2, c3, c4];
    FiveOf(ChordsSetUp(cs0, num, ds), c0, c1, c2, c3, c4);
  }

  /** A five-element sequence is the display of its elements. */
  lemma FiveOf<T>(r: seq<T>, a: T, b: T, c: T, d: T, e: T)
    requires |r| == 5 && r[0] == a && r[1] == b && r[2] == c && r[3] == d && r[4] == e
    ensures r == [a, b, c, d, e]
  {
  }

  /** Init and SetLightRange of one chord. */
  method SetUpChord(c: ChordState, num: Numerics, id: int, d: ChordDraws, lo: int, hi: int) returns (r: ChordState)
    requires ChordInv(c) && 0 <= id < NumChords && ChordDrawsOk(d)
    requires lo == BandMin(id) && hi == BandMax(id)
    ensures r == ChordSetUp(c, num, id, d)
  {
    r := ChordInitialised(c, num, id, d);
    r := ChordLightRangeSet(r, lo, hi);
  }

  /** The window scan: the largest maximum from 0 up and the smallest
      minimum from INT_MAX down over the 60 slots. */
  method ScanWindow(mx: array<int>, mn: array<int>) returns (vmax: int, vmin: int)
    requires mx.Length == mn.Length == LightExcursionIntervalSecs
    ensures vmax == WindowMax(mx[..], LightExcursionIntervalSecs)
    ensures vmin == WindowMin(mn[..], LightExcursionIntervalSecs)
  {
    vmin, vmax := IntMax, 0;
    var i := 0;
    while i < LightExcursionIntervalSecs
      invariant 0 <= i <= LightExcursionIntervalSecs
      invariant vmax == WindowMax(mx[..], i) && vmin == WindowMin(mn[..], i)
    {
      if mx[i] > vmax {
        vmax := mx[i];
      }
      if mn[i] < vmin {
        vmin := mn[i];
      }
      i := i + 1;
    }
  }

  /** The chord loop of Update: every chord ticks with its Update and the two
      master setters, and each that is active afterwards is listed. */
  method TickChords(cs0: seq<ChordState>, list: array<int>, step: (ChordState, int) --> ChordState)
    returns (cs: seq<ChordState>, n: int)
    requires ChordsOk(cs0) && StepOk(step) && list.Length == NumChords
    modifies list
    ensures cs == StepsUpTo(cs0, step, NumChords).0
    ensures n == |StepsUpTo(cs0, step, NumChords).1|
    ensures list[..] == StepsUpTo(cs0, step, NumChords).1 + old(list[..])[n..]
  {
    ghost var l0 := list[..];
    cs, n := cs0, 0;
    var s := 0;
    while s < NumChords
      invariant 0 <= s <= NumChords
      invariant cs == StepsUpTo(cs0, step, s).0
      invariant n == |StepsUpTo(cs0, step, s).1|
      invariant list[..] == StepsUpTo(cs0, step, s).1 + l0[n..]
    {
      StepsUpToStep(cs0, step, s);
      var c := step(cs[s], s);
      cs := cs[s := c];
      if c.active {
        ListAppend(list[..], StepsUpTo(cs0, step, s).1, l0, s);
        list[n] := s;
        n := n + 1;
      }
      s := s + 1;
    }
  }

  /** Writing s just past the listed entries extends the list by s. */
  lemma ListAppend(l: seq<int>, on: seq<int>, l0: seq<int>, s: int)
    requires |on| < |l0| && l == on + l0[|on|..]
    ensures l[|on| := s] == on + [s] + l0[|on| + 1..]
  {
    assert l[|on| := s] == on + [s] + l0[|on| + 1..];
  }

  /** The audio loop of Process over the first n listed chords, on a local
      copy of the chords. */
  method ProcessChords(cs0: seq<ChordState>, list: seq<int>, osc: seq<seq<seq<int>>>, n: int)
    returns (cs: seq<ChordState>, mix: real)
    requires ChordsOk(cs0) && ChordListOk(list, n) && EngineOscsOk(osc)
    ensures (cs, mix) == ChordsProcessedUpTo(cs0, list, osc, n)
  {
    cs, mix := cs0, 0.0;
    var k := 0;
    while k < n
      invariant 0 <= k <= n
      invariant cs == ChordsProcessedUpTo(cs0, list, osc, k).0
      invariant mix == ChordsProcessedUpTo(cs0, list, osc, k).1
    {
      ChordsProcessedStep(cs0, list, osc, k, n);
      var s := list[k];
      var q := ChordProcessed(cs[s], osc[s]);
      cs, mix := cs[s := q.0], mix + q.1;
      k := k + 1;
    }
  }
}
