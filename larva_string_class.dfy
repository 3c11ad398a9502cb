/** The string object: a LarvaString with its sequence fields, its LFO and
    its plok pool, whose methods are proved against the functions of
    LarvaStrings. The per-partial loops that only read and write values are
    methods on sequences. */
module LarvaStringClass {
  import opened Platform
  import opened LarvaDefs
  import opened PlokVoices
  import opened LarvaStrings

  /** The per-partial loop of LarvaString.Retune, on values: base frequency,
      detune, frequency and decay step of each partial in turn. */
  method RetunePartials(num: Numerics, fund: real, cp: int, master: int, draws: seq<int>)
    returns (base: seq<real>, det: seq<real>, fr: seq<real>, steps: seq<int>)
    requires 0.0 < fund <= MaxFundamental && 1 <= cp <= MaxTuningOffset
    requires |draws| == NumPartials && forall i :: 0 <= i < NumPartials ==> 0 <= draws[i] < 2000
    ensures base == RetuneBases(fund, cp)
    ensures det == RetuneDetunes(base, draws)
    ensures fr == RetuneFreqs(base, det)
    ensures steps == RetuneSteps(num, master, fr)
  {
    base, det, fr, steps := [], [], [], [];
    var i := 0;
    while i < NumPartials
      invariant 0 <= i <= NumPartials
      invariant |base| == |det| == |fr| == |steps| == i
      invariant forall k :: 0 <= k < i ==> base[k] == PartialBase(fund, cp + k)
      invariant forall k :: 0 <= k < i ==> det[k] == Detune(draws[k], base[k])
      invariant forall k :: 0 <= k < i ==> fr[k] == base[k] + det[k]
      invariant forall k :: 0 <= k < i ==> steps[k] == DecreaseStep(master, DecayScaler(num, fr[k]))
    {
      var b := PartialBase(fund, cp + i);
      var dt := Detune(draws[i], b);
      var f := b + dt;
      base, det, fr, steps := base + [b], det + [dt], fr + [f], steps + [DecreaseStep(master, DecayScaler(num, f))];
      i := i + 1;
    }
  }

  /** The per-partial loop of LarvaString.UpdateLevels, on values. */
  method RaiseLevels(ghost s: StringState, lightMin: seq<int>, lightMax: seq<int>, range: int,
    levels: seq<int>, accL: seq<int>, accM: seq<int>, accS: seq<int>, input: int, delta: int)
    returns (dl: seq<int>, pl: seq<int>, pm: seq<int>, ps: seq<int>)
    requires StringInv(s) && delta >= LightTriggerThreshold
    requires lightMin == s.lightMin && lightMax == s.lightMax && range == s.droneRange
    requires levels == s.droneLevels && accL == s.pulseL && accM == s.pulseM && accS == s.pulseS
    ensures LevelsRaised(s, input, delta) == s.(droneLevels := dl, pulseL := pl, pulseM := pm, pulseS := ps)
  {
    dl, pl, pm, ps := [], [], [], [];
    var i := 0;
    while i < NumPartials
      invariant 0 <= i <= NumPartials
      invariant |dl| == |pl| == |pm| == |ps| == i
      invariant forall k :: 0 <= k < i ==> dl[k] == RaisedDrone(s, input, delta, k)
      invariant forall k :: 0 <= k < i ==> pl[k] == RaisedPulse(s, s.pulseL, input, delta, k)
      invariant forall k :: 0 <= k < i ==> pm[k] == RaisedPulse(s, s.pulseM, input, delta, k)
      invariant forall k :: 0 <= k < i ==> ps[k] == RaisedPulse(s, s.pulseS, input, delta, k)
    {
      var d, l, m, sm := levels[i], accL[i], accM[i], accS[i];
      if input >= lightMin[i] && input < lightMax[i] {
        d, l, m, sm := Min(d + delta, range), l + delta, m + delta, sm + delta;
      }
      dl, pl, pm, ps := dl + [d], pl + [l], pm + [m], ps + [sm];
      i := i + 1;
    }
    ghost var r := LevelsRaised(s, input, delta);
    assert dl == r.droneLevels && pl == r.pulseL && pm == r.pulseM && ps == r.pulseS;
  }

  /** The gain loop of LarvaString::Update, on values: below the start
      threshold a partial is silent, otherwise its level is mapped onto a
      byte, cubed and weighted by the table entry of its frequency. */
  method ComputeGains(ghost s: StringState, levels: seq<int>, range: int, freq: seq<real>, table: seq<real>)
    returns (g: seq<int>)
    requires StringInv(s) && GainMapDefined(s) && TableOk(table)
    requires levels == s.droneLevels && range == s.droneRange && freq == s.freq
    ensures g == WithGains(s, table).gains
  {
    FreqsInTableRange(s);
    g := [];
    var i := 0;
    while i < NumPartials
      invariant 0 <= i <= NumPartials && |g| == i
      invariant forall k :: 0 <= k < i ==> g[k] == PartialGain(levels[k], range, freq[k], table)
    {
      var gi := 0;
      if levels[i] >= DroneStartThres {
        var raw := ToByte(Map(levels[i], DroneStartThres, range, 0, GainMax));
        var expScale := raw * raw * raw / 0x1_0000;
        gi := Freq2GainScaler(freq[i], ToByte(expScale), table);
      }
      g := g + [gi];
      i := i + 1;
    }
  }

  /** The smoothing loop of LarvaString::Update: each smoother's output is
      stored in a byte. */
  method StoreSmoothGains(smoothOut: seq<int>) returns (sg: seq<int>)
    requires |smoothOut| == NumPartials
    ensures Bytes(sg)
    ensures forall i :: 0 <= i < NumPartials ==> sg[i] == ToByte(smoothOut[i])
  {
    sg := [];
    var i := 0;
    while i < NumPartials
      invariant 0 <= i <= NumPartials && |sg| == i
      invariant forall k :: 0 <= k < i ==> sg[k] == ToByte(smoothOut[k])
    {
      sg := sg + [ToByte(smoothOut[i])];
      i := i + 1;
    }
  }

  /** The summing loop of LarvaString::Update. */
  method SumGains(xs: seq<int>) returns (sum: int)
    ensures sum == Sum(xs)
  {
    sum := 0;
    var i := 0;
    while i < |xs|
      invariant 0 <= i <= |xs|
      invariant sum == Sum(xs[..i])
    {
      assert xs[..i + 1][..i] == xs[..i];
      sum := sum + xs[i];
      i := i + 1;
    }
    assert xs[..|xs|] == xs;
  }

  /** The decay loop of LarvaString::Update: every level drops by its step,
      floored at 0. */
  method DecayLevels(levels: seq<int>, steps: seq<int>) returns (dl: seq<int>)
    requires |levels| == |steps| == NumPartials
    ensures |dl| == NumPartials
    ensures forall i :: 0 <= i < NumPartials ==> dl[i] == Max(levels[i] - steps[i], 0)
  {
    dl := [];
    var i := 0;
    while i < NumPartials
      invariant 0 <= i <= NumPartials && |dl| == i
      invariant forall k :: 0 <= k < i ==> dl[k] == Max(levels[k] - steps[k], 0)
    {
      dl := dl + [Max(levels[i] - steps[i], 0)];
      i := i + 1;
    }
  }

  /** The modulation loop of LarvaString::Update: base + detune * lfo. */
  method ModulatePartials(base: seq<real>, detune: seq<real>, v: real) returns (fr: seq<real>)
    requires |base| == |detune| == NumPartials && 0.0 <= v <= 1.0
    ensures fr == ModulatedFreqs(base, detune, v)
  {
    fr := [];
    var i := 0;
    while i < NumPartials
      invariant 0 <= i <= NumPartials && |fr| == i
      invariant forall k :: 0 <= k < i ==> fr[k] == base[k] + detune[k] * v
    {
      fr := fr + [base[i] + detune[i] * v];
      i := i + 1;
    }
  }

  /** The mixing loop of LarvaString::Process: sum of sample * smoothed gain. */
  method MixDrone(osc: seq<int>, gains: seq<int>) returns (sum: int)
    requires |osc| == |gains| == NumPartials
    ensures sum == DroneMix(osc, gains, NumPartials)
  {
    sum := 0;
    var i := 0;
    while i < NumPartials
      invariant 0 <= i <= NumPartials
      invariant sum == DroneMix(osc, gains, i)
    {
      sum := sum + osc[i] * gains[i];
      i := i + 1;
    }
  }

  // ------------------------------------------------------------ the string

  /** The scalars of a string that the pulse scan reads. */
  datatype PulseParams = PulseParams(thresL: int, thresM: int, thresS: int,
                                     masterGain: real, resonanceAvg: real)

  ghost function ParamsOf(s: StringState): PulseParams
  {
    PulseParams(s.thresL, s.thresM, s.thresS, s.pulseMasterGain, s.pulseResonanceAvg)
  }

  /** The pulse request of TriggerRandomPulse, on the string's pulse pool:
      Q and duration dithered by the draws, level the tier's gain times the
      master gain. */
  method TriggerPulse(ploks: PlokSynth, num: Numerics, f: real, gain: real,
                      masterGain: real, resAvg: real, d: PulseDraw)
    requires ploks.Valid() && PulseDrawOk(d)
    modifies ploks.Repr
    ensures ploks.Valid()
    ensures ploks.Model() == SynthTrigger(old(ploks.Model()), num, f,
      PulseQ(resAvg, d), PulseLevel(gain, masterGain), PulseDur(d))
  {
    var q := PulseQ(resAvg, d);
    var dur := PulseDur(d);
    ploks.Trigger(num, f, q, PulseLevel(gain, masterGain), dur);
  }

  /** The accumulators after partials 0 .. n-1 of the pulse scan: each of
      those partials has its firing tier reset, later partials are untouched. */
  ghost predicate AccsScanned(s0: StringState, n: int, pl: seq<int>, pm: seq<int>, ps: seq<int>)
    requires PulseShape(s0) && 0 <= n <= NumPartials
  {
    |pl| == |pm| == |ps| == NumPartials &&
    forall k :: 0 <= k < NumPartials ==>
      pl[k] == (if k < n && Tier(s0, k) == 1 then 0 else s0.pulseL[k]) &&
      pm[k] == (if k < n && Tier(s0, k) == 2 then 0 else s0.pulseM[k]) &&
      ps[k] == (if k < n && Tier(s0, k) == 3 then 0 else s0.pulseS[k])
  }

  /** Resetting partial i's firing tier extends the scanned prefix by one. */
  lemma AccsStep(s0: StringState, i: int, pl: seq<int>, pm: seq<int>, ps: seq<int>)
    requires PulseShape(s0) && 0 <= i < NumPartials && AccsScanned(s0, i, pl, pm, ps)
    ensures AccsScanned(s0, i + 1,
      if Tier(s0, i) == 1 then pl[i := 0] else pl,
      if Tier(s0, i) == 2 then pm[i := 0] else pm,
      if Tier(s0, i) == 3 then ps[i := 0] else ps)
  {
  }

  /** The pool has served the requests of partials 0 .. n-1. */
  ghost predicate PoolScanned(ploks: PlokSynth, s0: StringState, num: Numerics, ds: seq<PulseDraw>, n: int)
    requires PulseShape(s0) && PulseDrawsOk(ds) && 0 <= n <= NumPartials
    reads ploks, ploks.voices, ploks.activeList
  {
    ploks.Model() == Fired(s0.ploks, num, ScanRequests(s0, ds, PulseLevels(s0), n))
  }

  /** One partial of the pulse scan: the first of its accumulators (large,
      medium, small) at or above its threshold is reset to 0 and fires a
      pulse at that tier's gain; the others keep their values. */
  method ScanPartial(ploks: PlokSynth, ghost s0: StringState, num: Numerics, ds: seq<PulseDraw>,
                     i: int, p: PulseParams, f: real, pl: seq<int>, pm: seq<int>, ps: seq<int>)
    returns (pl1: seq<int>, pm1: seq<int>, ps1: seq<int>)
    requires PulseShape(s0) && PulseDrawsOk(ds) && 0 <= i < NumPartials
    requires p == ParamsOf(s0) && f == s0.freq[i]
    requires AccsScanned(s0, i, pl, pm, ps)
    requires ploks.Valid() && PoolScanned(ploks, s0, num, ds, i)
    modifies ploks.Repr
    ensures AccsScanned(s0, i + 1, pl1, pm1, ps1)
    ensures ploks.Valid() && PoolScanned(ploks, s0, num, ds, i + 1)
  {
    ghost var lv := PulseLevels(s0);
    ghost var reqs := ScanRequests(s0, ds, lv, i);
    ghost var t := Tier(s0, i);
    ghost var pool0 := ploks.Model();
    AccsStep(s0, i, pl, pm, ps);
    pl1, pm1, ps1 := pl, pm, ps;
    var fire, gain := true, 0.0;
    assert pl[i] == s0.pulseL[i] && pm[i] == s0.pulseM[i] && ps[i] == s0.pulseS[i];
    if pl[i] >= p.thresL {
      assert t == 1;
      pl1, gain := pl[i := 0], PulseGainL;
      assert lv[t - 1] == PulseLevel(gain, p.masterGain);
    } else if pm[i] >= p.thresM {
      assert t == 2;
      pm1, gain := pm[i := 0], PulseGainM;
      assert lv[t - 1] == PulseLevel(gain, p.masterGain);
    } else if ps[i] >= p.thresS {
      assert t == 3;
      ps1, gain := ps[i := 0], PulseGainS;
      assert lv[t - 1] == PulseLevel(gain, p.masterGain);
    } else {
      assert t == 0;
      fire := false;
    }
    if fire {
      var r := PulseRequest(f, PulseQ(p.resonanceAvg, ds[i]), PulseLevel(gain, p.masterGain), PulseDur(ds[i]));
      assert r == Request(s0, lv, i, t, ds[i]);
      ploks.Trigger(num, r.freq, r.q, r.level, r.dur);
      FiredSnoc(s0.ploks, num, reqs, r);
      assert ScanRequests(s0, ds, lv, i + 1) == reqs + [r];
      assert ploks.Model() == Fired(s0.ploks, num, reqs + [r]);
    } else {
      assert ScanRequests(s0, ds, lv, i + 1) == reqs;
      assert ploks.Model() == pool0;
    }
  }


  /** The pulse scan loop of Update: partials in order, each through
      ScanPartial, on copies of the three accumulator arrays. */
  method FirePulses(ploks: PlokSynth, ghost s0: StringState, num: Numerics, ds: seq<PulseDraw>,
                    p: PulseParams, fr: seq<real>, l0: seq<int>, m0: seq<int>, s0S: seq<int>)
    returns (pl: seq<int>, pm: seq<int>, ps: seq<int>)
    requires PulseShape(s0) && PulseDrawsOk(ds) && p == ParamsOf(s0) && fr == s0.freq
    requires l0 == s0.pulseL && m0 == s0.pulseM && s0S == s0.pulseS
    requires ploks.Valid() && ploks.Model() == s0.ploks
    modifies ploks.Repr
    ensures ploks.Valid()
    ensures ploks.Model() == Fired(s0.ploks, num, ScanRequests(s0, ds, PulseLevels(s0), NumPartials))
    ensures pl == ScannedAcc(s0, s0.pulseL, 1) && pm == ScannedAcc(s0, s0.pulseM, 2) && ps == ScannedAcc(s0, s0.pulseS, 3)
  {
    pl, pm, ps := l0, m0, s0S;
    var i := 0;
    while i < NumPartials
      modifies ploks.Repr
      invariant 0 <= i <= NumPartials
      invariant AccsScanned(s0, i, pl, pm, ps)
      invariant ploks.Valid() && PoolScanned(ploks, s0, num, ds, i)
    {
      pl, pm, ps := ScanPartial(ploks, s0, num, ds, i, p, fr[i], pl, pm, ps);
      i := i + 1;
    }
    assert pl == ScannedAcc(s0, s0.pulseL, 1);
    assert pm == ScannedAcc(s0, s0.pulseM, 2);
    assert ps == ScannedAcc(s0, s0.pulseS, 3);
  }

  /** A string. Its scalars and per-partial arrays live in one record field
      `st` that the methods rewrite in place; the LFO and the plok pool are
      owned objects, and their own states stand in for the `lfo` and `ploks`
      components of `st`, which the class never reads. */
  class LarvaString {
    var st: StringState
    const ploks: PlokSynth
    const lfo: Lfo
    ghost const Repr: set<object>

    ghost function Model(): StringState
      reads this, lfo, ploks, ploks.voices, ploks.activeList
    {
      st.(ploks := ploks.Model(), lfo := lfo.Model())
    }

    /** The ownership structure: the string, its LFO and its pool are
        distinct, and the pool is well formed. */
    ghost predicate Frame()
      reads this, Repr
    {
      this in Repr && lfo in Repr && ploks in Repr && ploks.Repr <= Repr &&
      this !in ploks.Repr && lfo !in ploks.Repr && ploks.Valid()
    }

    ghost predicate Valid()
      reads this, Repr
    {
      Frame() && StringInv(Model())
    }

    constructor (num: Numerics)
      ensures Valid() && fresh(Repr) && Model() == InitialString(num)
    {
      var l := new Lfo();
      var p := new PlokSynth(num);
      lfo, ploks := l, p;
      st := InitialString(num);
      Repr := {this, l} + p.Repr;
    }

    /** Init: only the id is stored; the fundamental argument is unused. */
    method Init(newId: int, fund: real)
      requires Valid()
      modifies this
      ensures Model() == old(Model()).(id := newId) && Valid()
    {
      st := st.(id := newId);
    }

    method SetID(value: int)
      requires Valid()
      modifies this
      ensures Model() == old(Model()).(id := value) && Valid()
    {
      st := st.(id := value);
    }

    method SetPulseLThres(value: int)
      requires Valid()
      modifies this
      ensures Model() == old(Model()).(thresL := value) && Valid()
    {
      st := st.(thresL := value);
    }

    method SetPulseMThres(value: int)
      requires Valid()
      modifies this
      ensures Model() == old(Model()).(thresM := value) && Valid()
    {
      st := st.(thresM := value);
    }

    method SetPulseSThres(value: int)
      requires Valid()
      modifies this
      ensures Model() == old(Model()).(thresS := value) && Valid()
    {
      st := st.(thresS := value);
    }

    method SetDroneRange(value: int)
      requires Valid()
      modifies this
      ensures Model() == old(Model()).(droneRange := value) && Valid()
    {
      st := st.(droneRange := value);
    }

    method SetDroneDecreaseStep(value: int)
      requires Valid()
      modifies this
      ensures Model() == old(Model()).(decreaseStepMaster := value) && Valid()
    {
      st := st.(decreaseStepMaster := value);
    }

    method SetPulseMasterGain(value: real)
      requires Valid()
      modifies this
      ensures Model() == old(Model()).(pulseMasterGain := value) && Valid()
    {
      st := st.(pulseMasterGain := value);
    }

    method SetPulseResonanceAvg(value: real)
      requires Valid()
      modifies this
      ensures Model() == old(Model()).(pulseResonanceAvg := value) && Valid()
    {
      st := st.(pulseResonanceAvg := value);
    }

    /** SetLFORate forwards to the LFO; a zero rate would divide by zero. */
    method SetLFORate(value: real)
      requires Valid() && value != 0.0
      modifies lfo
      ensures Model() == old(Model()).(lfo := LfoRated(old(lfo.Model()), value)) && Valid()
    {
      lfo.SetRate(value);
    }

    predicate Active()
      reads this
    {
      st.active
    }

    predicate Triggered()
      reads this
    {
      st.triggered
    }

    method Mute()
      requires Valid()
      modifies this
      ensures Model() == Muted(old(Model())) && Valid()
    {
      if st.active {
        st := st.(active := false);
      }
    }

    method Unmute(num: Numerics, d: RetuneDraws)
      requires Valid() && RetuneDrawsOk(d)
      modifies this
      ensures Model() == Unmuted(old(Model()), num, d) && Valid()
    {
      if !st.active {
        Retune(num, st.fundFreq, d);
        st := st.(active := true, triggered := true);
      }
    }

    method Retune(num: Numerics, fund: real, d: RetuneDraws)
      requires Valid() && RetuneDrawsOk(d) && 0.0 < fund <= MaxFundamental
      modifies this
      ensures Model() == Retuned(old(Model()), num, fund, d) && Valid()
    {
      var cp := d.offset + 1;
      var base, det, fr, steps := RetunePartials(num, fund, cp, st.decreaseStepMaster, d.detune);
      st := st.(cutoffPartial := cp, fundFreq := fund, baseFreq := base, detune := det,
        freq := fr, decreaseStep := steps);
    }

    method UpdateLevels(input: int, delta: int)
      requires Valid()
      modifies this
      ensures Model() == LevelsRaised(old(Model()), input, delta) && Valid()
    {
      if delta >= LightTriggerThreshold {
        var dl, pl, pm, ps := RaiseLevels(Model(), st.lightMin, st.lightMax, st.droneRange,
          st.droneLevels, st.pulseL, st.pulseM, st.pulseS, input, delta);
        st := st.(droneLevels := dl, pulseL := pl, pulseM := pm, pulseS := ps);
      }
    }

    method SetLightRange(lo: int, hi: int)
      requires Valid()
      modifies this
      ensures Model() == LightRangeSet(old(Model()), lo, hi) && Valid()
    {
      var range := hi - lo;
      var w := DivT(range, NumPartials);
      var mn, mx := st.lightMin, st.lightMax;
      var i := 0;
      while i < NumPartials
        invariant 0 <= i <= NumPartials && |mn| == |mx| == NumPartials
        invariant forall k :: 0 <= k < i ==> mn[k] == lo + k * w && mx[k] == lo + (k + 1) * w
      {
        mn := mn[i := lo + i * w];
        mx := mx[i := lo + (i + 1) * w];
        i := i + 1;
      }
      st := st.(lightMin := mn, lightMax := mx);
    }

    /** The gain step of Update. */
    method UpdateGains(table: seq<real>)
      requires Valid() && GainMapDefined(Model()) && TableOk(table)
      modifies this
      ensures Model() == WithGains(old(Model()), table) && Valid()
    {
      var g := ComputeGains(Model(), st.droneLevels, st.droneRange, st.freq, table);
      st := st.(gains := g);
    }

    /** The smoothing step of Update, fed with the smoothers' outputs. */
    method UpdateSmoothGains(smoothOut: seq<int>)
      requires Valid() && |smoothOut| == NumPartials
      modifies this
      ensures Model() == WithSmoothGains(old(Model()), smoothOut) && Valid()
    {
      var g := StoreSmoothGains(smoothOut);
      st := st.(smoothGains := g);
    }

    /** The decay step of Update, at time `now` (millis()). */
    method Decay(now: ULong)
      requires Valid()
      modifies this
      ensures Model() == Decayed(old(Model()), now) && Valid()
    {
      if Elapsed(now, st.decreaseTime) > DroneDecreaseRate {
        var dl := DecayLevels(st.droneLevels, st.decreaseStep);
        st := st.(droneLevels := dl, decreaseTime := now);
      }
    }

    /** TriggerRandomPulse: dithers Q and duration with the draws and asks
        the pool for a pulse at the tier's gain times the master gain. */
    method TriggerRandomPulse(num: Numerics, f: real, gain: real, d: PulseDraw)
      requires Valid() && PulseDrawOk(d)
      modifies ploks.Repr
      ensures ploks.Valid()
      ensures ploks.Model() == SynthTrigger(old(ploks.Model()), num, f,
        PulseQ(st.pulseResonanceAvg, d), PulseLevel(gain, st.pulseMasterGain), PulseDur(d))
    {
      TriggerPulse(ploks, num, f, gain, st.pulseMasterGain, st.pulseResonanceAvg, d);
    }

    /** The pulse scan of Update. */
    method ScanPulses(num: Numerics, ds: seq<PulseDraw>)
      requires Valid() && PulseDrawsOk(ds)
      modifies Repr
      ensures Model() == ScanApplied(old(Model()), num, ds) && Valid()
    {
      ghost var s := Model();
      var pl, pm, ps := FirePulses(ploks, s, num, ds,
        PulseParams(st.thresL, st.thresM, st.thresS, st.pulseMasterGain, st.pulseResonanceAvg),
        st.freq, st.pulseL, st.pulseM, st.pulseS);
      st := st.(pulseL := pl, pulseM := pm, pulseS := ps);
    }

    /** The LFO step of Update. */
    method ModulateLfo()
      requires Valid()
      modifies this, lfo
      ensures Model() == Modulated(old(Model())) && Valid()
    {
      ghost var s0 := Model();
      if st.lfoUpdateTimer + 1 >= LfoUpdateInterval {
        var v := lfo.Get();
        var fr := ModulatePartials(st.baseFreq, st.detune, v);
        st := st.(lfoUpdateTimer := 0, freq := fr);
      } else {
        st := st.(lfoUpdateTimer := st.lfoUpdateTimer + 1);
      }
      assert Model() == Modulated(s0);
    }

    /** The part of Update performed only while the string is active. */
    method Play(num: Numerics, now: ULong, ds: seq<PulseDraw>)
      requires Valid() && PulseDrawsOk(ds)
      modifies Repr
      ensures Model() == Played(old(Model()), num, now, ds) && Valid()
    {
      Decay(now);
      ScanPulses(num, ds);
      ploks.Update();
      ModulateLfo();
    }

    /** The gain and activity half of Update. */
    method Activate(num: Numerics, table: seq<real>, smoothOut: seq<int>, d: RetuneDraws)
      requires Valid() && GainMapDefined(Model()) && TableOk(table)
      requires |smoothOut| == NumPartials && RetuneDrawsOk(d)
      modifies this
      ensures Model() == Activated(old(Model()), num, table, smoothOut, d) && Valid()
    {
      ghost var s1 := WithGains(Model().(triggered := false), table);
      ghost var s2 := WithSmoothGains(s1, smoothOut);
      st := st.(triggered := false);
      UpdateGains(table);
      assert Model() == s1;
      UpdateSmoothGains(smoothOut);
      assert Model() == s2;
      var sum := SumGains(st.smoothGains);
      if sum <= GainMin {
        Mute();
      } else {
        Unmute(num, d);
      }
    }

    /** Update: one control-rate step of the string, with the smoothers'
        outputs, millis() and the random draws as inputs. */
    method Update(num: Numerics, table: seq<real>, now: ULong,
                  smoothOut: seq<int>, d: RetuneDraws, ds: seq<PulseDraw>)
      requires Valid() && GainMapDefined(Model()) && TableOk(table) && UpdateInputsOk(smoothOut, d, ds)
      modifies Repr
      ensures Model() == StringUpdated(old(Model()), num, table, now, smoothOut, d, ds) && Valid()
    {
      Activate(num, table, smoothOut, d);
      if st.active {
        Play(num, now, ds);
      }
    }

    /** Process: the scaled drone mix of the oscillator samples plus the
        pool's output. */
    method Process(osc: seq<int>) returns (v: real)
      requires Valid() && OscOk(osc)
      modifies ploks.Repr
      ensures Valid() && (Model(), v) == StringProcessed(old(Model()), osc)
    {
      ghost var s0 := Model();
      var vsum := MixDrone(osc, st.smoothGains);
      var p := ploks.Process();
      v := vsum as real * StringDroneGainScaler + p;
      assert Model() == StringProcessed(s0, osc).0;
    }
  }
}
