/** The pulse ("plok") voice: a rectangular burst of LCG white noise fed
    through a resonant two-pole filter, and the 12-slot pool that plays them. */
module PlokVoices {
  import opened Platform
  import opened LarvaDefs

  const NumVoices: int := 12
  /** Audio samples a pulse is expected to sound: AUDIO_RATE * 50 ms, truncated
      (LifeEstimationValue). */
  const LifeEstimation: int := 1638
  const OmegaFactor: real := 2.0 * Pi / AudioRate as real
  const TwoTo32: int := 0x1_0000_0000
  /** rrandmax + 1: masking with rrandmax keeps the value modulo 2^30. */
  const NoiseModulus: int := 0x4000_0000

  lemma LifeEstimationValue()
    ensures LifeEstimation == Trunc(AudioRate as real * PlokDurEstimMs * 0.001)
  {
    assert AudioRate as real * PlokDurEstimMs * 0.001 == 1638.4;
  }

  /** Resonator coefficients; a1 and a2 are stored negated, as the recursion adds them. */
  datatype Biquad = Biquad(r: real, b0: real, b2: real, a1: real, a2: real)

  /** The resonator with pole radius r and cos(omega * fc) = cw: zeros at DC
      and Nyquist (b2 = -b0), poles at radius r. */
  function Resonator(r: real, gain: real, cw: real): Biquad
  {
    Biquad(r, r * gain * (1.0 - r), -(r * gain * (1.0 - r)), 2.0 * r * cw, -(r * r))
  }

  /** The resonator tuned at fc with quality q and gain: pole radius
      R = exp(-omega * fc / q). */
  function BiquadFor(num: Numerics, fc: real, q: real, gain: real): Biquad
    requires q != 0.0
  {
    Resonator(num.expf(-OmegaFactor * (fc / q)), gain, num.cosf(OmegaFactor * fc))
  }

  /** The state of one voice; `rrand` is the uint32 noise state. */
  datatype PlokState = PlokState(
    onCounter: int, fc: real, q: real, gain: real, filter: Biquad,
    y2: real, y1: real, x1: real, x2: real,
    rrand: int, counter: int, envDur: int)

  predicate PlokInv(p: PlokState)
  {
    0 <= p.onCounter <= LifeEstimation && p.q >= 1.0 && p.fc >= 20.0 && p.gain >= 0.0 &&
    p.envDur >= 1 && 0 <= p.rrand < TwoTo32 && p.counter >= 0
  }

  predicate IsOn(p: PlokState)
  {
    p.onCounter < LifeEstimation
  }

  function InitialPlok(num: Numerics): PlokState
  {
    PlokState(LifeEstimation, 1000.0, 1.0, 1.0, BiquadFor(num, 1000.0, 1.0, 1.0),
      0.0, 0.0, 0.0, 0.0, 1, 0, 25)
  }

  /** A freshly built voice is silent: its life counter starts at the estimate. */
  lemma InitialPlokOff(num: Numerics)
    ensures PlokInv(InitialPlok(num)) && !IsOn(InitialPlok(num))
  {
    LifeEstimationValue();
  }

  /** Trigger: clamps duration to >= 1, gain to >= 0, frequency to >= 20 Hz and
      Q to >= 1, retunes the resonator and restarts both counters. */
  function PlokTriggered(p: PlokState, num: Numerics, freq: real, quality: real, level: real, impulseDur: int): (r: PlokState)
    ensures r.envDur >= 1 && (impulseDur >= 1 ==> r.envDur == impulseDur) && (impulseDur < 1 ==> r.envDur == 1)
    ensures r.gain >= 0.0 && (level >= 0.0 ==> r.gain == level) && (level < 0.0 ==> r.gain == 0.0)
    ensures r.fc >= 20.0 && (freq >= 20.0 ==> r.fc == freq) && (freq < 20.0 ==> r.fc == 20.0)
    ensures r.q >= 1.0 && (quality >= 1.0 ==> r.q == quality) && (quality < 1.0 ==> r.q == 1.0)
    ensures r.filter == BiquadFor(num, r.fc, r.q, r.gain)
    ensures r.counter == 0 && r.onCounter == 0
    ensures r.rrand == p.rrand && r.x1 == p.x1 && r.x2 == p.x2 && r.y1 == p.y1 && r.y2 == p.y2
  {
    var d := if impulseDur > 0 then impulseDur else 1;
    var g := if level > 0.0 then level else 0.0;
    var f := if freq > 20.0 then freq else 20.0;
    var q := if quality > 1.0 then quality else 1.0;
    p.(envDur := d, gain := g, fc := f, q := q, filter := BiquadFor(num, f, q, g),
       counter := 0, onCounter := 0)
  }

  /** A triggered voice keeps the invariant and is sounding. */
  lemma TriggeredIsOn(p: PlokState, num: Numerics, freq: real, quality: real, level: real, impulseDur: int)
    requires PlokInv(p)
    ensures PlokInv(PlokTriggered(p, num, freq, quality, level, impulseDur))
    ensures IsOn(PlokTriggered(p, num, freq, quality, level, impulseDur))
  {
    LifeEstimationValue();
  }

  /** One step of the uint32 linear congruential generator. */
  function NextRand(x: int): (y: int)
    ensures 0 <= y < TwoTo32
  {
    (x * 1103515245 + 12345) % TwoTo32
  }

  /** The noise sample of generator state x: the low 30 bits scaled to [-1, 1). */
  function Noise(x: int): (n: real)
    ensures -1.0 <= n < 1.0
  {
    (x % NoiseModulus) as real / 536870912.0 - 1.0
  }

  /** The rectangular envelope after the pre-increment of the counter. */
  function Envelope(counter: int, envDur: int): real
  {
    if counter < envDur then 1.0 else 0.0
  }

  /** The resonator's difference equation: y0 = b0 x0 + b2 x2 + a1 y1 + a2 y2
      (b1 is zero; a1 and a2 are stored negated). */
  function ResonatorOut(f: Biquad, x0: real, x2: real, y1: real, y2: real): real
  {
    x0 * f.b0 + x2 * f.b2 + y1 * f.a1 + y2 * f.a2
  }

  /** One audio sample of a voice: life counter, noise, envelope and resonator. */
  function Stepped(p: PlokState): PlokState
  {
    var rr := NextRand(p.rrand);
    var counter := p.counter + 1;
    var vsig := Noise(rr) * 1.5 * Envelope(counter, p.envDur);
    var y0 := ResonatorOut(p.filter, vsig, p.x2, p.y1, p.y2);
    p.(onCounter := if p.onCounter < LifeEstimation then p.onCounter + 1 else p.onCounter,
       rrand := rr, counter := counter, x2 := p.x1, x1 := vsig, y2 := p.y1, y1 := y0)
  }

  /** A step keeps the voice invariant; the life counter never passes the
      estimate and moves only while below it; the delay line shifts by one. */
  lemma SteppedKeepsInv(p: PlokState)
    requires PlokInv(p)
    ensures PlokInv(Stepped(p))
    ensures Stepped(p).onCounter == if IsOn(p) then p.onCounter + 1 else p.onCounter
    ensures Stepped(p).x2 == p.x1 && Stepped(p).y2 == p.y1
    ensures Stepped(p).rrand == (p.rrand * 1103515245 + 12345) % TwoTo32
    ensures 0 <= Stepped(p).rrand % NoiseModulus < NoiseModulus
  {
  }

  /** n consecutive audio samples. */
  function Steps(p: PlokState, n: nat): PlokState
  {
    if n == 0 then p else Stepped(Steps(p, n - 1))
  }

  lemma {:induction false} StepsCounters(p: PlokState, n: nat)
    requires PlokInv(p)
    ensures PlokInv(Steps(p, n))
    ensures Steps(p, n).onCounter == Min(p.onCounter + n, LifeEstimation)
    ensures Steps(p, n).counter == p.counter + n
    ensures Steps(p, n).envDur == p.envDur
  {
    if n > 0 {
      StepsCounters(p, n - 1);
      SteppedKeepsInv(Steps(p, n - 1));
    }
  }

  /** After a trigger a voice is On for exactly LifeEstimation samples. */
  lemma OnForLifeEstimation(p: PlokState, num: Numerics, freq: real, quality: real, level: real, impulseDur: int, n: nat)
    requires PlokInv(p)
    ensures IsOn(Steps(PlokTriggered(p, num, freq, quality, level, impulseDur), n)) <==> n < LifeEstimation
  {
    var t := PlokTriggered(p, num, freq, quality, level, impulseDur);
    TriggeredIsOn(p, num, freq, quality, level, impulseDur);
    StepsCounters(t, n);
  }

  /** After a trigger, the (k+1)-th sample passes the noise through iff
      k + 1 < envDur: the burst lasts envDur - 1 samples, then the resonator
      input is silent. */
  lemma EnvelopeWindow(p: PlokState, num: Numerics, freq: real, quality: real, level: real, impulseDur: int, k: nat)
    requires PlokInv(p)
    ensures var t := PlokTriggered(p, num, freq, quality, level, impulseDur);
      (Envelope(Steps(t, k).counter + 1, t.envDur) == 1.0 <==> k + 1 < t.envDur) &&
      (k + 1 >= t.envDur ==> Steps(t, k + 1).x1 == 0.0)
  {
    var t := PlokTriggered(p, num, freq, quality, level, impulseDur);
    TriggeredIsOn(p, num, freq, quality, level, impulseDur);
    StepsCounters(t, k);
  }

  /** One pulse voice. */
  class Plok {
    var onCounter: int
    var fc: real
    var q: real
    var gain: real
    var r: real
    var b0: real
    var b2: real
    var a1: real
    var a2: real
    var y2: real
    var y1: real
    var x1: real
    var x2: real
    var rrand: int
    var counter: int
    var envDur: int

    ghost function Model(): PlokState
      reads this
    {
      PlokState(onCounter, fc, q, gain, Biquad(r, b0, b2, a1, a2), y2, y1, x1, x2, rrand, counter, envDur)
    }

    ghost predicate Valid()
      reads this
    {
      PlokInv(Model())
    }

    constructor (num: Numerics)
      ensures Valid() && Model() == InitialPlok(num)
    {
      onCounter := LifeEstimation;
      fc, q, gain := 1000.0, 1.0, 1.0;
      r, b0, b2, a1, a2 := 0.0, 0.0, 0.0, 0.0, 0.0;
      y2, y1, x1, x2 := 0.0, 0.0, 0.0, 0.0;
      rrand, counter, envDur := 1, 0, 25;
      new;
      UpdateBiquad(num);
      InitialPlokOff(num);
    }

    method UpdateBiquad(num: Numerics)
      requires q != 0.0
      modifies this
      ensures onCounter == old(onCounter) && fc == old(fc) && q == old(q) && gain == old(gain)
      ensures y2 == old(y2) && y1 == old(y1) && x1 == old(x1) && x2 == old(x2)
      ensures rrand == old(rrand) && counter == old(counter) && envDur == old(envDur)
      ensures Biquad(r, b0, b2, a1, a2) == BiquadFor(num, fc, q, gain)
    {
      var rr := num.expf(-OmegaFactor * (fc / q));
      var cw := num.cosf(OmegaFactor * fc);
      assert BiquadFor(num, fc, q, gain) == Resonator(rr, gain, cw);
      r := rr;
      a2 := -(r * r);
      a1 := 2.0 * r * cw;
      b0 := r * gain * (1.0 - r);
      b2 := -b0;
    }

    method Trigger(num: Numerics, freq: real, quality: real, level: real, impulseDur: int)
      requires Valid()
      modifies this
      ensures Valid() && On()
      ensures Model() == PlokTriggered(old(Model()), num, freq, quality, level, impulseDur)
    {
      var d := if impulseDur > 0 then impulseDur else 1;
      var g := if level > 0.0 then level else 0.0;
      var f := if freq > 20.0 then freq else 20.0;
      var qq := if quality > 1.0 then quality else 1.0;
      envDur, gain, fc, q, counter, onCounter := d, g, f, qq, 0, 0;
      UpdateBiquad(num);
      TriggeredIsOn(old(Model()), num, freq, quality, level, impulseDur);
    }

    method WNoise() returns (n: real)
      modifies this
      ensures Model() == old(Model()).(rrand := NextRand(old(rrand)))
      ensures n == Noise(rrand) && -1.0 <= n < 1.0
    {
      rrand := (rrand * 1103515245 + 12345) % TwoTo32;
      n := (rrand % NoiseModulus) as real / 536870912.0 - 1.0;
    }

    /** One audio sample; the result is the newest resonator output. */
    method Process() returns (y0: real)
      requires Valid()
      modifies this
      ensures Valid() && Model() == Stepped(old(Model())) && y0 == y1
    {
      ghost var p := Model();
      var life := if onCounter < LifeEstimation then onCounter + 1 else onCounter;
      var vsig := WNoise();
      var c := counter + 1;
      var venv := if c < envDur then 1.0 else 0.0;
      vsig := vsig * 1.5 * venv;
      y0 := ResonatorOut(Biquad(r, b0, b2, a1, a2), vsig, x2, y1, y2);
      onCounter, counter, x2, x1, y2, y1 := life, c, x1, vsig, y1, y0;
      SteppedKeepsInv(p);
    }

    predicate On()
      reads this
    {
      onCounter < LifeEstimation
    }
  }

  /** Pool state: the voices, the active count and the active-voice list
      (voice indices standing for the pointers of `PlokSynth::mpActiveVoices`). */
  datatype SynthState = SynthState(voices: seq<PlokState>, nActive: int, activeList: seq<int>)

  predicate SynthInv(s: SynthState)
  {
    |s.voices| == NumVoices && |s.activeList| == NumVoices && 0 <= s.nActive <= NumVoices &&
    (forall i :: 0 <= i < NumVoices ==> PlokInv(s.voices[i])) &&
    (forall k :: 0 <= k < NumVoices ==> 0 <= s.activeList[k] < NumVoices)
  }

  function InitialSynth(num: Numerics): SynthState
  {
    SynthState(seq(NumVoices, _ => InitialPlok(num)), 0, seq(NumVoices, _ => 0))
  }

  /** TriggerVoice: ignores an index >= 12 and a voice that is sounding
      (no stealing); otherwise retriggers exactly the addressed voice. */
  function SynthTriggerVoice(s: SynthState, num: Numerics, id: int, freq: real, quality: real, level: real, impulseDur: int): (t: SynthState)
    requires SynthInv(s) && id >= 0
    ensures SynthInv(t) && t.nActive == s.nActive && t.activeList == s.activeList
    ensures id >= NumVoices ==> t == s
    ensures id < NumVoices && IsOn(s.voices[id]) ==> t == s
    ensures id < NumVoices && !IsOn(s.voices[id]) ==>
      t.voices[id] == PlokTriggered(s.voices[id], num, freq, quality, level, impulseDur) && IsOn(t.voices[id])
    ensures forall j :: 0 <= j < NumVoices && j != id ==> t.voices[j] == s.voices[j]
  {
    if id >= NumVoices || IsOn(s.voices[id]) then s
    else
      TriggeredIsOn(s.voices[id], num, freq, quality, level, impulseDur);
      s.(voices := s.voices[id := PlokTriggered(s.voices[id], num, freq, quality, level, impulseDur)])
  }

  /** Trigger: when the count is below 12, retriggers the voice at index
      count, whether or not it is sounding, and increments the count; the
      active list is left as it was. */
  function SynthTrigger(s: SynthState, num: Numerics, freq: real, quality: real, level: real, impulseDur: int): (t: SynthState)
    requires SynthInv(s)
    ensures SynthInv(t) && t.activeList == s.activeList
    ensures s.nActive == NumVoices ==> t == s
    ensures s.nActive < NumVoices ==>
      t.nActive == s.nActive + 1 &&
      t.voices[s.nActive] == PlokTriggered(s.voices[s.nActive], num, freq, quality, level, impulseDur)
    ensures forall j :: 0 <= j < NumVoices && j != s.nActive ==> t.voices[j] == s.voices[j]
  {
    if s.nActive < NumVoices then
      TriggeredIsOn(s.voices[s.nActive], num, freq, quality, level, impulseDur);
      s.(voices := s.voices[s.nActive := PlokTriggered(s.voices[s.nActive], num, freq, quality, level, impulseDur)],
         nActive := s.nActive + 1)
    else s
  }

  /** Available() holds exactly when a Trigger would take a voice. */
  lemma AvailableIffTriggerTakesVoice(s: SynthState, num: Numerics, freq: real, quality: real, level: real, impulseDur: int)
    requires SynthInv(s)
    ensures s.nActive < NumVoices <==> SynthTrigger(s, num, freq, quality, level, impulseDur).nActive == s.nActive + 1
  {
  }

  /** The indices of the sounding voices among the first n, in increasing order. */
  function OnIndices(vs: seq<PlokState>, n: int): (r: seq<int>)
    requires 0 <= n <= |vs|
    ensures |r| <= n
  {
    if n == 0 then [] else OnIndices(vs, n - 1) + (if IsOn(vs[n - 1]) then [n - 1] else [])
  }

  /** OnIndices lists exactly the sounding voices below n, strictly increasing. */
  lemma {:induction false} OnIndicesExact(vs: seq<PlokState>, n: int)
    requires 0 <= n <= |vs|
    ensures forall k :: 0 <= k < |OnIndices(vs, n)| ==> 0 <= OnIndices(vs, n)[k] < n && IsOn(vs[OnIndices(vs, n)[k]])
    ensures forall j, k :: 0 <= j < k < |OnIndices(vs, n)| ==> OnIndices(vs, n)[j] < OnIndices(vs, n)[k]
    ensures forall i :: 0 <= i < n && IsOn(vs[i]) ==> i in OnIndices(vs, n)
  {
    if n > 0 {
      OnIndicesExact(vs, n - 1);
    }
  }

  /** Update: the count becomes the number of sounding voices and the head of
      the list enumerates them; list entries past the count keep their values. */
  function SynthUpdated(s: SynthState): (t: SynthState)
    requires SynthInv(s)
    ensures SynthInv(t) && t.voices == s.voices
  {
    var on := OnIndices(s.voices, NumVoices);
    OnIndicesExact(s.voices, NumVoices);
    s.(nActive := |on|, activeList := on + s.activeList[|on|..])
  }

  /** After Update the list head holds each sounding voice exactly once, in
      increasing slot order, and nothing else. */
  lemma UpdateListsSoundingVoices(s: SynthState)
    requires SynthInv(s)
    ensures var t := SynthUpdated(s);
      (forall k :: 0 <= k < t.nActive ==> IsOn(s.voices[t.activeList[k]])) &&
      (forall j, k :: 0 <= j < k < t.nActive ==> t.activeList[j] < t.activeList[k]) &&
      (forall i :: 0 <= i < NumVoices && IsOn(s.voices[i]) ==> i in t.activeList[..t.nActive])
  {
    var on := OnIndices(s.voices, NumVoices);
    OnIndicesExact(s.voices, NumVoices);
    assert SynthUpdated(s).activeList[..|on|] == on;
  }

  /** The audio callback over the first n listed voices: each listed entry
      steps its voice once, in list order; the result pairs the voices with
      the mix. */
  function ProcessList(vs: seq<PlokState>, list: seq<int>, n: int): (r: (seq<PlokState>, real))
    requires 0 <= n <= |list|
    requires forall k :: 0 <= k < |list| ==> 0 <= list[k] < |vs|
    ensures |r.0| == |vs|
  {
    if n == 0 then (vs, 0.0)
    else
      var prev := ProcessList(vs, list, n - 1);
      var i := list[n - 1];
      var v := Stepped(prev.0[i]);
      (prev.0[i := v], prev.1 + v.y1)
  }

  /** Processing steps each voice of a duplicate-free list prefix exactly once
      and leaves every unlisted voice as it was. */
  lemma {:induction false} ProcessListSteps(vs: seq<PlokState>, list: seq<int>, n: int)
    requires 0 <= n <= |list|
    requires forall k :: 0 <= k < |list| ==> 0 <= list[k] < |vs|
    requires forall j, k :: 0 <= j < k < n ==> list[j] != list[k]
    ensures forall i :: 0 <= i < |vs| ==>
      ProcessList(vs, list, n).0[i] == if i in list[..n] then Stepped(vs[i]) else vs[i]
  {
    if n > 0 {
      ProcessListSteps(vs, list, n - 1);
      forall i | 0 <= i < |vs|
        ensures ProcessList(vs, list, n).0[i] == if i in list[..n] then Stepped(vs[i]) else vs[i]
      {
        assert list[..n] == list[..n - 1] + [list[n - 1]];
        assert list[n - 1] !in list[..n - 1];
      }
    }
  }

  /** The pool's audio callback reads only the first nActive list entries. */
  function SynthProcessed(s: SynthState): (r: (SynthState, real))
    requires SynthInv(s)
    ensures SynthInv(r.0) && r.0.nActive == s.nActive && r.0.activeList == s.activeList
  {
    var out := ProcessList(s.voices, s.activeList, s.nActive);
    ProcessListKeepsInv(s.voices, s.activeList, s.nActive);
    (s.(voices := out.0), out.1)
  }

  lemma {:induction false} ProcessListKeepsInv(vs: seq<PlokState>, list: seq<int>, n: int)
    requires 0 <= n <= |list|
    requires forall k :: 0 <= k < |list| ==> 0 <= list[k] < |vs|
    requires forall i :: 0 <= i < |vs| ==> PlokInv(vs[i])
    ensures forall i :: 0 <= i < |vs| ==> PlokInv(ProcessList(vs, list, n).0[i])
  {
    if n > 0 {
      ProcessListKeepsInv(vs, list, n - 1);
      SteppedKeepsInv(ProcessList(vs, list, n - 1).0[list[n - 1]]);
    }
  }

  /** Right after Update, an audio sample steps every sounding voice once and
      leaves every silent voice untouched. */
  lemma ProcessAfterUpdate(s: SynthState)
    requires SynthInv(s)
    ensures var t := SynthProcessed(SynthUpdated(s)).0;
      forall i :: 0 <= i < NumVoices ==>
        t.voices[i] == if IsOn(s.voices[i]) then Stepped(s.voices[i]) else s.voices[i]
  {
    var u := SynthUpdated(s);
    var on := OnIndices(s.voices, NumVoices);
    OnIndicesExact(s.voices, NumVoices);
    assert u.activeList[..u.nActive] == on;
    ProcessListSteps(s.voices, u.activeList, u.nActive);
  }

  ghost function VoiceStates(vs: seq<Plok>): (r: seq<PlokState>)
    reads vs
    ensures |r| == |vs| && forall i :: 0 <= i < |vs| ==> r[i] == vs[i].Model()
  {
    seq(|vs|, i requires 0 <= i < |vs| reads vs => vs[i].Model())
  }

  /** The 12-voice pool. */
  class PlokSynth {
    const voices: seq<Plok>
    const activeList: array<int>
    var nActive: int
    ghost const Repr: set<object>

    ghost predicate Valid()
      reads this, Repr
    {
      this in Repr && activeList in Repr &&
      |voices| == NumVoices && activeList.Length == NumVoices &&
      (forall i :: 0 <= i < NumVoices ==> voices[i] in Repr) &&
      (forall i, j :: 0 <= i < j < NumVoices ==> voices[i] != voices[j]) &&
      SynthInv(Model())
    }

    ghost function Model(): SynthState
      reads this, voices, activeList
    {
      SynthState(VoiceStates(voices), nActive, activeList[..])
    }

    constructor (num: Numerics)
      ensures Valid() && fresh(Repr) && Model() == InitialSynth(num)
    {
      var vs: seq<Plok> := [];
      while |vs| < NumVoices
        invariant |vs| <= NumVoices
        invariant forall i :: 0 <= i < |vs| ==> fresh(vs[i]) && vs[i].Model() == InitialPlok(num)
        invariant forall i, j :: 0 <= i < j < |vs| ==> vs[i] != vs[j]
      {
        var p := new Plok(num);
        vs := vs + [p];
      }
      voices := vs;
      activeList := new int[NumVoices](_ => 0);
      nActive := 0;
      Repr := {this, activeList} + set i | 0 <= i < NumVoices :: vs[i];
      new;
      InitialPlokOff(num);
      assert VoiceStates(voices) == seq(NumVoices, _ => InitialPlok(num));
      assert activeList[..] == seq(NumVoices, _ => 0);
    }

    predicate Available()
      reads this
    {
      nActive < NumVoices
    }

    method TriggerVoice(num: Numerics, id: int, freq: real, quality: real, level: real, impulseDur: int)
      requires Valid() && id >= 0
      modifies Repr
      ensures Valid() && Model() == SynthTriggerVoice(old(Model()), num, id, freq, quality, level, impulseDur)
    {
      if id >= NumVoices {
        return;
      }
      if voices[id].On() {
        return;
      }
      voices[id].Trigger(num, freq, quality, level, impulseDur);
      assert VoiceStates(voices) == old(VoiceStates(voices))[id := voices[id].Model()];
    }

    method Trigger(num: Numerics, freq: real, quality: real, level: real, impulseDur: int)
      requires Valid()
      modifies Repr
      ensures Valid() && Model() == SynthTrigger(old(Model()), num, freq, quality, level, impulseDur)
    {
      if nActive < NumVoices {
        var i := nActive;
        voices[i].Trigger(num, freq, quality, level, impulseDur);
        nActive := nActive + 1;
        assert VoiceStates(voices) == old(VoiceStates(voices))[i := voices[i].Model()];
      }
    }

    method Update()
      requires Valid()
      modifies Repr
      ensures Valid() && Model() == SynthUpdated(old(Model()))
    {
      ghost var vs := VoiceStates(voices);
      ghost var list0 := activeList[..];
      nActive := 0;
      var i := 0;
      while i < NumVoices
        modifies this, activeList
        invariant 0 <= i <= NumVoices
        invariant nActive == |OnIndices(vs, i)|
        invariant forall k :: 0 <= k < nActive ==> activeList[k] == OnIndices(vs, i)[k]
        invariant forall k :: nActive <= k < NumVoices ==> activeList[k] == list0[k]
      {
        if voices[i].On() {
          activeList[nActive] := i;
          nActive := nActive + 1;
        }
        i := i + 1;
      }
      assert activeList[..] == OnIndices(vs, NumVoices) + list0[nActive..];
      assert Model() == SynthUpdated(old(Model()));
    }

    method Process() returns (vmix: real)
      requires Valid()
      modifies Repr
      ensures Valid() && Model() == SynthProcessed(old(Model())).0
      ensures vmix == SynthProcessed(old(Model())).1
    {
      vmix := StepListed(voices, activeList[..], nActive);
    }
  }

  /** Steps the voices named by the first n list entries, one after the
      other, and returns the summed samples. */
  method StepListed(voices: seq<Plok>, list: seq<int>, n: int) returns (vmix: real)
    requires 0 <= n <= |list| && |voices| == NumVoices
    requires forall k :: 0 <= k < |list| ==> 0 <= list[k] < NumVoices
    requires forall i :: 0 <= i < NumVoices ==> voices[i].Valid()
    requires forall i, j :: 0 <= i < j < NumVoices ==> voices[i] != voices[j]
    modifies set i | 0 <= i < NumVoices :: voices[i]
    ensures forall i :: 0 <= i < NumVoices ==> voices[i].Valid()
    ensures (VoiceStates(voices), vmix) == ProcessList(old(VoiceStates(voices)), list, n)
  {
    ghost var vs := VoiceStates(voices);
    vmix := 0.0;
    var k := 0;
    while k < n
      invariant 0 <= k <= n
      invariant forall i :: 0 <= i < NumVoices ==> voices[i].Valid()
      invariant VoiceStates(voices) == ProcessList(vs, list, k).0
      invariant vmix == ProcessList(vs, list, k).1
    {
      var y := StepOne(voices, list[k]);
      vmix := vmix + y;
      k := k + 1;
    }
  }

  /** One sample of voice i; every other voice keeps its state. */
  method StepOne(voices: seq<Plok>, i: int) returns (y: real)
    requires 0 <= i < |voices| == NumVoices
    requires forall j :: 0 <= j < NumVoices ==> voices[j].Valid()
    requires forall j, k :: 0 <= j < k < NumVoices ==> voices[j] != voices[k]
    modifies voices[i]
    ensures forall j :: 0 <= j < NumVoices ==> voices[j].Valid()
    ensures VoiceStates(voices) == old(VoiceStates(voices))[i := Stepped(old(VoiceStates(voices))[i])]
    ensures y == Stepped(old(VoiceStates(voices))[i]).y1
  {
    y := voices[i].Process();
    assert VoiceStates(voices) == old(VoiceStates(voices))[i := voices[i].Model()];
  }
}
