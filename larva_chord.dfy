/** A chord: three strings tuned to one of five voicings of a chord-table
    row, updated together at control rate, with a light band that gates
    their level updates and a list of the strings that are sounding. The
    strings are held as StringState values and advanced by the string's
    specification functions, which LarvaStringClass.LarvaString implements. */
module LarvaChords {
  import opened Platform
  import opened LarvaDefs
  import opened PlokVoices
  import opened LarvaStrings

  datatype ChordState = ChordState(
    active: bool, triggered: bool, lightMin: int, lightMax: int, id: int,
    nActive: int, activeList: seq<int>, strings: seq<StringState>)

  /** A string the chord can update: well formed, with a drone range the
      gain map can divide by. */
  predicate Playable(s: StringState)
  {
    StringInv(s) && s.droneRange != DroneStartThres
  }

  /** The first n entries of the active-string list are string indices in
      strictly increasing order. */
  predicate ListOk(list: seq<int>, n: int)
  {
    |list| == NumStrings && 0 <= n <= NumStrings &&
    (forall k :: 0 <= k < n ==> 0 <= list[k] < NumStrings) &&
    (forall j, k :: 0 <= j < k < n ==> list[j] < list[k])
  }

  predicate ChordInv(c: ChordState)
  {
    0 <= c.id < NumChords && |c.strings| == NumStrings && ListOk(c.activeList, c.nActive) &&
    forall i :: 0 <= i < NumStrings ==> Playable(c.strings[i])
  }

  /** Whether string i is among the listed active strings. */
  predicate Listed(c: ChordState, i: int)
    requires 0 <= c.nActive <= |c.activeList|
  {
    i in c.activeList[..c.nActive]
  }

  /** A new chord: chord 1, silent, with an empty band and no active string.
      The active-string list starts without meaning; its slots are modelled as 0. */
  function InitialChord(num: Numerics): (c: ChordState)
    ensures ChordInv(c) && !c.active && c.nActive == 0
  {
    var s := InitialString(num);
    ChordState(false, false, 0, 0, 0, 0, [0, 0, 0], [s, s, s])
  }

  // ------------------------------------------------------------ retune

  /** The random draws of a chord retune: random(5) for the voicing, then
      one string retune each. */
  datatype ChordDraws = ChordDraws(voicing: int, tunings: seq<RetuneDraws>)

  predicate ChordDrawsOk(d: ChordDraws)
  {
    0 <= d.voicing < NumChordVoicings && |d.tunings| == NumStrings &&
    forall i :: 0 <= i < NumStrings ==> RetuneDrawsOk(d.tunings[i])
  }

  /** The fundamental of string i under voicing v of chord id:
      Chords[id][ChordVoicings[v][i]]. */
  function VoicedFund(id: int, v: int, i: int): (f: real)
    requires 0 <= id < NumChords && 0 <= v < NumChordVoicings && 0 <= i < NumStrings
    ensures 0.0 < f <= MaxFundamental
  {
    ChordsWellFormed();
    VoicingsWellFormed();
    Chords[id][ChordVoicings[v][i]]
  }

  /** String i of the chord retuned to candidate voicings[v][i] of its row. */
  function VoicedString(c: ChordState, num: Numerics, d: ChordDraws, i: int): (r: StringState)
    requires ChordInv(c) && ChordDrawsOk(d) && 0 <= i < NumStrings
    ensures Playable(r)
  {
    Retuned(c.strings[i], num, VoicedFund(c.id, d.voicing, i), d.tunings[i])
  }

  /** Retune: every string is retuned to its candidate of the voicing. */
  function ChordRetuned(c: ChordState, num: Numerics, d: ChordDraws): (r: ChordState)
    requires ChordInv(c) && ChordDrawsOk(d)
    ensures ChordInv(r) && r.(strings := c.strings) == c
    ensures forall i :: 0 <= i < NumStrings ==> r.strings[i] == VoicedString(c, num, d, i)
  {
    c.(strings := [VoicedString(c, num, d, 0), VoicedString(c, num, d, 1), VoicedString(c, num, d, 2)])
  }

  /** A retune gives the three strings three distinct fundamentals in
      ascending order, taken from the chord's own row, and leaves each
      string's activity alone. */
  lemma RetuneVoicing(c: ChordState, num: Numerics, d: ChordDraws)
    requires ChordInv(c) && ChordDrawsOk(d)
    ensures var r := ChordRetuned(c, num, d);
      r.strings[0].fundFreq < r.strings[1].fundFreq < r.strings[2].fundFreq &&
      (forall i :: 0 <= i < NumStrings ==>
        r.strings[i].fundFreq == VoicedFund(c.id, d.voicing, i) &&
        r.strings[i].active == c.strings[i].active)
  {
    ChordsWellFormed();
    VoicingsWellFormed();
    var v := ChordVoicings[d.voicing];
    assert Chords[c.id][v[0]] < Chords[c.id][v[1]] < Chords[c.id][v[2]];
  }

  // ------------------------------------------------------ mute / unmute

  function ChordMuted(c: ChordState): (r: ChordState)
    ensures !r.active && r.(active := c.active) == c
  {
    if c.active then c.(active := false) else c
  }

  /** Mute is idempotent, and a silent chord is left as it is. */
  lemma ChordMuteIdempotent(c: ChordState)
    ensures ChordMuted(ChordMuted(c)) == ChordMuted(c)
    ensures !c.active ==> ChordMuted(c) == c
  {
  }

  /** Unmute: a silent chord retunes its strings and becomes active and
      triggered; an active chord is left alone. */
  function ChordUnmuted(c: ChordState, num: Numerics, d: ChordDraws): (r: ChordState)
    requires ChordInv(c) && ChordDrawsOk(d)
    ensures ChordInv(r) && r.active
    ensures r.nActive == c.nActive && r.activeList == c.activeList && r.id == c.id
    ensures r.lightMin == c.lightMin && r.lightMax == c.lightMax
    ensures c.active ==> r == c
    ensures !c.active ==> r == ChordRetuned(c, num, d).(active := true, triggered := true)
  {
    if c.active then c else ChordRetuned(c, num, d).(active := true, triggered := true)
  }

  // ------------------------------------------------------------ levels

  /** UpdateLevels of the chord: only a slow average inside the chord's band
      [min, max) reaches the strings, and it is the slow average, not the raw
      light, that the strings receive as their light input. */
  function ChordLevelsRaised(c: ChordState, avg: int, delta: int): (r: ChordState)
    requires ChordInv(c)
    ensures ChordInv(r) && r.(strings := c.strings) == c
  {
    if c.lightMin <= avg < c.lightMax then
      var ss := c.strings;
      c.(strings := [LevelsRaised(ss[0], avg, delta), LevelsRaised(ss[1], avg, delta), LevelsRaised(ss[2], avg, delta)])
    else c
  }

  /** Outside the band nothing changes; inside it, partial k of string i
      gains delta exactly when the slow average lies in that partial's
      sub-band and delta is at least 80. */
  lemma ChordLevelsEffect(c: ChordState, avg: int, delta: int)
    requires ChordInv(c)
    ensures !(c.lightMin <= avg < c.lightMax) ==> ChordLevelsRaised(c, avg, delta) == c
    ensures var r := ChordLevelsRaised(c, avg, delta);
      forall i, k :: 0 <= i < NumStrings && 0 <= k < NumPartials ==>
        (c.lightMin <= avg < c.lightMax && delta >= LightTriggerThreshold &&
          c.strings[i].lightMin[k] <= avg < c.strings[i].lightMax[k]
        <==> r.strings[i].pulseL[k] == c.strings[i].pulseL[k] + delta && delta != 0)
  {
    var r := ChordLevelsRaised(c, avg, delta);
    forall i | 0 <= i < NumStrings
      ensures forall k :: 0 <= k < NumPartials ==>
        (c.lightMin <= avg < c.lightMax && delta >= LightTriggerThreshold &&
          c.strings[i].lightMin[k] <= avg < c.strings[i].lightMax[k]
        <==> r.strings[i].pulseL[k] == c.strings[i].pulseL[k] + delta && delta != 0)
    {
      LevelsRaisedEffect(c.strings[i], avg, delta);
    }
  }

  // ------------------------------------------------------------ update

  /** What one string's update takes from outside: the smoothers' outputs
      and the random draws of its retune and its pulses. */
  datatype StringInputs = StringInputs(smoothOut: seq<int>, retune: RetuneDraws, pulses: seq<PulseDraw>)

  predicate InputsOk(ins: seq<StringInputs>)
  {
    |ins| == NumStrings &&
    forall i :: 0 <= i < NumStrings ==> UpdateInputsOk(ins[i].smoothOut, ins[i].retune, ins[i].pulses)
  }

  /** The list so far holds only strings below k. */
  predicate ListBelow(c: ChordState, k: int)
    requires 0 <= c.nActive <= |c.activeList|
  {
    forall j :: 0 <= j < c.nActive ==> c.activeList[j] < k
  }

  /** String k's turn can come: the list so far holds only strings before it. */
  predicate TurnReady(c: ChordState, k: int)
  {
    ChordInv(c) && 0 <= k < NumStrings && c.nActive <= k && ListBelow(c, k)
  }

  /** The frequency-to-gain table, the three strings' inputs and the
      retune draws of one update are well formed. */
  predicate UpdateArgsOk(table: seq<real>, ins: seq<StringInputs>, d: ChordDraws)
  {
    TableOk(table) && InputsOk(ins) && ChordDrawsOk(d)
  }

  /** A string's own update within the chord's loop. */
  function TurnOf(s: StringState, num: Numerics, table: seq<real>, now: ULong, input: StringInputs): (r: StringState)
    requires Playable(s) && TableOk(table) && UpdateInputsOk(input.smoothOut, input.retune, input.pulses)
    ensures Playable(r)
  {
    StringUpdated(s, num, table, now, input.smoothOut, input.retune, input.pulses)
  }

  /** String k, updated to s and now active, appended to the list. */
  function Listing(c: ChordState, k: int, s: StringState): (r: ChordState)
    requires TurnReady(c, k) && Playable(s)
    ensures ChordInv(r) && ListBelow(r, k + 1) && r.nActive == c.nActive + 1
  {
    ListAppend(c.activeList, c.nActive, k);
    c.(strings := c.strings[k := s], activeList := c.activeList[c.nActive := k], nActive := c.nActive + 1)
  }

  /** String k's turn in the update loop: it is updated; if it is now active
      it is appended to the list and the chord is unmuted. */
  function UpdateStep(c: ChordState, k: int, num: Numerics, table: seq<real>, now: ULong,
                      ins: seq<StringInputs>, d: ChordDraws): (r: ChordState)
    requires TurnReady(c, k)
    requires UpdateArgsOk(table, ins, d)
    ensures ChordInv(r) && ListBelow(r, k + 1)
    ensures r.nActive == if r.strings[k].active then c.nActive + 1 else c.nActive
  {
    var s := TurnOf(c.strings[k], num, table, now, ins[k]);
    if s.active then ChordUnmuted(Listing(c, k, s), num, d)
    else c.(strings := c.strings[k := s])
  }

  /** Appending a string index above every listed one keeps the list ordered. */
  lemma ListAppend(list: seq<int>, n: int, k: int)
    requires ListOk(list, n) && n <= k < NumStrings && forall j :: 0 <= j < n ==> list[j] < k
    ensures ListOk(list[n := k], n + 1)
  {
  }

  /** The update loop after its first n turns. */
  function UpdatedUpTo(c: ChordState, n: int, num: Numerics, table: seq<real>, now: ULong,
                       ins: seq<StringInputs>, d: ChordDraws): (r: ChordState)
    requires ChordInv(c) && c.nActive == 0 && 0 <= n <= NumStrings
    requires UpdateArgsOk(table, ins, d)
    ensures ChordInv(r) && r.nActive <= n && ListBelow(r, n)
  {
    if n == 0 then c
    else UpdateStep(UpdatedUpTo(c, n - 1, num, table, now, ins, d), n - 1, num, table, now, ins, d)
  }

  /** LarvaChord::Update: clear the trigger, raise levels in band, update
      all three strings rebuilding the active list, and mute when none is
      active. The raw light input is not used. */
  function ChordUpdated(c: ChordState, num: Numerics, table: seq<real>, avg: int, delta: int,
                        now: ULong, ins: seq<StringInputs>, d: ChordDraws): (r: ChordState)
    requires ChordInv(c) && UpdateArgsOk(table, ins, d)
    ensures ChordInv(r)
  {
    var c1 := ChordLevelsRaised(c.(triggered := false), avg, delta);
    var c2 := UpdatedUpTo(c1.(nActive := 0), |c1.strings|, num, table, now, ins, d);
    if c2.nActive == 0 then ChordMuted(c2) else c2
  }

  // ----------------------------------------------------------- process

  /** Three strings, each in a playable state. */
  predicate Playables(ss: seq<StringState>)
  {
    |ss| == NumStrings && forall i :: 0 <= i < NumStrings ==> Playable(ss[i])
  }

  /** The audio loop over the first n listed strings: each is processed, in
      list order, and its output added. */
  function ProcessUpTo(ss: seq<StringState>, list: seq<int>, osc: seq<seq<int>>, n: int): (r: (seq<StringState>, real))
    requires Playables(ss) && ListOk(list, n) && OscsOk(osc)
    ensures Playables(r.0)
  {
    if n == 0 then (ss, 0.0)
    else
      var p := ProcessUpTo(ss, list, osc, n - 1);
      var i := list[n - 1];
      var q := StringProcessed(p.0[i], osc[i]);
      (p.0[i := q.0], p.1 + q.1)
  }

  /** One more listed string: the loop over k + 1 entries is the loop over k
      followed by the string list[k]. */
  lemma ProcessUpToStep(ss: seq<StringState>, list: seq<int>, osc: seq<seq<int>>, k: int, n: int)
    requires Playables(ss) && ListOk(list, n) && OscsOk(osc) && 0 <= k < n
    ensures ListOk(list, k) && ListOk(list, k + 1) && 0 <= list[k] < NumStrings
    ensures var p := ProcessUpTo(ss, list, osc, k); var q := StringProcessed(p.0[list[k]], osc[list[k]]);
      ProcessUpTo(ss, list, osc, k + 1) == (p.0[list[k] := q.0], p.1 + q.1)
  {
  }

  /** The oscillator samples of the 12 partials of each string. */
  predicate OscsOk(osc: seq<seq<int>>)
  {
    |osc| == NumStrings && forall i :: 0 <= i < NumStrings ==> OscOk(osc[i])
  }

  /** The mix of the three strings is scaled by 0.33. */
  const ChordMixScale: real := 0.33

  /** LarvaChord::Process: the sum over the listed strings, scaled. */
  function ChordProcessed(c: ChordState, osc: seq<seq<int>>): (r: (ChordState, real))
    requires ChordInv(c) && OscsOk(osc)
    ensures ChordInv(r.0)
  {
    var p := ProcessUpTo(c.strings, c.activeList, osc, c.nActive);
    (c.(strings := p.0), p.1 * ChordMixScale)
  }

  // ----------------------------------------------------------- setters

  /** SetPulseMasterGain: the listed strings take the new gain. */
  function ChordPulseGainSet(c: ChordState, v: real): (r: ChordState)
    requires ChordInv(c)
    ensures ChordInv(r) && r.(strings := c.strings) == c
  {
    c.(strings := seq(NumStrings, i requires 0 <= i < NumStrings =>
      if Listed(c, i) then c.strings[i].(pulseMasterGain := v) else c.strings[i]))
  }

  /** SetPulseResonanceAvg: the listed strings take the new average. */
  function ChordResonanceSet(c: ChordState, v: real): (r: ChordState)
    requires ChordInv(c)
    ensures ChordInv(r) && r.(strings := c.strings) == c
  {
    c.(strings := seq(NumStrings, i requires 0 <= i < NumStrings =>
      if Listed(c, i) then c.strings[i].(pulseResonanceAvg := v) else c.strings[i]))
  }

  /** SetLightRange: the chord stores the band and hands the same band to
      all three strings. */
  function ChordLightRangeSet(c: ChordState, lo: int, hi: int): (r: ChordState)
    requires ChordInv(c)
    ensures ChordInv(r) && r.(lightMin := c.lightMin, lightMax := c.lightMax, strings := c.strings) == c
  {
    c.(lightMin := lo, lightMax := hi,
      strings := [LightRangeSet(c.strings[0], lo, hi), LightRangeSet(c.strings[1], lo, hi),
                  LightRangeSet(c.strings[2], lo, hi)])
  }

  // -------------------------------------------------------------- init

  /** The ID of string i of chord id. */
  function StringId(id: int, i: int): int
  {
    (id + 1) * 100 + (i + 1)
  }

  /** String i's share of Init: its ID, the thresholds, drone range and
      decrease step of slot i, and the LFO rate of slot i. */
  function Configured(s: StringState, id: int, i: int): (r: StringState)
    requires StringInv(s) && 0 <= i < NumStrings
    ensures Playable(r)
  {
    DroneConstantsOrdered();
    s.(id := StringId(id, i), thresL := PulseLThreshold[i], thresM := PulseMThreshold[i],
      thresS := PulseSThreshold[i], droneRange := DroneRange[i],
      decreaseStepMaster := DroneDecreaseStep[i], lfo := LfoRated(s.lfo, LfoRates[i]))
  }

  /** LarvaChord::Init: store the chord ID, configure the strings, retune. */
  function ChordInitialised(c: ChordState, num: Numerics, id: int, d: ChordDraws): (r: ChordState)
    requires ChordInv(c) && 0 <= id < NumChords && ChordDrawsOk(d)
    ensures ChordInv(r)
  {
    var ss := c.strings;
    var c1 := c.(id := id, strings := [Configured(ss[0], id, 0), Configured(ss[1], id, 1), Configured(ss[2], id, 2)]);
    ChordRetuned(c1, num, d)
  }
}
