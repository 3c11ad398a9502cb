/** What LarvaChord's operations promise, proved about the specification
    functions of LarvaChords: the active list rebuilt by Update, the trigger
    edge, the strings reached by the setters and by Process, and the slot
    configuration of Init. */
module LarvaChordFacts {
  import opened Platform
  import opened LarvaDefs
  import opened PlokVoices
  import opened LarvaStrings
  import opened LarvaChords

  /** The strings listed in list are exactly the active ones below n. */
  predicate ListsActive(list: seq<int>, ss: seq<StringState>, n: int)
    requires |ss| == NumStrings
  {
    forall i :: 0 <= i < NumStrings ==> (i in list <==> i < n && ss[i].active)
  }

  /** One more string seen: the list grows by k exactly when string k is
      active, and the other strings keep their activity. */
  lemma ListStep(ps: seq<StringState>, rs: seq<StringState>, pl: seq<int>, rl: seq<int>, k: int, on: bool)
    requires |ps| == NumStrings && |rs| == NumStrings && 0 <= k < NumStrings
    requires ListsActive(pl, ps, k) && rl == pl + (if on then [k] else [])
    requires rs[k].active == on && forall j :: 0 <= j < NumStrings && j != k ==> rs[j].active == ps[j].active
    ensures ListsActive(rl, rs, k + 1)
  {
  }

  /** Writing k into slot n of a list and taking n + 1 entries appends k to
      the first n. */
  lemma PrefixAppend(list: seq<int>, n: int, k: int)
    requires 0 <= n < |list|
    ensures list[n := k][..n + 1] == list[..n] + [k]
  {
  }

  /** One turn of the update loop, as far as activity goes: the turn's
      string takes the activity of its own update and the other strings
      keep theirs, since a retune does not change it. */
  lemma UpdateStepActivity(c: ChordState, k: int, num: Numerics, table: seq<real>, now: ULong,
                           ins: seq<StringInputs>, d: ChordDraws)
    requires TurnReady(c, k)
    requires UpdateArgsOk(table, ins, d)
    ensures var r := UpdateStep(c, k, num, table, now, ins, d);
      r.strings[k].active == TurnOf(c.strings[k], num, table, now, ins[k]).active &&
      forall j :: 0 <= j < NumStrings && j != k ==> r.strings[j].active == c.strings[j].active
  {
    var s := TurnOf(c.strings[k], num, table, now, ins[k]);
    if s.active && !c.active {
      RetuneVoicing(Listing(c, k, s), num, d);
    }
  }

  /** One turn of the update loop, as far as the list goes: the string is
      appended exactly when it is now active. */
  lemma UpdateStepList(c: ChordState, k: int, num: Numerics, table: seq<real>, now: ULong,
                       ins: seq<StringInputs>, d: ChordDraws)
    requires TurnReady(c, k)
    requires UpdateArgsOk(table, ins, d)
    ensures var r := UpdateStep(c, k, num, table, now, ins, d);
      r.activeList[..r.nActive] ==
        c.activeList[..c.nActive] + (if TurnOf(c.strings[k], num, table, now, ins[k]).active then [k] else [])
  {
    var s := TurnOf(c.strings[k], num, table, now, ins[k]);
    if s.active {
      PrefixAppend(c.activeList, c.nActive, k);
    }
  }

  /** The chord's own fields after some turns from a cleared trigger: it is
      active when it was at the start or when the list is non-empty,
      triggered exactly when it was silent and the list is non-empty, and
      its ID and band are those of c0. */
  predicate FlagsFrom(r: ChordState, c0: ChordState)
  {
    r.active == (c0.active || r.nActive > 0) &&
    r.triggered == (!c0.active && r.nActive > 0) &&
    r.id == c0.id && r.lightMin == c0.lightMin && r.lightMax == c0.lightMax
  }

  /** After the first n turns from c0: the list holds exactly the active
      strings below n, and the chord's own fields are in step with it. */
  predicate Rebuilt(r: ChordState, c0: ChordState, n: int)
    requires ChordInv(r)
  {
    ListsActive(r.activeList[..r.nActive], r.strings, n) && FlagsFrom(r, c0)
  }

  /** One turn keeps the list exact and the flags in step: if the list held
      exactly the active strings below k, afterwards it holds exactly those
      below k + 1. */
  lemma UpdateStepKeepsRebuilt(c: ChordState, c0: ChordState, k: int, num: Numerics, table: seq<real>,
                               now: ULong, ins: seq<StringInputs>, d: ChordDraws)
    requires TurnReady(c, k) && UpdateArgsOk(table, ins, d)
    ensures Rebuilt(c, c0, k) ==> Rebuilt(UpdateStep(c, k, num, table, now, ins, d), c0, k + 1)
  {
    if Rebuilt(c, c0, k) {
      var r := UpdateStep(c, k, num, table, now, ins, d);
      var on := TurnOf(c.strings[k], num, table, now, ins[k]).active;
      UpdateStepActivity(c, k, num, table, now, ins, d);
      UpdateStepList(c, k, num, table, now, ins, d);
      ListStep(c.strings, r.strings, c.activeList[..c.nActive], r.activeList[..r.nActive], k, on);
    }
  }

  /** The first n turns of the update loop, started from an empty list and
      a cleared trigger. */
  lemma {:induction false} UpdatedUpToRebuilt(c: ChordState, n: int, num: Numerics, table: seq<real>,
                                              now: ULong, ins: seq<StringInputs>, d: ChordDraws)
    requires ChordInv(c) && c.nActive == 0 && !c.triggered && 0 <= n <= NumStrings
    requires UpdateArgsOk(table, ins, d)
    ensures Rebuilt(UpdatedUpTo(c, n, num, table, now, ins, d), c, n)
  {
    if n > 0 {
      UpdatedUpToRebuilt(c, n - 1, num, table, now, ins, d);
      UpdateStepKeepsRebuilt(UpdatedUpTo(c, n - 1, num, table, now, ins, d), c, n - 1, num, table, now, ins, d);
    }
  }

  /** LarvaChord::Update rebuilds the active list: afterwards a string is
      listed exactly when it is active, the list is in increasing index
      order, the chord is active exactly when the list is not
      empty, and it is triggered exactly when it went from silent to active
      in this call. Its ID and band are unchanged. */
  lemma ChordUpdateList(c: ChordState, num: Numerics, table: seq<real>, avg: int, delta: int,
                        now: ULong, ins: seq<StringInputs>, d: ChordDraws)
    requires ChordInv(c) && UpdateArgsOk(table, ins, d)
    ensures var r := ChordUpdated(c, num, table, avg, delta, now, ins, d);
      ListOk(r.activeList, r.nActive) &&
      (forall i :: 0 <= i < NumStrings ==> (Listed(r, i) <==> r.strings[i].active)) &&
      (r.active <==> r.nActive > 0) &&
      (r.triggered <==> !c.active && r.active) &&
      r.id == c.id && r.lightMin == c.lightMin && r.lightMax == c.lightMax
  {
    var c1 := ChordLevelsRaised(c.(triggered := false), avg, delta);
    var c0 := c1.(nActive := 0);
    UpdatedUpToRebuilt(c0, NumStrings, num, table, now, ins, d);
  }

  /** A turn of a sounding chord retunes nothing: only the turn's string
      changes, to its own update, and the chord stays sounding. */
  lemma UpdateStepSounding(c: ChordState, k: int, num: Numerics, table: seq<real>, now: ULong,
                           ins: seq<StringInputs>, d: ChordDraws)
    requires TurnReady(c, k) && c.active && UpdateArgsOk(table, ins, d)
    ensures var r := UpdateStep(c, k, num, table, now, ins, d);
      r.active && r.strings == c.strings[k := TurnOf(c.strings[k], num, table, now, ins[k])]
  {
  }

  /** After n turns of a sounding chord, each string below n is its own
      update of the starting strings orig and the rest are as they were. */
  predicate TurnedUpTo(c: ChordState, orig: seq<StringState>, n: int, num: Numerics, table: seq<real>,
                       now: ULong, ins: seq<StringInputs>)
    requires |orig| == NumStrings && (forall j :: 0 <= j < NumStrings ==> Playable(orig[j]))
    requires TableOk(table) && InputsOk(ins)
  {
    c.active && |c.strings| == NumStrings &&
    forall j :: 0 <= j < NumStrings ==>
      c.strings[j] == if j < n then TurnOf(orig[j], num, table, now, ins[j]) else orig[j]
  }

  /** One turn of a sounding chord takes string k to its own update. */
  lemma UpdateStepKeepsTurned(c: ChordState, orig: seq<StringState>, k: int, num: Numerics, table: seq<real>,
                              now: ULong, ins: seq<StringInputs>, d: ChordDraws)
    requires TurnReady(c, k) && UpdateArgsOk(table, ins, d)
    requires |orig| == NumStrings && (forall j :: 0 <= j < NumStrings ==> Playable(orig[j]))
    ensures TurnedUpTo(c, orig, k, num, table, now, ins) ==>
      TurnedUpTo(UpdateStep(c, k, num, table, now, ins, d), orig, k + 1, num, table, now, ins)
  {
    if TurnedUpTo(c, orig, k, num, table, now, ins) {
      UpdateStepSounding(c, k, num, table, now, ins, d);
    }
  }

  /** The first n turns when the chord is already sounding: no retune takes
      place, so each string below n is its own update and the rest are
      untouched. */
  lemma {:induction false} UpdatedUpToSounding(c: ChordState, n: int, num: Numerics, table: seq<real>,
                                               now: ULong, ins: seq<StringInputs>, d: ChordDraws)
    requires ChordInv(c) && c.nActive == 0 && c.active && 0 <= n <= NumStrings
    requires UpdateArgsOk(table, ins, d)
    ensures TurnedUpTo(UpdatedUpTo(c, n, num, table, now, ins, d), c.strings, n, num, table, now, ins)
  {

    if n > 0 {
      UpdatedUpToSounding(c, n - 1, num, table, now, ins, d);
      UpdateStepKeepsTurned(UpdatedUpTo(c, n - 1, num, table, now, ins, d), c.strings, n - 1, num, table, now, ins, d);
    }
  }

  /** Update runs on all three strings whatever the band: on a sounding
      chord each string ends as its own update of the level-raised state
      (which, by ChordLevelsEffect, is the old state outside the band). */
  lemma ChordUpdateAllStrings(c: ChordState, num: Numerics, table: seq<real>, avg: int, delta: int,
                              now: ULong, ins: seq<StringInputs>, d: ChordDraws)
    requires ChordInv(c) && c.active && UpdateArgsOk(table, ins, d)
    ensures var r := ChordUpdated(c, num, table, avg, delta, now, ins, d);
      var raised := ChordLevelsRaised(c.(triggered := false), avg, delta);
      forall i :: 0 <= i < NumStrings ==>
        r.strings[i] == TurnOf(raised.strings[i], num, table, now, ins[i])
  {
    var c1 := ChordLevelsRaised(c.(triggered := false), avg, delta);
    UpdatedUpToSounding(c1.(nActive := 0), NumStrings, num, table, now, ins, d);
  }

  /** After Update, the engine's two setters reach exactly the active
      strings: those take the new pulse gain and resonance average, the
      silent ones keep theirs. */
  lemma UpdateThenSetters(c: ChordState, num: Numerics, table: seq<real>, avg: int, delta: int,
                          now: ULong, ins: seq<StringInputs>, d: ChordDraws, gain: real, res: real)
    requires ChordInv(c) && UpdateArgsOk(table, ins, d)
    ensures var r := ChordUpdated(c, num, table, avg, delta, now, ins, d);
      var r2 := ChordResonanceSet(ChordPulseGainSet(r, gain), res);
      r2.(strings := r.strings) == r &&
      forall i :: 0 <= i < NumStrings ==>
        r2.strings[i] == if r.strings[i].active then r.strings[i].(pulseMasterGain := gain, pulseResonanceAvg := res)
                         else r.strings[i]
  {
    ChordUpdateList(c, num, table, avg, delta, now, ins, d);
  }

  // ----------------------------------------------------------- process

  /** The first n entries of an ordered list are the first n - 1 followed by
      the last one, which is not among the earlier ones. */
  lemma ListLast(list: seq<int>, n: int)
    requires ListOk(list, n) && 0 < n
    ensures list[..n] == list[..n - 1] + [list[n - 1]] && list[n - 1] !in list[..n - 1]
    ensures forall i :: i in list[..n] <==> i in list[..n - 1] || i == list[n - 1]
  {
    assert list[..n] == list[..n - 1] + [list[n - 1]];
  }

  /** The reference mix: each of the first n listed strings processed from
      its own state, summed. */
  function ListedMix(ss: seq<StringState>, list: seq<int>, osc: seq<seq<int>>, n: int): real
    requires Playables(ss) && ListOk(list, n) && OscsOk(osc)
  {
    if n == 0 then 0.0
    else
      var i := list[n - 1];
      ListedMix(ss, list, osc, n - 1) + StringProcessed(ss[i], osc[i]).1
  }

  /** The audio loop over n listed strings processes each of them once, from
      its own state, and leaves the others alone. */
  lemma {:induction false} ProcessUpToStrings(ss: seq<StringState>, list: seq<int>, osc: seq<seq<int>>, n: int)
    requires Playables(ss) && ListOk(list, n) && OscsOk(osc)
    ensures var r := ProcessUpTo(ss, list, osc, n);
      forall i :: 0 <= i < NumStrings ==>
        r.0[i] == if i in list[..n] then StringProcessed(ss[i], osc[i]).0 else ss[i]
  {
    if n > 0 {
      ProcessUpToStrings(ss, list, osc, n - 1);
      ListLast(list, n);
    }
  }

  /** The audio loop's sum over n listed strings is the reference mix. */
  lemma {:induction false} ProcessUpToMix(ss: seq<StringState>, list: seq<int>, osc: seq<seq<int>>, n: int)
    requires Playables(ss) && ListOk(list, n) && OscsOk(osc)
    ensures ProcessUpTo(ss, list, osc, n).1 == ListedMix(ss, list, osc, n)
  {
    if n > 0 {
      ProcessUpToMix(ss, list, osc, n - 1);
      ProcessUpToStrings(ss, list, osc, n - 1);
      ListLast(list, n);
    }
  }

  /** LarvaChord::Process reads only the listed strings: the unlisted ones
      are untouched, and the output is 0.33 times the listed strings' sum. */
  lemma ChordProcessListed(c: ChordState, osc: seq<seq<int>>)
    requires ChordInv(c) && OscsOk(osc)
    ensures var r := ChordProcessed(c, osc);
      r.1 == ListedMix(c.strings, c.activeList, osc, c.nActive) * ChordMixScale &&
      r.0.(strings := c.strings) == c &&
      forall i :: 0 <= i < NumStrings ==>
        r.0.strings[i] == if Listed(c, i) then StringProcessed(c.strings[i], osc[i]).0 else c.strings[i]
  {
    ProcessUpToStrings(c.strings, c.activeList, osc, c.nActive);
    ProcessUpToMix(c.strings, c.activeList, osc, c.nActive);
  }

  // ------------------------------------------------------ init / bands

  /** Init gives string i of chord id the ID (id+1)*100+(i+1), the pulse
      thresholds, drone range and decrease step of slot i, an LFO with the
      rate of slot i (half periods 30, 66 and 50) and the fundamental of the
      drawn voicing. */
  lemma ChordInitSlots(c: ChordState, num: Numerics, id: int, d: ChordDraws)
    requires ChordInv(c) && 0 <= id < NumChords && ChordDrawsOk(d)
    ensures var r := ChordInitialised(c, num, id, d);
      r.id == id && r.active == c.active && r.nActive == c.nActive &&
      (forall i :: 0 <= i < NumStrings ==>
        r.strings[i].id == (id + 1) * 100 + (i + 1) &&
        r.strings[i].thresL == PulseLThreshold[i] && r.strings[i].thresM == PulseMThreshold[i] &&
        r.strings[i].thresS == PulseSThreshold[i] && r.strings[i].droneRange == DroneRange[i] &&
        r.strings[i].decreaseStepMaster == DroneDecreaseStep[i] &&
        r.strings[i].lfo.rate == LfoRates[i] && r.strings[i].lfo.timer == 0 &&
        r.strings[i].fundFreq == VoicedFund(id, d.voicing, i)) &&
      r.strings[0].lfo.hperiod == 30 && r.strings[1].lfo.hperiod == 66 && r.strings[2].lfo.hperiod == 50
  {
    var r := ChordInitialised(c, num, id, d);
    StringLfoHalfPeriods(c.strings[0].lfo);
    StringLfoHalfPeriods(c.strings[1].lfo);
    StringLfoHalfPeriods(c.strings[2].lfo);
  }

  /** SetLightRange stores the band and gives all three strings the same
      sub-bands, each of them inside [lo, hi] when lo <= hi. */
  lemma ChordLightBands(c: ChordState, lo: int, hi: int)
    requires ChordInv(c)
    ensures var r := ChordLightRangeSet(c, lo, hi);
      r.lightMin == lo && r.lightMax == hi &&
      (forall i :: 0 <= i < NumStrings ==>
        r.strings[i].lightMin == r.strings[0].lightMin && r.strings[i].lightMax == r.strings[0].lightMax) &&
      (lo <= hi ==> forall k :: 0 <= k < NumPartials ==>
        lo <= r.strings[0].lightMin[k] <= r.strings[0].lightMax[k] <= hi)
  {
    var r := ChordLightRangeSet(c, lo, hi);
    LightBandsContiguous(c.strings[0], lo, hi);
    if lo <= hi {
      var w := DivT(hi - lo, NumPartials);
      forall k | 0 <= k < NumPartials
        ensures lo <= r.strings[0].lightMin[k] <= r.strings[0].lightMax[k] <= hi
      {
        MulLeftMono(k, k + 1, w);
        MulLeftMono(k + 1, NumPartials, w);
      }
    }
  }
}
