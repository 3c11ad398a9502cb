/** The chord as an object: LarvaChord with its fields updated in place,
    proved against the chord functions of LarvaChords. */
module LarvaChordClass {
  import opened Platform
  import opened LarvaDefs
  import opened LarvaStrings
  import opened LarvaChords

  /** LarvaChord: its flags, band, ID and active-string list are fields the
      methods update in place; the three strings are a sequence of string
      states that the methods rewrite one at a time. */
  class LarvaChord {
    var active: bool
    var triggered: bool
    var lightMin: int
    var lightMax: int
    var id: int
    var nActive: int
    var activeList: seq<int>
    var strings: seq<StringState>

    function Model(): ChordState
      reads this
    {
      ChordState(active, triggered, lightMin, lightMax, id, nActive, activeList, strings)
    }

    ghost predicate Valid()
      reads this
    {
      ChordInv(Model())
    }

    constructor (num: Numerics)
      ensures Valid() && Model() == InitialChord(num)
    {
      var s := InitialString(num);
      active, triggered, lightMin, lightMax, id := false, false, 0, 0, 0;
      nActive, activeList, strings := 0, [0, 0, 0], [s, s, s];
    }

    predicate Active()
      reads this
    {
      active
    }

    predicate Triggered()
      reads this
    {
      triggered
    }

    function ID(): int
      reads this
    {
      id
    }

    /** Init: the chord takes its ID, configures its strings from the slot
        tables, then retunes. */
    method Init(num: Numerics, chordId: int, d: ChordDraws)
      requires Valid() && 0 <= chordId < NumChords && ChordDrawsOk(d)
      modifies this
      ensures Model() == ChordInitialised(old(Model()), num, chordId, d) && Valid()
    {
      var ss := strings;
      var i := 0;
      while i < NumStrings
        invariant 0 <= i <= NumStrings && |ss| == NumStrings
        invariant forall j :: 0 <= j < NumStrings ==>
          ss[j] == if j < i then Configured(strings[j], chordId, j) else strings[j]
      {
        var s := ss[i];
        s := s.(id := StringId(chordId, i));
        s := s.(thresL := PulseLThreshold[i]);
        s := s.(thresM := PulseMThreshold[i]);
        s := s.(thresS := PulseSThreshold[i]);
        s := s.(droneRange := DroneRange[i]);
        s := s.(decreaseStepMaster := DroneDecreaseStep[i]);
        s := s.(lfo := LfoRated(s.lfo, LfoRates[i]));
        ss := ss[i := s];
        i := i + 1;
      }
      id, strings := chordId, ss;
      Retune(num, d);
    }

    method Mute()
      requires Valid()
      modifies this
      ensures Model() == ChordMuted(old(Model())) && Valid()
    {
      if active {
        active := false;
      }
    }

    method Unmute(num: Numerics, d: ChordDraws)
      requires Valid() && ChordDrawsOk(d)
      modifies this
      ensures Model() == ChordUnmuted(old(Model()), num, d) && Valid()
    {
      if !active {
        Retune(num, d);
        active := true;
        triggered := true;
      }
    }

    /** Retune: one random voicing, each string retuned to its candidate. */
    method Retune(num: Numerics, d: ChordDraws)
      requires Valid() && ChordDrawsOk(d)
      modifies this
      ensures Model() == ChordRetuned(old(Model()), num, d) && Valid()
    {
      var voicing := d.voicing;
      var ss := strings;
      var i := 0;
      while i < NumStrings
        invariant 0 <= i <= NumStrings && |ss| == NumStrings
        invariant forall j :: 0 <= j < NumStrings ==>
          ss[j] == if j < i then Retuned(strings[j], num, VoicedFund(id, voicing, j), d.tunings[j])
                   else strings[j]
      {
        var fund := VoicedFund(id, voicing, i);
        ss := ss[i := Retuned(ss[i], num, fund, d.tunings[i])];
        i := i + 1;
      }
      strings := ss;
    }

    method SetLightRange(lo: int, hi: int)
      requires Valid()
      modifies this
      ensures Model() == ChordLightRangeSet(old(Model()), lo, hi) && Valid()
    {
      var ss := strings;
      var i := 0;
      while i < NumStrings
        invariant 0 <= i <= NumStrings && |ss| == NumStrings
        invariant forall j :: 0 <= j < NumStrings ==>
          ss[j] == if j < i then LightRangeSet(strings[j], lo, hi) else strings[j]
      {
        ss := ss[i := LightRangeSet(ss[i], lo, hi)];
        i := i + 1;
      }
      lightMin, lightMax, strings := lo, hi, ss;
    }

    method SetPulseMasterGain(value: real)
      requires Valid()
      modifies this
      ensures Model() == ChordPulseGainSet(old(Model()), value) && Valid()
    {
      var ss := strings;
      var k := 0;
      while k < nActive
        invariant 0 <= k <= nActive && |ss| == NumStrings
        invariant forall j :: 0 <= j < NumStrings ==>
          ss[j] == if j in activeList[..k] then strings[j].(pulseMasterGain := value) else strings[j]
      {
        var i := activeList[k];
        ss := ss[i := ss[i].(pulseMasterGain := value)];
        k := k + 1;
      }
      strings := ss;
    }

    method SetPulseResonanceAvg(value: real)
      requires Valid()
      modifies this
      ensures Model() == ChordResonanceSet(old(Model()), value) && Valid()
    {
      var ss := strings;
      var k := 0;
      while k < nActive
        invariant 0 <= k <= nActive && |ss| == NumStrings
        invariant forall j :: 0 <= j < NumStrings ==>
          ss[j] == if j in activeList[..k] then strings[j].(pulseResonanceAvg := value) else strings[j]
      {
        var i := activeList[k];
        ss := ss[i := ss[i].(pulseResonanceAvg := value)];
        k := k + 1;
      }
      strings := ss;
    }

    /** UpdateLevels: the level update reaches the strings only while the
        slow average lies in the chord's band. */
    method UpdateLevels(avg: int, delta: int)
      requires Valid()
      modifies this
      ensures Model() == ChordLevelsRaised(old(Model()), avg, delta) && Valid()
    {
      if lightMin <= avg < lightMax {
        var ss := strings;
        var i := 0;
        while i < NumStrings
          invariant 0 <= i <= NumStrings && |ss| == NumStrings
          invariant forall j :: 0 <= j < NumStrings ==>
            ss[j] == if j < i then LevelsRaised(strings[j], avg, delta) else strings[j]
        {
          ss := ss[i := LevelsRaised(ss[i], avg, delta)];
          i := i + 1;
        }
        strings := ss;
      }
    }

    /** String k's turn in Update: it is updated and, if active, listed, and
        the chord unmuted. */
    method Turn(k: int, num: Numerics, table: seq<real>, now: ULong, ins: seq<StringInputs>, d: ChordDraws)
      requires Valid() && TurnReady(Model(), k)
      requires UpdateArgsOk(table, ins, d)
      modifies this
      ensures Model() == UpdateStep(old(Model()), k, num, table, now, ins, d) && Valid()
    {
      ghost var c0 := Model();
      var s := TurnOf(strings[k], num, table, now, ins[k]);
      if s.active {
        ghost var c1 := Listing(c0, k, s);
        strings, activeList, nActive := strings[k := s], activeList[nActive := k], nActive + 1;
        assert Model() == c1;
        Unmute(num, d);
      } else {
        strings := strings[k := s];
      }
    }

    /** The string loop of Update: every string takes its turn, in order. */
    method UpdateStrings(num: Numerics, table: seq<real>, now: ULong, ins: seq<StringInputs>, d: ChordDraws)
      requires Valid() && nActive == 0 && UpdateArgsOk(table, ins, d)
      modifies this
      ensures Model() == UpdatedUpTo(old(Model()), NumStrings, num, table, now, ins, d) && Valid()
    {
      var i := 0;
      while i < NumStrings
        invariant 0 <= i <= NumStrings
        invariant Model() == UpdatedUpTo(old(Model()), i, num, table, now, ins, d) && Valid()
      {
        Turn(i, num, table, now, ins, d);
        i := i + 1;
      }
    }

    /** Update: the slow average gates the level update; every string is
        updated and the active list rebuilt; the raw light is not used. */
    method Update(num: Numerics, table: seq<real>, avg: int, input: int, delta: int,
                  now: ULong, ins: seq<StringInputs>, d: ChordDraws)
      requires Valid() && UpdateArgsOk(table, ins, d)
      modifies this
      ensures Model() == ChordUpdated(old(Model()), num, table, avg, delta, now, ins, d) && Valid()
    {
      triggered := false;
      UpdateLevels(avg, delta);
      nActive := 0;
      UpdateStrings(num, table, now, ins, d);
      if nActive == 0 {
        Mute();
      }
    }

    /** Process: the listed strings' outputs summed and scaled by 0.33. */
    method Process(osc: seq<seq<int>>) returns (v: real)
      requires Valid() && OscsOk(osc)
      modifies this
      ensures Valid() && (Model(), v) == ChordProcessed(old(Model()), osc)
    {
      var ss, mix := ProcessStrings(strings, activeList, osc, nActive);
      strings := ss;
      v := mix * ChordMixScale;
    }
  }

  /** The listed strings' samples, one string after the other, on a local
      copy of the strings. */
  method ProcessStrings(ss0: seq<StringState>, list: seq<int>, osc: seq<seq<int>>, n: int)
    returns (ss: seq<StringState>, mix: real)
    requires Playables(ss0) && ListOk(list, n) && OscsOk(osc)
    ensures (ss, mix) == ProcessUpTo(ss0, list, osc, n)
  {
    ss, mix := ss0, 0.0;
    var k := 0;
    while k < n
      invariant 0 <= k <= n
      invariant ss == ProcessUpTo(ss0, list, osc, k).0
      invariant mix == ProcessUpTo(ss0, list, osc, k).1
    {
      ProcessUpToStep(ss0, list, osc, k, n);
      var i := list[k];
      var q := StringProcessed(ss[i], osc[i]);
      ss, mix := ss[i := q.0], mix + q.1;
      k := k + 1;
    }
  }
}
