/** The constant tables and tuning scalars of the synth: chords and voicings,
    drone and pulse thresholds, delta-scaler bounds, sensor ranges and the
    geometry of the frequency-to-gain table. */
module LarvaDefs {
  import opened Platform

  const NumChords: int := 5
  const NumStrings: int := 3
  const NumPartials: int := 12
  /** Upper bound (exclusive) of the random partial offset drawn by a retune. */
  const MaxTuningOffset: int := 3

  /** Fundamentals along the circle of fifths, folded back into one octave. */
  const Fund1: real := 110.0
  const Fund2: real := Fund1 / 2.0 * 3.0
  const Fund3: real := (Fund2 / 2.0 * 3.0) / 2.0
  const Fund4: real := Fund3 / 2.0 * 3.0
  const Fund5: real := (Fund4 / 2.0 * 3.0) / 2.0

  /** The five candidate string fundamentals of a chord built on `f`:
      ratios 1, 5/4, 3/2, 5/3 and 2. */
  function ChordRow(f: real): seq<real>
  {
    [f, f / 4.0 * 5.0, f / 2.0 * 3.0, f / 3.0 * 5.0, f * 2.0]
  }

  const Chords: seq<seq<real>> :=
    [ChordRow(Fund1), ChordRow(Fund2), ChordRow(Fund3), ChordRow(Fund4), ChordRow(Fund5)]

  /** The largest entry of the chord table (Fund4 * 2). */
  const MaxFundamental: real := 371.25

  const NumChordVoicings: int := 5
  const ChordVoicings: seq<seq<int>> := [[0, 1, 2], [0, 1, 3], [0, 2, 3], [0, 2, 4], [1, 3, 4]]

  // Drones
  const TMul: int := 15
  const DroneMasterGain: real := 2.5
  const FreqCutoff: real := 300.0
  const FreqMax: real := 6000.0
  const GainHF: real := 0.001
  const GainSlope: real := 0.8
  const DetuneFactor: real := 0.01
  const LfoRates: seq<real> := [0.10, 0.045, 0.06]
  const LfoSampleRate: int := 6
  const LfoUpdateInterval: int := ControlRate / LfoSampleRate
  const DroneStartThres: int := 10 * TMul
  const DroneRange: seq<int> := [1100 * TMul, 1100 * TMul, 1100 * TMul]
  const DroneDecreaseStep: seq<int> := [5 * TMul, 6 * TMul, 7 * TMul]
  /** Milliseconds between two drone decay steps. */
  const DroneDecreaseRate: int := 20
  const DecrCutoff: real := 800.0
  const DecrFreqMax: real := 6000.0
  const DecrHF: real := 0.1
  const DecrSlope: real := 0.8
  const GainMax: int := 255
  const GainMin: int := 0

  // Ploks (pulses)
  const PlokImpulseDurMin: int := 10
  const PlokImpulseDurRange: int := 20
  const PlokDurEstimMs: real := 50.0
  const PulseGainL: real := 14.0
  const PulseGainM: real := 6.0
  const PulseGainS: real := 2.0
  const LightExcursionIntervalSecs: int := 60
  const LightExcursionMin: real := 0.0
  const LightExcursionMax: real := 300.0
  const PulseResonanceMin: real := 20.0
  const PulseResonanceMax: real := 50.0
  const PulseResonanceRandRange: real := 5.0
  const PulseLThreshold: seq<int> := [2000 * TMul, 3000 * TMul, 4000 * TMul]
  const PulseMThreshold: seq<int> := [1000 * TMul, 1500 * TMul, 2000 * TMul]
  const PulseSThreshold: seq<int> := [500 * TMul, 800 * TMul, 1000 * TMul]

  // Trigger activity
  const TriggersInterval: int := 1000
  const TriggersRollingSize: int := 30
  const TriggersAvgMin: int := 1
  const TriggersAvgMax: int := ControlRate
  const PulseMasterGainMin: real := 0.2
  const PulseMasterGainMax: real := 1.3

  // Light sensor
  const LuxRawThresMin: int := 1
  const LuxRawThresMax: int := 4094
  const DeltaScalerMin: int := 500
  const DeltaScalerDef: int := 1000
  const DeltaScalerMax: int := 20000
  const LightTriggerThreshold: int := 80
  const LightRange: real := 1050.0
  const GainCalibAvgSize: int := 128
  const LuxRawAvgThresMin: int := 1000
  const LuxRawAvgThresMax: int := 3000
  const SensorGainMin: int := 0
  const SensorGainMax: int := 255
  const SensorGainStep: int := 1
  const GainModPeriodMs: int := 100

  // Frequency-to-gain table
  const Freq2GainTableSize: int := 128
  const Freq2GainTableRange: real := FreqMax - FreqCutoff + 1.0
  const Freq2GainTableStep: real := Freq2GainTableRange / Freq2GainTableSize as real

  /** Every voicing row picks 3 distinct candidate fundamentals, in strictly
      increasing order, out of the 5 of a chord row. */
  lemma VoicingsWellFormed()
    ensures |ChordVoicings| == NumChordVoicings
    ensures forall v :: 0 <= v < NumChordVoicings ==>
      |ChordVoicings[v]| == NumStrings &&
      0 <= ChordVoicings[v][0] < ChordVoicings[v][1] < ChordVoicings[v][2] < 5
  {
  }

  /** A chord row built on a positive fundamental is strictly increasing,
      at most twice its first entry. */
  lemma ChordRowIncreasing(f: real)
    requires f > 0.0
    ensures |ChordRow(f)| == 5
    ensures forall j, k :: 0 <= j < k < 5 ==> ChordRow(f)[j] < ChordRow(f)[k]
    ensures ChordRow(f)[0] == f && ChordRow(f)[4] == 2.0 * f
  {
  }

  /** Every entry of the chord table is a positive frequency no larger than
      MaxFundamental, and every row is strictly increasing. */
  lemma ChordsWellFormed()
    ensures |Chords| == NumChords
    ensures forall c :: 0 <= c < NumChords ==> |Chords[c]| == 5
    ensures forall c, j :: 0 <= c < NumChords && 0 <= j < 5 ==>
      0.0 < Chords[c][j] <= MaxFundamental
    ensures forall c, j, k :: 0 <= c < NumChords && 0 <= j < k < 5 ==>
      Chords[c][j] < Chords[c][k]
  {
    var fs := [Fund1, Fund2, Fund3, Fund4, Fund5];
    assert fs == [110.0, 165.0, 123.75, 185.625, 139.21875];
    forall c | 0 <= c < NumChords
      ensures Chords[c] == ChordRow(fs[c])
    {
    }
    forall c | 0 <= c < NumChords
      ensures |Chords[c]| == 5
      ensures forall j :: 0 <= j < 5 ==> 0.0 < Chords[c][j] <= MaxFundamental
      ensures forall j, k :: 0 <= j < k < 5 ==> Chords[c][j] < Chords[c][k]
    {
      ChordRowIncreasing(fs[c]);
    }
  }

  /** For every string slot the pulse thresholds are ordered
      large > medium > small > 0. */
  lemma PulseThresholdsOrdered()
    ensures |PulseLThreshold| == |PulseMThreshold| == |PulseSThreshold| == NumStrings
    ensures forall i :: 0 <= i < NumStrings ==>
      PulseLThreshold[i] > PulseMThreshold[i] > PulseSThreshold[i] > 0
  {
  }

  /** The drone start threshold lies strictly below every drone range, so the
      gain map has a non-empty input span; decrease steps are positive. */
  lemma DroneConstantsOrdered()
    ensures |DroneRange| == |DroneDecreaseStep| == |LfoRates| == NumStrings
    ensures forall i :: 0 <= i < NumStrings ==>
      0 < DroneStartThres < DroneRange[i] && DroneDecreaseStep[i] > 0 && LfoRates[i] > 0.0
  {
  }

  /** The delta-scaler bounds are ordered min < default < max. */
  lemma DeltaScalerBoundsOrdered()
    ensures 0 < DeltaScalerMin < DeltaScalerDef < DeltaScalerMax
  {
  }

  /** Index of the table entry that weights frequency f (f above the cutoff). */
  function TableIndex(f: real): (n: int)
    requires f > FreqCutoff
    ensures n >= 0
  {
    ((f - FreqCutoff) / Freq2GainTableStep).Floor
  }

  /** A table index lies inside the 128 entries exactly when the frequency is
      less than FreqCutoff + 5701, i.e. f - 300 < 5701. */
  lemma TableIndexInRange(f: real)
    requires f > FreqCutoff
    ensures TableIndex(f) < Freq2GainTableSize <==> f - FreqCutoff < Freq2GainTableRange
  {
    var x := (f - FreqCutoff) / Freq2GainTableStep;
    assert Freq2GainTableStep == 5701.0 / 128.0;
    assert x == (f - FreqCutoff) * 128.0 / 5701.0;
    assert x.Floor < 128 <==> x < 128.0;
  }
}
