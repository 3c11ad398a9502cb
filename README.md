# Komorebi Larva synth — a verified model of its core

The Komorebi kit turns light into sound. A photodiode is read at control rate
by `PhotoSensReader`. It averages the reading, steers a digital-potentiometer
gain so that the average stays in [1000, 3000], flags saturation, and maps the
reading from decibels onto the light range [0, 1050]. The `LarvaSynth2` engine
takes the raw and the scaled reading at each control tick and does four things:

- It derives a light delta from a fast rolling average, with a self-adjusting
  scaler. A delta above 80 counts as a trigger.
- Once a second it sets a pulse master gain on a bell curve of the trigger rate.
- Over a 60-second window of per-second minima and maxima it sets a pulse
  resonance on a bell curve of the light excursion.
- It updates five `LarvaChord`s, each covering an overlapping band of the slow
  light average, and lists the ones that sound.

Each chord holds three `LarvaString`s tuned to a random voicing of its five
candidate fundamentals. Each string holds 12 partials:

- Light deltas in a partial's sub-band raise its drone level and three pulse
  accumulators.
- Drone levels become byte gains through a map, a cube and a frequency-weighting
  table, and decay over time.
- An accumulator that crosses its threshold fires a resonant noise pulse
  ("plok") from a 12-voice `PlokSynth`.
- A triangular LFO sweeps each partial between its base frequency and its
  detuned frequency.

The model is split into one Dafny module per source component:

| module | file | models |
|---|---|---|
| `Platform` | platform.dfy | C and Arduino arithmetic: truncating division, `map`, `constrain`, `unsigned long` time differences, float-to-int and byte conversions, and the injected maths functions (`Numerics`) |
| `LarvaDefs` | larva_defs.dfy | the constants of `LarvaDefs.hpp`, and facts about the chord, voicing, threshold and table constants |
| `PlokVoices` | plok.dfy | `Plok` and `PlokSynth`: pure state functions, and the classes proved against them |
| `LarvaStrings` | larva_string.dfy | the `LFO` (functions and class) and every step of `LarvaString` as functions over a `StringState` value |
| `LarvaStringClass` | larva_string_class.dfy | the `LarvaString` class, with its loops as methods proved against those functions |
| `LarvaChords` | larva_chord.dfy | `LarvaChord` as functions over a `ChordState` value |
| `LarvaChordClass` | larva_chord_class.dfy | the `LarvaChord` class |
| `LarvaChordFacts` | larva_chord_facts.dfy | lemmas about the chord's update and audio loops |
| `LarvaSynth` | larva_synth.dfy | the engine's bell curve, delta scaler, trigger-rate gain, excursion window, chord loop, gain table and `Init`, as functions |
| `LarvaSynthClass` | larva_synth_class.dfy | the `LarvaSynth2` class, with its window and table arrays |
| `PhotoSensor` | photo_sensor.dfy | `PhotoSensReader`: functions and the class with its 128-slot averaging buffer |

## Model

| member | source | states |
|---|---|---|
| Platform.DivT | include/LarvaString.hpp:113 | C integer division truncates toward zero: \|q\|·\|b\| ≤ \|a\| < (\|q\|+1)·\|b\|, and a non-zero quotient has the sign of the product of the operands' signs |
| Platform.Constrain | src/LarvaSynth2.cpp:99-101 | `constrain` returns a value in [lo, hi], and returns x itself when x is already in range |
| Platform.Elapsed | src/LarvaString.cpp:72 | an `unsigned long` time difference equals the plain difference when no wrap-around happened |
| Platform.Trunc | src/LarvaString.cpp:167 | a float-to-int cast of a non-negative value is its floor |
| Platform.Round | include/PhotoSensReader.hpp:81 | `roundf` of a non-negative value is the integer within one half of it |
| Platform.ToByte | src/LarvaString.cpp:43 | the `(byte)` conversion lies in [0, 255] and leaves values already in that range unchanged |
| Platform.MapWithin | src/LarvaSynth2.cpp:93 | Arduino `map` sends an input between its input bounds to an output between its output bounds, for both orientations of each pair of bounds |
| LarvaDefs.VoicingsWellFormed | include/LarvaDefs.hpp:99-106 | each of the 5 voicings picks 3 distinct candidates out of 5, in increasing order |
| LarvaDefs.ChordRowIncreasing | include/LarvaDefs.hpp:40-46 | a chord row built on a positive fundamental is strictly increasing, from the fundamental to its octave |
| LarvaDefs.ChordsWellFormed | include/LarvaDefs.hpp:33-86 | all 5 chord rows hold positive frequencies of at most 371.25 Hz, in strictly increasing order |
| LarvaDefs.PulseThresholdsOrdered | include/LarvaDefs.hpp:187-189 | for every string slot the large, medium and small pulse thresholds are strictly decreasing and positive |
| LarvaDefs.DroneConstantsOrdered | include/LarvaDefs.hpp:132-143 | the drone start threshold lies strictly below every drone range, so the gain map has a non-empty input span; decay steps and LFO rates are positive |
| LarvaDefs.DeltaScalerBoundsOrdered | include/LarvaDefs.hpp:228-230 | the delta scaler's bounds satisfy min < default < max |
| LarvaDefs.TableIndex | include/LarvaString.hpp:223-230 | the table index of a frequency above the cutoff is non-negative |
| LarvaDefs.TableIndexInRange | include/LarvaDefs.hpp:265-267 | a frequency indexes inside the 128-entry table exactly when it lies less than 5701 Hz above the cutoff |
| PlokVoices.LifeEstimationValue | include/Plok.hpp:28 | a voice's life estimate is AUDIO_RATE × 50 ms truncated, that is 1638 samples |
| PlokVoices.InitialPlokOff | include/Plok.hpp:26-30 | a freshly built voice is silent, because its life counter starts at the estimate |
| PlokVoices.PlokTriggered | include/Plok.hpp:32-42 | Trigger clamps the duration to ≥ 1, the gain to ≥ 0, the frequency to ≥ 20 Hz and Q to ≥ 1, and keeps each value that is already in range; it retunes the resonator from the new values, zeroes both counters and keeps the noise state and delay line |
| PlokVoices.TriggeredIsOn | include/Plok.hpp:100 | a triggered voice keeps the voice invariant and is On |
| PlokVoices.NextRand | include/Plok.hpp:117-119 | the noise generator's next state is a 32-bit unsigned value |
| PlokVoices.Noise | include/Plok.hpp:118-120 | the noise sample lies in [-1, 1) |
| PlokVoices.SteppedKeepsInv | include/Plok.hpp:46-68 | one sample keeps the invariant; the life counter moves exactly while the voice is On; the delay line shifts by one; the generator takes one LCG step modulo 2^32 |
| PlokVoices.StepsCounters | include/Plok.hpp:49-57 | after n samples the life counter is min(start + n, estimate), the envelope counter has grown by n and the duration is unchanged |
| PlokVoices.OnForLifeEstimation | include/Plok.hpp:49-51 | after a trigger a voice is On for exactly 1638 samples |
| PlokVoices.EnvelopeWindow | include/Plok.hpp:57-58 | after a trigger the envelope is 1 exactly while the sample count is below the impulse duration, and from then on the filter input is 0 |
| PlokVoices.Plok.constructor | include/Plok.hpp:26-30 | the new voice is the initial, silent voice state |
| PlokVoices.Plok.UpdateBiquad | include/Plok.hpp:104-114 | the coefficients become the resonator of (fc, Q, gain) and nothing else changes |
| PlokVoices.Plok.Trigger | include/Plok.hpp:32-42 | the voice becomes the triggered state of the voice function and is On |
| PlokVoices.Plok.WNoise | include/Plok.hpp:116-120 | one generator step; the returned sample is the noise value of the new state |
| PlokVoices.Plok.Process | include/Plok.hpp:46-68 | the voice becomes its one-sample step and the output is the new filter output |
| PlokVoices.SynthTriggerVoice | src/Plok.cpp:17-33 | an index ≥ 12 and a sounding voice are ignored (no stealing); otherwise exactly the addressed voice is triggered and the count and list are unchanged |
| PlokVoices.SynthTrigger | src/Plok.cpp:36-44 | a full pool is left alone; otherwise voice number `count` is triggered and the count grows by one, and every other voice is unchanged |
| PlokVoices.AvailableIffTriggerTakesVoice | include/Plok.hpp:182 | Available() holds exactly when a Trigger takes a voice |
| PlokVoices.OnIndices | src/Plok.cpp:50-55 | the scan of voices below n lists at most n indices |
| PlokVoices.OnIndicesExact | src/Plok.cpp:50-55 | that scan lists exactly the sounding voices below n, in strictly increasing order |
| PlokVoices.SynthUpdated | src/Plok.cpp:47-56 | Update keeps the pool invariant and leaves the voices themselves unchanged |
| PlokVoices.UpdateListsSoundingVoices | src/Plok.cpp:47-56 | after Update the head of the list holds each sounding voice exactly once, in increasing slot order, and nothing else |
| PlokVoices.ProcessList | include/Plok.hpp:174-180 | the audio loop yields a state for every voice |
| PlokVoices.ProcessListSteps | include/Plok.hpp:174-180 | the audio loop over a duplicate-free list prefix steps each listed voice exactly once and leaves every other voice as it was |
| PlokVoices.ProcessListKeepsInv | include/Plok.hpp:174-180 | the audio loop keeps every voice's invariant |
| PlokVoices.SynthProcessed | include/Plok.hpp:174-180 | the pool's audio callback keeps the invariant and changes neither the count nor the list |
| PlokVoices.ProcessAfterUpdate | include/Plok.hpp:174-180 | right after Update, one audio sample steps every sounding voice once and leaves every silent voice untouched |
| PlokVoices.PlokSynth.constructor | include/Plok.hpp:185-189 | the new pool holds 12 silent voices and an empty count |
| PlokVoices.PlokSynth.TriggerVoice | src/Plok.cpp:17-33 | the pool becomes SynthTriggerVoice of its old state |
| PlokVoices.PlokSynth.Trigger | src/Plok.cpp:36-44 | the pool becomes SynthTrigger of its old state |
| PlokVoices.PlokSynth.Update | src/Plok.cpp:47-56 | the pool becomes SynthUpdated of its old state |
| PlokVoices.PlokSynth.Process | include/Plok.hpp:174-180 | the pool and the mix are SynthProcessed of the old state |
| PlokVoices.StepListed | include/Plok.hpp:176-178 | stepping the listed voice objects one after the other gives the voices and the mix of ProcessList |
| PlokVoices.StepOne | include/Plok.hpp:177 | one voice object takes its step and every other voice keeps its state |
| LarvaStrings.LfoRated | include/LarvaString.hpp:36-41 | SetRate stores the rate, sets the half period to (int)(6 / rate) / 2 in C arithmetic but at least 1, restarts the timer and keeps the direction |
| LarvaStrings.StringLfoHalfPeriods | include/LarvaDefs.hpp:132-133 | the three string LFO rates give half periods of 30, 66 and 50 updates |
| LarvaStrings.LfoGet | include/LarvaString.hpp:43-50 | Get returns timer / hperiod, which is in [0, 1], and keeps the LFO invariant |
| LarvaStrings.LfoTriangle | include/LarvaString.hpp:43-50 | from a reset timer, the timer after n calls follows the triangle wave of period 2·hperiod; the direction is up on the rising half and down on the falling half |
| LarvaStrings.TriPosPeriodic | include/LarvaString.hpp:43-50 | the triangle position repeats after 2·hperiod calls |
| LarvaStrings.LfoOutputPeriodic | include/LarvaString.hpp:43-50 | the LFO output is the triangle position over hperiod and is periodic with period 2·hperiod |
| LarvaStrings.Lfo.constructor | include/LarvaString.hpp:53-56 | the new LFO is rate 0.1, timer 0, step 1, half period 1 |
| LarvaStrings.Lfo.SetRate | include/LarvaString.hpp:36-41 | the object becomes LfoRated of its old state |
| LarvaStrings.Lfo.Get | include/LarvaString.hpp:43-50 | the object and the returned value are LfoGet of the old state |
| LarvaStrings.FreqScaler | include/LarvaString.hpp:147-161 | the scaler is 1 at or below the cutoff and at least the floor above it; it is at most 1 when the injected power is non-negative |
| LarvaStrings.Freq2GainScaler | include/LarvaString.hpp:221-233 | a gain at or below the cutoff frequency passes unchanged, and a weighted gain never exceeds the input gain |
| LarvaStrings.CubedBound | src/LarvaString.cpp:40 | the cube of a byte gain shifted right by 16 is at most 253, and exactly 253 at 255 |
| LarvaStrings.RawGainRange | src/LarvaString.cpp:39 | for a level in [0, range] the map to a gain stays in [0, 255] without wrapping, and reaches 255 at full range |
| LarvaStrings.GainCurve | src/LarvaString.cpp:33-45 | a partial's gain is 0 below the start threshold and never exceeds its cubed raw gain, which is at most 253 |
| LarvaStrings.FreqInTableRange | include/LarvaString.hpp:230 | every current partial frequency indexes inside the frequency-to-gain table |
| LarvaStrings.InitialString | include/LarvaString.hpp:164-216 | the field initialisers give a well-formed string whose drone levels lie within [0, range] |
| LarvaStrings.DetuneBound | src/LarvaString.cpp:159-160 | a random detune is at most 1 % of its base frequency |
| LarvaStrings.DecreaseStep | src/LarvaString.cpp:166-167 | the decay step of a non-negative master step is non-negative |
| LarvaStrings.RetuneBases | src/LarvaString.cpp:156 | base frequency i is fund × (offset + i), and lies in [0, 14 × 371.25] |
| LarvaStrings.RetuneDetunes | src/LarvaString.cpp:159-160 | each detune is the scaled draw and is at most 1 % of its base frequency |
| LarvaStrings.RetuneFreqs | src/LarvaString.cpp:161 | each frequency is base plus detune |
| LarvaStrings.RetuneTuningOk | src/LarvaString.cpp:154-161 | the retuned bases, detunes and frequencies meet the string's tuning invariant |
| LarvaStrings.RetuneSteps | src/LarvaString.cpp:165-167 | each decay step is the master step divided by the frequency's decay scaler |
| LarvaStrings.Retuned | src/LarvaString.cpp:138-177 | Retune stores the fundamental and an offset in [1, 3], sets bases, detunes, frequencies and decay steps from the per-partial functions, and changes nothing else |
| LarvaStrings.DecreaseStepRange | src/LarvaString.cpp:165-167 | with the scaler in [0.1, 1] the decay step lies between the master step and ten times it, and equals the master step at scaler 1 |
| LarvaStrings.DecayStepBounds | src/LarvaString.cpp:165-167 | with a non-negative power, every frequency's decay step lies between the master step and ten times it, and equals the master step at or below 800 Hz |
| LarvaStrings.RetuneDecaySteps | src/LarvaString.cpp:138-177 | after a retune every partial's decay step lies between the master step and ten times it, and equals the master step at or below 800 Hz |
| LarvaStrings.Muted | include/LarvaString.hpp:88-93 | Mute leaves the string inactive and changes nothing else |
| LarvaStrings.MuteIdempotent | include/LarvaString.hpp:88-93 | muting twice is muting once, and an inactive string is left as it is |
| LarvaStrings.Unmuted | include/LarvaString.hpp:95-102 | an active string is left alone; an inactive one is retuned to its stored fundamental and becomes active and triggered |
| LarvaStrings.LevelsRaised | src/LarvaString.cpp:113-136 | UpdateLevels touches only drone levels and accumulators, and does nothing for a delta below 80 |
| LarvaStrings.LevelsRaisedEffect | src/LarvaString.cpp:113-136 | for a delta of at least 80, a partial whose sub-band holds the input gets its drone level raised by the delta up to the range and each accumulator raised by the delta; every other partial is unchanged |
| LarvaStrings.Decayed | src/LarvaString.cpp:71-77 | the drone decay keeps the string invariant |
| LarvaStrings.DecayedBounds | src/LarvaString.cpp:71-77 | decay never raises a level nor takes it below 0; it does nothing within 20 ms of the last decay; after that it stamps the time and zeroes every level at or below its step |
| LarvaStrings.PulseQ | src/LarvaString.cpp:210-211 | a pulse's Q lies within ±5 of the average resonance |
| LarvaStrings.PulseDur | src/LarvaString.cpp:212 | a pulse's impulse duration lies in [10, 29] |
| LarvaStrings.Request | src/LarvaString.cpp:205-215 | a firing partial asks for a pulse at its own frequency with the tier's level, a duration in [10, 29] and a Q within ±5 of the average |
| LarvaStrings.ScanRequestsCount | src/LarvaString.cpp:80-94 | the scan asks for exactly one pulse per firing partial, each with a duration in [10, 29] and a Q within ±5 of the average |
| LarvaStrings.FiredCount | src/LarvaString.cpp:80-94 | serving k requests fills the pool to min(count + k, 12) and leaves its list alone |
| LarvaStrings.FiredSnoc | src/LarvaString.cpp:215 | serving one more request is one more PlokSynth Trigger |
| LarvaStrings.ScannedAcc | src/LarvaString.cpp:82-93 | an accumulator is reset to 0 exactly when its tier fired |
| LarvaStrings.ScanTiers | src/LarvaString.cpp:80-94 | for each partial only the first accumulator at or above its threshold (large, then medium, then small) is reset, and the others keep their values |
| LarvaStrings.ModulatedFreqs | src/LarvaString.cpp:101-104 | each modulated frequency is base + detune × v and lies between base and base + detune |
| LarvaStrings.ModulatedRange | src/LarvaString.cpp:99-106 | between LFO reads only the timer advances; on every tenth update the LFO is read, the timer restarts and every frequency lies between its base and base + detune |
| LarvaStrings.SumZeroIffAllZero | src/LarvaString.cpp:53-60 | a sum of byte gains is at most 0 exactly when every gain is 0 |
| LarvaStrings.WithGains | src/LarvaString.cpp:33-45 | the gain step changes only the gains |
| LarvaStrings.FreqsInTableRange | include/LarvaString.hpp:230 | every partial frequency indexes inside the table |
| LarvaStrings.WithSmoothGains | src/LarvaString.cpp:48-50 | the smoothing step changes only the smoothed gains |
| LarvaStrings.Played | src/LarvaString.cpp:68-108 | the sounding part of Update keeps the activity, the trigger flag and the drone range |
| LarvaStrings.Activated | src/LarvaString.cpp:33-65 | the gain and activity half of Update keeps the string invariant and the drone range |
| LarvaStrings.StringUpdated | src/LarvaString.cpp:28-109 | Update keeps the string invariant and the drone range |
| LarvaStrings.UpdateActivity | src/LarvaString.cpp:28-109 | after Update the string is active exactly when some smoothed gain is non-zero, and triggered exactly when it was just unmuted; an inactive string leaves levels, accumulators, pool, LFO and tuning untouched |
| LarvaStrings.SmoothedSilence | src/LarvaString.cpp:53-62 | the smoothed gains sum to at most 0 exactly when every smoother output is stored as a zero byte |
| LarvaStrings.RetunedStepsNonNegative | src/LarvaString.cpp:165-167 | a retune computes non-negative decay steps from a non-negative master step |
| LarvaStrings.PlayedKeepsDroneBounded | src/LarvaString.cpp:68-108 | the sounding part of Update keeps drone levels within [0, range] |
| LarvaStrings.UpdateKeepsDroneBounded | src/LarvaString.cpp:28-109 | Update keeps drone levels within [0, range] |
| LarvaStrings.LightRangeSet | include/LarvaString.hpp:109-118 | SetLightRange changes only the 12 sub-bands |
| LarvaStrings.LightBandsContiguous | include/LarvaString.hpp:109-118 | the width (hi − lo) / 12 is non-negative for lo ≤ hi; the bands end at most 11 short of hi; consecutive bands touch |
| LarvaStrings.LightBandUnique | include/LarvaString.hpp:109-118 | an input in [lo, lo + 12w) lies in exactly one sub-band, number (input − lo) / w |
| LarvaStrings.LightBandNone | include/LarvaString.hpp:109-118 | inputs below lo or from lo + 12w on lie in no sub-band; when lo > hi that is every input |
| LarvaStrings.StringProcessed | include/LarvaString.hpp:68-80 | Process changes only the pulse pool |
| LarvaStrings.DroneMixBound | include/LarvaString.hpp:70-74 | the sum of n sample × gain products lies within ±n × 32640 |
| LarvaStrings.DroneOutputBound | include/LarvaString.hpp:68-80 | the scaled drone part of a string's output lies in [−2.5, 2.5] |
| LarvaStringClass.RetunePartials | src/LarvaString.cpp:154-176 | the per-partial loop of Retune computes the bases, detunes, frequencies and decay steps of the retune functions |
| LarvaStringClass.RaiseLevels | src/LarvaString.cpp:119-134 | the per-partial loop of UpdateLevels computes the levels and accumulators of LevelsRaised |
| LarvaStringClass.ComputeGains | src/LarvaString.cpp:33-45 | the gain loop computes the gains of WithGains |
| LarvaStringClass.StoreSmoothGains | src/LarvaString.cpp:48-50 | each smoothed gain is the smoother's output stored in a byte |
| LarvaStringClass.SumGains | src/LarvaString.cpp:53-56 | the summing loop computes the sum of the smoothed gains |
| LarvaStringClass.DecayLevels | src/LarvaString.cpp:73-75 | each level drops by its step, floored at 0 |
| LarvaStringClass.ModulatePartials | src/LarvaString.cpp:101-104 | the modulation loop computes ModulatedFreqs |
| LarvaStringClass.MixDrone | include/LarvaString.hpp:70-74 | the mixing loop computes the sum of sample × smoothed gain |
| LarvaStringClass.TriggerPulse | src/LarvaString.cpp:205-215 | the pool takes one Trigger with the dithered Q, the tier gain times the master gain, and the drawn duration |
| LarvaStringClass.ScanPartial | src/LarvaString.cpp:82-93 | one partial's turn of the scan resets its firing tier and fires that tier's pulse |
| LarvaStringClass.FirePulses | src/LarvaString.cpp:80-94 | the scan loop leaves each accumulator as ScannedAcc of its tier, and the pool after serving the scan's requests in partial order |
| LarvaStringClass.LarvaString.constructor | include/LarvaString.hpp:164-216 | the new string is the initial string state |
| LarvaStringClass.LarvaString.Init | src/LarvaString.cpp:13-26 | Init stores the ID only; the fundamental argument is unused |
| LarvaStringClass.LarvaString.SetID | include/LarvaString.hpp:120 | only the ID changes |
| LarvaStringClass.LarvaString.SetPulseLThres | include/LarvaString.hpp:123 | only the large-pulse threshold changes |
| LarvaStringClass.LarvaString.SetPulseMThres | include/LarvaString.hpp:124 | only the medium-pulse threshold changes |
| LarvaStringClass.LarvaString.SetPulseSThres | include/LarvaString.hpp:125 | only the small-pulse threshold changes |
| LarvaStringClass.LarvaString.SetDroneRange | include/LarvaString.hpp:126 | only the drone range changes |
| LarvaStringClass.LarvaString.SetDroneDecreaseStep | include/LarvaString.hpp:128-130 | only the master decay step changes |
| LarvaStringClass.LarvaString.SetPulseMasterGain | include/LarvaString.hpp:132-134 | only the pulse master gain changes |
| LarvaStringClass.LarvaString.SetPulseResonanceAvg | include/LarvaString.hpp:136-138 | only the average resonance changes |
| LarvaStringClass.LarvaString.SetLFORate | include/LarvaString.hpp:140 | only the LFO changes, to LfoRated of its old state |
| LarvaStringClass.LarvaString.Mute | include/LarvaString.hpp:88-93 | the string becomes Muted of its old state |
| LarvaStringClass.LarvaString.Unmute | include/LarvaString.hpp:95-102 | the string becomes Unmuted of its old state |
| LarvaStringClass.LarvaString.Retune | src/LarvaString.cpp:138-177 | the string becomes Retuned of its old state |
| LarvaStringClass.LarvaString.UpdateLevels | src/LarvaString.cpp:113-136 | the string becomes LevelsRaised of its old state |
| LarvaStringClass.LarvaString.SetLightRange | include/LarvaString.hpp:109-118 | the string becomes LightRangeSet of its old state |
| LarvaStringClass.LarvaString.UpdateGains | src/LarvaString.cpp:33-45 | the string becomes WithGains of its old state |
| LarvaStringClass.LarvaString.UpdateSmoothGains | src/LarvaString.cpp:48-50 | the string becomes WithSmoothGains of its old state |
| LarvaStringClass.LarvaString.Decay | src/LarvaString.cpp:71-77 | the string becomes Decayed of its old state |
| LarvaStringClass.LarvaString.TriggerRandomPulse | src/LarvaString.cpp:205-221 | the pool takes one Trigger with the dithered Q and duration and the tier gain times the master gain |
| LarvaStringClass.LarvaString.ScanPulses | src/LarvaString.cpp:80-94 | the string becomes ScanApplied of its old state |
| LarvaStringClass.LarvaString.ModulateLfo | src/LarvaString.cpp:99-106 | the string becomes Modulated of its old state |
| LarvaStringClass.LarvaString.Play | src/LarvaString.cpp:68-108 | the string becomes Played of its old state |
| LarvaStringClass.LarvaString.Activate | src/LarvaString.cpp:30-65 | the string becomes Activated of its old state |
| LarvaStringClass.LarvaString.Update | src/LarvaString.cpp:28-109 | the string becomes StringUpdated of its old state |
| LarvaStringClass.LarvaString.Process | include/LarvaString.hpp:68-80 | the string and its sample are StringProcessed of the old state |
| LarvaChords.InitialChord | include/LarvaChord.hpp:85-95 | a new chord is well formed, silent and has no listed string |
| LarvaChords.VoicedFund | src/LarvaChord.cpp:100-101 | a voiced fundamental is a positive frequency of at most 371.25 Hz |
| LarvaChords.VoicedString | src/LarvaChord.cpp:100-102 | a string retuned to its voiced fundamental stays playable |
| LarvaChords.ChordRetuned | src/LarvaChord.cpp:89-104 | Retune changes only the strings, and each string is retuned to its candidate of the drawn voicing |
| LarvaChords.RetuneVoicing | src/LarvaChord.cpp:89-104 | after Retune the three fundamentals are strictly increasing, each is its voicing's candidate, and every string keeps its activity |
| LarvaChords.ChordMuted | include/LarvaChord.hpp:45-50 | Mute leaves the chord inactive and changes nothing else |
| LarvaChords.ChordMuteIdempotent | include/LarvaChord.hpp:45-50 | muting twice is muting once, and a silent chord is left as it is |
| LarvaChords.ChordUnmuted | include/LarvaChord.hpp:52-62 | an active chord is left alone; a silent one retunes its strings and becomes active and triggered; list, ID and band are kept |
| LarvaChords.ChordLevelsRaised | src/LarvaChord.cpp:51-56 | the gated level update changes only the strings |
| LarvaChords.ChordLevelsEffect | src/LarvaChord.cpp:51-56 | outside the chord's band nothing changes; inside it, a partial's large-pulse accumulator grows by the delta exactly when the delta is at least 80 and the slow average lies in that partial's sub-band |
| LarvaChords.UpdateStep | src/LarvaChord.cpp:62-72 | a string's turn keeps the chord invariant and extends the list by one exactly when the string is now active |
| LarvaChords.UpdatedUpTo | src/LarvaChord.cpp:59-73 | after n turns the list holds at most n ordered entries below n |
| LarvaChords.ChordUpdated | src/LarvaChord.cpp:46-80 | Update keeps the chord invariant (the list's properties are in ChordUpdateList) |
| LarvaChords.ProcessUpTo | include/LarvaChord.hpp:31-34 | the audio loop keeps every string playable |
| LarvaChords.ProcessUpToStep | include/LarvaChord.hpp:32-34 | the loop over k + 1 entries is the loop over k followed by string list[k] |
| LarvaChords.ChordProcessed | include/LarvaChord.hpp:29-40 | Process keeps the chord invariant |
| LarvaChords.ChordPulseGainSet | include/LarvaChord.hpp:71-75 | SetPulseMasterGain changes only the strings |
| LarvaChords.ChordResonanceSet | include/LarvaChord.hpp:77-81 | SetPulseResonanceAvg changes only the strings |
| LarvaChords.ChordLightRangeSet | src/LarvaChord.cpp:106-114 | SetLightRange changes only the band and the strings |
| LarvaChords.Configured | src/LarvaChord.cpp:20-27 | a string configured from its slot is playable |
| LarvaChords.ChordInitialised | src/LarvaChord.cpp:13-31 | Init keeps the chord invariant (the slots are in ChordInitSlots) |
| LarvaChordClass.LarvaChord.constructor | include/LarvaChord.hpp:85-95 | the new chord is the initial chord state |
| LarvaChordClass.LarvaChord.Init | src/LarvaChord.cpp:13-31 | the chord becomes ChordInitialised of its old state |
| LarvaChordClass.LarvaChord.Mute | include/LarvaChord.hpp:45-50 | the chord becomes ChordMuted of its old state |
| LarvaChordClass.LarvaChord.Unmute | include/LarvaChord.hpp:52-62 | the chord becomes ChordUnmuted of its old state |
| LarvaChordClass.LarvaChord.Retune | src/LarvaChord.cpp:89-104 | the chord becomes ChordRetuned of its old state |
| LarvaChordClass.LarvaChord.SetLightRange | src/LarvaChord.cpp:106-114 | the chord becomes ChordLightRangeSet of its old state |
| LarvaChordClass.LarvaChord.SetPulseMasterGain | include/LarvaChord.hpp:71-75 | the chord becomes ChordPulseGainSet of its old state |
| LarvaChordClass.LarvaChord.SetPulseResonanceAvg | include/LarvaChord.hpp:77-81 | the chord becomes ChordResonanceSet of its old state |
| LarvaChordClass.LarvaChord.UpdateLevels | src/LarvaChord.cpp:51-56 | the chord becomes ChordLevelsRaised of its old state |
| LarvaChordClass.LarvaChord.Turn | src/LarvaChord.cpp:62-72 | the chord becomes UpdateStep of its old state |
| LarvaChordClass.LarvaChord.UpdateStrings | src/LarvaChord.cpp:59-73 | the chord becomes UpdatedUpTo of its old state over all three strings |
| LarvaChordClass.LarvaChord.Update | src/LarvaChord.cpp:46-80 | the chord becomes ChordUpdated of its old state |
| LarvaChordClass.LarvaChord.Process | include/LarvaChord.hpp:29-40 | the chord and its sample are ChordProcessed of the old state |
| LarvaChordClass.ProcessStrings | include/LarvaChord.hpp:31-34 | the loop over the listed strings computes ProcessUpTo |
| LarvaChordFacts.ListStep | src/LarvaChord.cpp:64-65 | after one more string is seen, the list holds k exactly when string k is active |
| LarvaChordFacts.UpdateStepActivity | src/LarvaChord.cpp:62-66 | a turn sets string k's activity to that of its own update, and the other strings keep theirs |
| LarvaChordFacts.UpdateStepList | src/LarvaChord.cpp:64-65 | a turn appends k to the list exactly when string k is now active |
| LarvaChordFacts.UpdateStepKeepsRebuilt | src/LarvaChord.cpp:59-73 | each turn keeps the loop invariant: the list names exactly the active strings seen so far |
| LarvaChordFacts.UpdatedUpToRebuilt | src/LarvaChord.cpp:59-73 | after n turns the list names exactly the active strings below n, in order |
| LarvaChordFacts.ChordUpdateList | src/LarvaChord.cpp:46-80 | after Update the list is ordered and names exactly the active strings; the chord is active exactly when the list is non-empty, and triggered exactly when it was silent and is now active; ID and band are kept |
| LarvaChordFacts.UpdateStepSounding | src/LarvaChord.cpp:62-66 | a turn of a sounding chord changes only the turn's string, to its own update, and the chord stays sounding |
| LarvaChordFacts.UpdateStepKeepsTurned | src/LarvaChord.cpp:59-73 | each turn of a sounding chord extends the prefix of updated strings by one |
| LarvaChordFacts.UpdatedUpToSounding | src/LarvaChord.cpp:59-73 | for a sounding chord the first n turns update the first n strings and leave the rest untouched |
| LarvaChordFacts.ChordUpdateAllStrings | src/LarvaChord.cpp:46-80 | for a sounding chord, Update takes each string to its own update of its level-raised state |
| LarvaChordFacts.UpdateThenSetters | src/LarvaSynth2.cpp:179-196 | after a chord's Update, the two master setters give the new gain and resonance to its active strings only |
| LarvaChordFacts.ProcessUpToStrings | include/LarvaChord.hpp:31-34 | the audio loop processes each listed string once, from its own state, and leaves the others alone |
| LarvaChordFacts.ProcessUpToMix | include/LarvaChord.hpp:31-34 | the audio loop's sum is the reference mix of the listed strings |
| LarvaChordFacts.ChordProcessListed | include/LarvaChord.hpp:29-40 | Process touches only the listed strings, and its output is 0.33 times their mix |
| LarvaChordFacts.ChordInitSlots | src/LarvaChord.cpp:13-31 | after Init string i has ID (chord + 1)·100 + i + 1 and the thresholds, drone range, decay step and LFO rate of slot i, tuned to the drawn voicing |
| LarvaChordFacts.ChordLightBands | src/LarvaChord.cpp:106-114 | SetLightRange stores the band and gives all three strings the same sub-bands, each inside [lo, hi] when lo ≤ hi |
| LarvaSynth.ClampOut | include/LarvaSynth2.hpp:47-48 | the output clamp gives at least outMin, at most outMax when the bounds are ordered, and leaves in-range values alone |
| LarvaSynth.BellCurveAsWritten | include/LarvaSynth2.hpp:40-51 | the curve as written, with its indeterminate start value as a parameter, still returns a value within the output bounds |
| LarvaSynth.BellCurve | include/LarvaSynth2.hpp:40-51 | the intended curve returns a value within the output bounds |
| LarvaSynth.BellShapeEnds | include/LarvaSynth2.hpp:45-46 | the raised-cosine shape gives outMin at both ends and outMax in the middle |
| LarvaSynth.BellShapeBounded | include/LarvaSynth2.hpp:45-48 | with cosine in [−1, 1] the shape stays within the output bounds, so the clamp changes nothing |
| LarvaSynth.BellCurvePoints | include/LarvaSynth2.hpp:40-51 | the intended curve gives outMin at or below inMin and at or above inMax, and outMax at the midpoint |
| LarvaSynth.BellCurveReadsGarbage | include/LarvaSynth2.hpp:43 | with a start value of 0, an excursion of 150 yields resonance 20 as written and 50 as intended |
| LarvaSynth.LightDelta | src/LarvaSynth2.cpp:76 | the light delta is non-negative for a non-negative scaler |
| LarvaSynth.DeltaScalerBands | src/LarvaSynth2.cpp:87-103 | an average delta in [0, 80] gives a scaler in [1, 20] (20 at 0, 1 at 80); above 80 it is in [0.5, 1], 1 up to 160 and 0.5 from 400 on |
| LarvaSynth.DeltaScalerRange | src/LarvaSynth2.cpp:87-103 | for a non-negative average delta the scaler stays in [0.5, 20] |
| LarvaSynth.InitialControl | include/LarvaSynth2.hpp:55-85 | the field initialisers satisfy the control invariant |
| LarvaSynth.LightSensedCounts | src/LarvaSynth2.cpp:70-103 | the delta is non-negative; a trigger is flagged and counted exactly when it exceeds 80; only the flag, the counter and the scaler change |
| LarvaSynth.GainTickedEffect | src/LarvaSynth2.cpp:122-129 | within a second nothing changes; after one the counter restarts at 0, the time is stamped, the average takes the counter, only the pulse gain also changes, and it stays in [0.2, 1.3] |
| LarvaSynth.WindowMaxIsMax | src/LarvaSynth2.cpp:149-158 | the scanned maximum bounds every slot from above and is 0 or one of the slots |
| LarvaSynth.WindowMinIsMin | src/LarvaSynth2.cpp:149-158 | the scanned minimum bounds every slot from below and is INT_MAX or one of the slots |
| LarvaSynth.ExcursionSlot | src/LarvaSynth2.cpp:139-173 | the slot of the current second holds a min ≤ reading ≤ max bracket and no other slot changes; the timer advances modulo 3840 |
| LarvaSynth.TimerCycles | src/LarvaSynth2.cpp:173 | after n ticks the excursion timer is (t + n) mod 3840 |
| LarvaSynth.StepsUpToStep | src/LarvaSynth2.cpp:177-201 | one more chord: the step moves chord s and appends s when it comes out active |
| LarvaSynth.StepsUpToChords | src/LarvaSynth2.cpp:177-202 | after s steps, chords below s have taken their step once and the others are untouched |
| LarvaSynth.ActiveIndicesExact | src/LarvaSynth2.cpp:199-201 | the active indices below n are listed once each, in increasing order, and nothing else |
| LarvaSynth.StepsUpToList | src/LarvaSynth2.cpp:176-202 | the list built during the loop is the list of the chords that are active after their step |
| LarvaSynth.InitialEngine | include/LarvaSynth2.hpp:55-85 | a new engine satisfies the engine invariant with no listed chord |
| LarvaSynth.EngineUpdated | src/LarvaSynth2.cpp:67-204 | Update keeps the engine invariant (the list's properties are in ChordsRebuiltList) |
| LarvaSynth.ChordsRebuiltList | src/LarvaSynth2.cpp:176-202 | after the chord loop the list head holds exactly the active chords, each once, in increasing order, and every chord has ticked once |
| LarvaSynth.ChordsProcessedStep | src/LarvaSynth2.cpp:57-59 | the loop over k + 1 listed chords is the loop over k followed by chord list[k] |
| LarvaSynth.EngineProcessed | src/LarvaSynth2.cpp:55-64 | Process keeps the engine invariant |
| LarvaSynth.ChordsProcessedOnce | src/LarvaSynth2.cpp:57-59 | processing advances each listed chord once and leaves every other chord as it was |
| LarvaSynth.ChordsProcessedMix | src/LarvaSynth2.cpp:55-58 | the audio loop's sum over the listed chords equals the sum of each listed chord's output computed from its own state |
| LarvaSynth.EngineProcessedMix | src/LarvaSynth2.cpp:55-58 | the engine's audio output is the sum, in list order, of the outputs of the active chords, each processed once from its own state |
| LarvaSynth.GainTable | src/LarvaSynth2.cpp:16-23 | the table has 128 entries; entry n is 1 − (n·step / range)^0.8 · (1 − 0.001), floored at 0.001 |
| LarvaSynth.GainTableBounds | src/LarvaSynth2.cpp:16-23 | every entry is at least 0.001, and with a non-negative power at most 1 |
| LarvaSynth.BandsOverlap | src/LarvaSynth2.cpp:34-47 | the five bands cover exactly [0, 1050), and no value lies in three of them |
| LarvaSynth.EngineInitialised | src/LarvaSynth2.cpp:29-53 | Init keeps the engine invariant |
| LarvaSynth.InitBands | src/LarvaSynth2.cpp:34-47 | after Init chord s has ID s and band [200s, 200s + 250), shared by its three strings |
| LarvaSynthClass.LarvaSynth2.constructor | include/LarvaSynth2.hpp:55-85 | the new engine is the initial engine state |
| LarvaSynthClass.LarvaSynth2.Init | src/LarvaSynth2.cpp:29-53 | the engine becomes EngineInitialised of its old state |
| LarvaSynthClass.LarvaSynth2.Process | src/LarvaSynth2.cpp:55-64 | the engine and its mix are EngineProcessed of the old state |
| LarvaSynthClass.LarvaSynth2.Update | src/LarvaSynth2.cpp:67-204 | the engine becomes EngineUpdated of its old state |
| LarvaSynthClass.LarvaSynth2.TickControl | src/LarvaSynth2.cpp:70-173 | the control stages give the control state, delta and slow average of ControlUpdated |
| LarvaSynthClass.LarvaSynth2.Sense | src/LarvaSynth2.cpp:70-103 | the light-reading stage computes LightSensed |
| LarvaSynthClass.LarvaSynth2.TickGain | src/LarvaSynth2.cpp:122-129 | the trigger-rate stage computes GainTicked |
| LarvaSynthClass.LarvaSynth2.TickExcursion | src/LarvaSynth2.cpp:140-173 | the excursion stage computes ExcursionTicked |
| LarvaSynthClass.LarvaSynth2.CloseWindow | src/LarvaSynth2.cpp:146-171 | the second boundary computes WindowClosed |
| LarvaSynthClass.LarvaSynth2.RebuildChords | src/LarvaSynth2.cpp:176-202 | the chord loop leaves the chords, count and list of StepsUpTo and keeps the control fields |
| LarvaSynthClass.FillGainTable | src/LarvaSynth2.cpp:16-23 | the filled table is GainTable |
| LarvaSynthClass.SetUpChords | src/LarvaSynth2.cpp:34-47 | the five chords are set up as ChordsSetUp |
| LarvaSynthClass.SetUpChord | src/LarvaSynth2.cpp:34-35 | one chord's Init and SetLightRange give ChordSetUp |
| LarvaSynthClass.ScanWindow | src/LarvaSynth2.cpp:149-158 | the window scan returns WindowMax and WindowMin of the 60 slots |
| LarvaSynthClass.TickChords | src/LarvaSynth2.cpp:176-202 | the chord loop gives the chords and list of StepsUpTo; list entries past the count keep their values |
| LarvaSynthClass.ProcessChords | src/LarvaSynth2.cpp:57-59 | the audio loop computes ChordsProcessedUpTo |
| PhotoSensor.InitialSensor | include/PhotoSensReader.hpp:141-166 | the global reader starts well formed, with gain 0, not saturated and not calibrating |
| PhotoSensor.MeanBounds | include/PhotoSensReader.hpp:134-138 | the mean of 128 readings is a reading, and is the floor of the average |
| PhotoSensor.AvgPushed | include/PhotoSensReader.hpp:131-139 | pushing a reading keeps the sensor invariant, and the new average is a reading |
| PhotoSensor.AvgPushedSlot | include/PhotoSensReader.hpp:131-139 | the push writes only the current slot and advances the index cyclically; a buffer filled with one reading averages to that reading |
| PhotoSensor.SaturationRun | include/PhotoSensReader.hpp:53-66 | k extreme readings from an unsaturated count c leave the counter at min(c + k, 10) and raise the flag exactly when c + k > 10 |
| PhotoSensor.SatTickedCases | include/PhotoSensReader.hpp:53-66 | an in-range reading clears counter and flag; an extreme one never lowers the counter nor clears the flag |
| PhotoSensor.CalibrateStep | include/PhotoSensReader.hpp:94-118 | within 100 ms only the flag is raised; after that the gain moves one step toward the target, clamped to [0, 255], and calibration ends exactly on an end of the range |
| PhotoSensor.LimitBounds | include/PhotoSensReader.hpp:126-129 | `limitf` lands in [lo, hi] and leaves in-range values alone |
| PhotoSensor.ScaledLuxBounds | include/PhotoSensReader.hpp:68-81 | whatever log10 returns, the scaled lux lies in [0, 1050] |
| PhotoSensor.ScaledLuxEnds | include/PhotoSensReader.hpp:76-81 | a level at or below -48.18 dB (a zero reading, when log10 of 0 lies that low) scales to exactly 0, and one at or above 72.25 dB to exactly 1050 |
| PhotoSensor.SensorUpdated | include/PhotoSensReader.hpp:35-91 | Update keeps the sensor invariant |
| PhotoSensor.CalibrationTicked | include/PhotoSensReader.hpp:44-50 | the calibration branch of Update keeps the sensor invariant |
| PhotoSensor.UpdateCalibrates | include/PhotoSensReader.hpp:35-91 | Update calibrates exactly when the new average leaves [1000, 3000]; otherwise gain and timestamp stay put and calibration is off; saturation follows the per-reading rule; the scaled output is in [0, 1050] |
| PhotoSensor.PhotoSensReader.constructor | include/PhotoSensReader.hpp:141-166 | the new reader is the initial sensor state |
| PhotoSensor.PhotoSensReader.Update | include/PhotoSensReader.hpp:35-91 | the reader becomes SensorUpdated of its old state |
| PhotoSensor.PhotoSensReader.TrackSaturation | include/PhotoSensReader.hpp:53-66 | the counter and flag become SatTicked of their old values |
| PhotoSensor.PhotoSensReader.TickCalibration | include/PhotoSensReader.hpp:44-50 | the reader becomes CalibrationTicked of its old state |
| PhotoSensor.PhotoSensReader.Calibrate | include/PhotoSensReader.hpp:94-118 | the reader becomes Calibrated of its old state |
| PhotoSensor.PhotoSensReader.LuxMovAvg | include/PhotoSensReader.hpp:131-139 | the reading is stored in the current slot, the index advances modulo 128, the result is the truncated mean of the buffer, and no other field changes |

## Left out

- Mozzi's `RollingAverage`, `Smooth` and `Oscil`: their outputs are inputs to the model. They are the `Smoothers` functions for the engine's averages, the smoother outputs for a string's gains, and the oscillator samples in [−128, 127] for `Process`.
- `expf`, `cosf`, `log10f` and `fastPow` are not modelled. They are fields of an injected `Numerics` value. Properties that depend on them carry assumptions about them as preconditions: the cosine in [−1, 1], cos 0 = 1, cos π = −1, or a non-negative power.
- Floating point is not modelled: floats are `real`s. The `int16_t` conversion in `LarvaSynth2::Process` is left out, so `Process` returns the unscaled mix.
- The hardware and the Arduino and Mozzi runtime are not modelled. This covers `analogRead` (its value is a parameter in [0, 4095]), pin setup, the MCP4151 digital potentiometer, `startMozzi`, `randSeed`, `Start` and `Stop`. It also covers the debug counters and serial prints. `millis()` and `random()` are parameters: `now` and the draw records.
- Chords and strings are held by value (`seq` of datatypes) inside their owners' classes. The pointer arrays `mpActiveChords` and `mpActiveStrings` are modelled as arrays or sequences of indices. Aliasing between an owner and its parts is therefore not modelled.
- The chord loop of `LarvaSynth2::Update` is modelled generically over a step function. `TickStep` applies the chord's `Update` and the two master setters.
- The `unsigned long` wrap-around of `millis()` is modelled only for `unsigned long` differences (`Elapsed`). LarvaSynth.GainTicked takes the engine's `long vtime - mTriggersTimestamp` (src/LarvaSynth2.cpp:122-123) as a plain integer difference. The firmware's two's-complement difference keeps the one-second cadence across the wrap of `millis()`. In the model, once `now` wraps back to 0 the difference is about −2^32, so the gain stage does nothing until `now` passes the old stamp again, about 49.7 days later.
- The `unused` fields `mLightExcursion`, `mNumTriggeredEvents`, `retune_ready` and `cDroneMaxDurMs` are not modelled.
- `LarvaString::UpdateCutoffLevel` is not modelled: it is never called.
- The `Plok` setters `SetImpulseDur`, `SetFrequency`, `SetQ`, `SetGain` and `Set` are not modelled: they are never called.
- The engine's frequency-to-gain table is a global array in the program. Here it is the engine's `table` array, passed by value to the chords and strings that read it.
- The raw light input that `LarvaChord::Update` receives is unused there. The model takes it as a parameter and ignores it.
- `LarvaChord::Update` passes the slow light average, not the raw input, to its strings' `UpdateLevels`. The model does the same.
- LarvaSynth.GainTicked and LarvaSynth.WindowClosed compute the pulse gain and the pulse resonance with the corrected `BellCurve`, not with the curve as written at include/LarvaSynth2.hpp:43, which reads an indeterminate value (see Findings). So `LarvaSynth.EngineUpdated`, `LarvaSynthClass.LarvaSynth2.Update`, `TickGain` and `CloseWindow` model the firmware with that line corrected. The curve as written is `LarvaSynth.BellCurveAsWritten`.
- The active lists `PlokSynth::mpActiveVoices`, `LarvaChord::mpActiveStrings` and `LarvaSynth2::mpActiveChords` start uninitialised or null in the firmware. The model starts them as lists of index 0, which would name voice, string or chord 0 rather than no object. Entries at or past the active count are never read by the loops modelled here, so those starting values do not affect any stated result.
- PlokVoices.SynthTriggerVoice requires a non-negative voice index: a negative index is undefined behaviour in C++.
- LarvaStringClass.LarvaString.SetLFORate requires a non-zero rate: a zero rate divides by zero in `LFO::SetRate`.
- LarvaStrings.LevelsRaised: the accumulators `mPulseL_levels`, `mPulseM_levels` and `mPulseS_levels` are 32-bit `int` (include/LarvaString.hpp:196-198) and are raised by the delta without a clamp (src/LarvaString.cpp:126-128); a tick resets only the first tier that fires (src/LarvaString.cpp:82-93), so under a long sustained input the M and S accumulators can grow until the signed int overflows, which is undefined in C++. The model keeps them as unbounded integers and does not model that width or the overflow.
- LarvaStrings.CubedBound: the cubed gain tops out at 253 ((255³) >> 16), not at 255; the model follows the code.
- LarvaSynth.GainTickedEffect states only that the new pulse gain lies in [0.2, 1.3]. It does not state the gain's value for a given trigger average, because the bell curve depends on the injected cosine.

## Findings

| source | as written | input that shows it | evidently intended | confidence | as-written member | corrected member |
|---|---|---|---|---|---|---|
| include/LarvaSynth2.hpp:43 | `float vin = acIn < acInMin ? acInMin : vin;` initialises `vin` from itself when the input is at least `acInMin`, so the curve reads an indeterminate value | excursion 150 over [0, 300] → resonance [20, 50], with the indeterminate value happening to be 0.0: the result is 20 | `vin = acIn` in the else branch: the midpoint of the input range gives the top resonance, 50 | not executed | LarvaSynth.BellCurveAsWritten | LarvaSynth.BellCurve |
