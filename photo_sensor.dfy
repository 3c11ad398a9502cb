/** PhotoSensReader: the light sensor's control-rate logic. A 128-slot
    circular moving average of the raw readings drives a gain calibration
    stepper; a counter flags saturation after a run of extreme readings; and
    the reading, corrected for the gain, is mapped from decibels onto the
    synth's light range [0, 1050]. */
module PhotoSensor {
  import opened Platform
  import opened LarvaDefs

  /** mSatCounterMax. */
  const SatCounterMax: int := 10
  /** The decibel window of the scaled output. */
  const DbMin: real := -48.18
  const DbMax: real := 72.25
  /** The ESP32's 12-bit analogRead delivers values in [0, 4095]. */
  const AdcMax: int := 4095

  // ------------------------------------------------------------------ state

  /** The sensor's fields, the averaging buffer as a sequence. */
  datatype SensorState = SensorState(luxRaw: int, satCounter: int, saturated: bool, luxScaled: int,
                                     calibrating: bool, luxRawAvg: int, avgBuf: seq<int>, avgInd: int,
                                     gain: int, timestamp: ULong)

  predicate Reading(v: int)
  {
    0 <= v <= AdcMax
  }

  predicate SensorInv(s: SensorState)
  {
    |s.avgBuf| == GainCalibAvgSize && 0 <= s.avgInd < GainCalibAvgSize &&
    (forall i :: 0 <= i < GainCalibAvgSize ==> Reading(s.avgBuf[i])) &&
    0 <= s.satCounter <= SatCounterMax &&
    SensorGainMin <= s.gain <= SensorGainMax
  }

  /** The reader as the program's global instance starts: every field zero,
      the buffer zeroed by static initialisation. */
  function InitialSensor(): (s: SensorState)
    ensures SensorInv(s) && s.gain == 0 && !s.saturated && !s.calibrating
  {
    SensorState(0, 0, false, 0, false, 0, seq(GainCalibAvgSize, _ => 0), 0, 0, 0)
  }

  // ---------------------------------------------------------- moving average

  function Sum(xs: seq<int>): int
  {
    if |xs| == 0 then 0 else Sum(xs[..|xs| - 1]) + xs[|xs| - 1]
  }

  /** The buffer's mean in C integer division. */
  function Mean(xs: seq<int>): int
  {
    DivT(Sum(xs), GainCalibAvgSize)
  }

  /** Sums of values within [lo, hi] lie within |xs| times the bounds. */
  lemma {:induction false} SumBounds(xs: seq<int>, lo: int, hi: int)
    requires forall i :: 0 <= i < |xs| ==> lo <= xs[i] <= hi
    ensures |xs| * lo <= Sum(xs) <= |xs| * hi
  {
    if |xs| > 0 {
      SumBounds(xs[..|xs| - 1], lo, hi);
    }
  }

  /** The mean of 128 readings is itself a reading, and is the floor of the
      average. */
  lemma MeanBounds(xs: seq<int>)
    requires |xs| == GainCalibAvgSize && forall i :: 0 <= i < |xs| ==> Reading(xs[i])
    ensures Reading(Mean(xs)) && Mean(xs) == Sum(xs) / GainCalibAvgSize
  {
    SumBounds(xs, 0, AdcMax);
  }

  /** LuxMovAvg: the reading goes into slot avgInd, the index moves on modulo
      128, and the mean of the whole buffer is the new average. */
  function AvgPushed(s: SensorState, v: int): (r: SensorState)
    requires SensorInv(s) && Reading(v)
    ensures SensorInv(r) && Reading(r.luxRawAvg)
  {
    var buf := s.avgBuf[s.avgInd := v];
    MeanBounds(buf);
    s.(avgBuf := buf, avgInd := (s.avgInd + 1) % GainCalibAvgSize, luxRawAvg := Mean(buf))
  }

  /** Pushing writes only the current slot and advances the index cyclically;
      a buffer filled with one reading averages to that reading. */
  lemma AvgPushedSlot(s: SensorState, v: int)
    requires SensorInv(s) && Reading(v)
    ensures var r := AvgPushed(s, v);
      r.avgBuf[s.avgInd] == v &&
      (forall j :: 0 <= j < GainCalibAvgSize && j != s.avgInd ==> r.avgBuf[j] == s.avgBuf[j]) &&
      r.avgInd == (if s.avgInd == GainCalibAvgSize - 1 then 0 else s.avgInd + 1) &&
      ((forall j :: 0 <= j < GainCalibAvgSize ==> r.avgBuf[j] == v) ==> r.luxRawAvg == v)
  {
    var r := AvgPushed(s, v);
    if forall j :: 0 <= j < GainCalibAvgSize ==> r.avgBuf[j] == v {
      SumBounds(r.avgBuf, v, v);
    }
  }

  // -------------------------------------------------------------- saturation

  /** The saturation logic of Update for one reading: an in-range reading
      (1 to 4094) clears counter and flag; an extreme one counts up to 10,
      and only once the counter is at 10 sets the flag. */
  function SatTicked(counter: int, saturated: bool, raw: int): (r: (int, bool))
  {
    if raw < LuxRawThresMin || raw > LuxRawThresMax then
      if counter >= SatCounterMax then (counter, true) else (counter + 1, saturated)
    else (0, false)
  }

  /** The counter and flag after a run of readings. */
  function SatAfter(counter: int, saturated: bool, raws: seq<int>): (int, bool)
  {
    if |raws| == 0 then (counter, saturated)
    else
      var p := SatAfter(counter, saturated, raws[..|raws| - 1]);
      SatTicked(p.0, p.1, raws[|raws| - 1])
  }

  predicate Extreme(v: int)
  {
    v < LuxRawThresMin || v > LuxRawThresMax
  }

  /** From an unsaturated count c, k extreme readings leave the counter at
      min(c + k, 10) and raise the flag exactly when c + k exceeds 10: from
      a cleared counter the flag rises on the 11th extreme reading. */
  lemma {:induction false} SaturationRun(c: int, raws: seq<int>)
    requires 0 <= c <= SatCounterMax
    requires forall i :: 0 <= i < |raws| ==> Extreme(raws[i])
    ensures SatAfter(c, false, raws) == (Min(c + |raws|, SatCounterMax), c + |raws| > SatCounterMax)
  {
    if |raws| > 0 {
      SaturationRun(c, raws[..|raws| - 1]);
    }
  }

  /** An in-range reading clears the counter and the flag, whatever came
      before; an extreme one never lowers the counter nor clears the flag. */
  lemma SatTickedCases(counter: int, saturated: bool, raw: int)
    requires 0 <= counter <= SatCounterMax
    ensures var r := SatTicked(counter, saturated, raw);
      0 <= r.0 <= SatCounterMax &&
      (!Extreme(raw) <==> r == (0, false)) &&
      (Extreme(raw) ==> r.0 >= counter && (saturated ==> r.1))
  {
  }

  // ------------------------------------------------------------- calibration

  /** Calibrate: enter calibration; once more than 100 ms have passed since
      the last step, step the gain by one, up while the average is below
      1000 and down otherwise; at or beyond either end of [0, 255] the gain
      is clamped and calibration ends. The digipot write is left out. */
  function Calibrated(s: SensorState, now: ULong): (r: SensorState)
  {
    var s1 := s.(calibrating := true);
    if Elapsed(now, s.timestamp) > GainModPeriodMs then
      var g := s.gain + (if s.luxRawAvg < LuxRawAvgThresMin then SensorGainStep else -SensorGainStep);
      if g >= SensorGainMax || g <= SensorGainMin then
        var g1 := if g > SensorGainMax then SensorGainMax else g;
        s1.(timestamp := now, gain := if g1 < SensorGainMin then SensorGainMin else g1, calibrating := false)
      else s1.(timestamp := now, gain := g)
    else s1
  }

  /** A calibration step: inside 100 ms only the flag is raised; otherwise the
      gain moves by exactly one in the direction of the average, unless that
      would leave [0, 255], it stays within [0, 255], and calibration ends
      exactly when the gain lands on an end of the range. */
  lemma CalibrateStep(s: SensorState, now: ULong)
    requires SensorInv(s)
    ensures var r := Calibrated(s, now);
      SensorInv(r) &&
      r.(gain := s.gain, timestamp := s.timestamp, calibrating := s.calibrating) == s &&
      (Elapsed(now, s.timestamp) <= GainModPeriodMs ==> r == s.(calibrating := true)) &&
      (Elapsed(now, s.timestamp) > GainModPeriodMs ==>
        r.timestamp == now &&
        (s.luxRawAvg < LuxRawAvgThresMin ==> r.gain == Min(s.gain + 1, SensorGainMax)) &&
        (s.luxRawAvg >= LuxRawAvgThresMin ==> r.gain == Max(s.gain - 1, SensorGainMin)) &&
        (r.calibrating <==> SensorGainMin < r.gain < SensorGainMax))
  {
  }

  // ----------------------------------------------------------------- scaling

  /** limitf. */
  function Limit(x: real, lo: real, hi: real): (r: real)
  {
    if x < lo then lo else if x > hi then hi else x
  }

  lemma LimitBounds(x: real, lo: real, hi: real)
    requires lo <= hi
    ensures lo <= Limit(x, lo, hi) <= hi
    ensures lo <= x <= hi ==> Limit(x, lo, hi) == x
  {
  }

  /** The output of Update: the reading divided by gain + 1, in decibels
      through the injected log10, limited to [-48.18, 72.25] dB, normalised
      and rounded onto [0, 1050]. */
  function ScaledLux(num: Numerics, raw: int, gain: int): int
    requires gain >= 0
  {
    var vlux := raw as real / (gain as real + 1.0);
    var db := Limit(20.0 * num.log10f(vlux), DbMin, DbMax);
    Round((db - DbMin) / (DbMax - DbMin) * LightRange)
  }

  /** Whatever log10 returns, the scaled lux lies in [0, 1050]. */
  lemma ScaledLuxBounds(num: Numerics, raw: int, gain: int)
    requires gain >= 0
    ensures 0 <= ScaledLux(num, raw, gain) <= 1050
  {
    var vlux := raw as real / (gain as real + 1.0);
    var db := Limit(20.0 * num.log10f(vlux), DbMin, DbMax);
    LimitBounds(20.0 * num.log10f(vlux), DbMin, DbMax);
    var t := (db - DbMin) / (DbMax - DbMin);
    assert 0.0 <= t <= 1.0;
    assert 0.0 <= t * LightRange <= 1050.0;
  }

  /** The ends of the scale: a reading whose level is at or below -48.18 dB
      (a dark reading of 0, when log10 of 0 lies that low, as its -infinity
      does) gives 0, and one at or above 72.25 dB gives 1050. */
  lemma ScaledLuxEnds(num: Numerics, raw: int, gain: int)
    requires gain >= 0
    ensures raw == 0 && 20.0 * num.log10f(0.0) <= DbMin ==> ScaledLux(num, raw, gain) == 0
    ensures 20.0 * num.log10f(raw as real / (gain as real + 1.0)) >= DbMax ==> ScaledLux(num, raw, gain) == 1050
  {
    if raw == 0 {
      assert raw as real / (gain as real + 1.0) == 0.0;
    }
  }

  // ------------------------------------------------------------------ update

  /** PhotoSensReader::Update with the reading raw and millis() now: store
      and average the reading; calibrate while the average is outside
      [1000, 3000], else leave calibration; track saturation; scale. */
  function SensorUpdated(s: SensorState, num: Numerics, raw: int, now: ULong): (r: SensorState)
    requires SensorInv(s) && Reading(raw)
    ensures SensorInv(r)
  {
    var c := CalibrationTicked(AvgPushed(s.(luxRaw := raw), raw), now);
    var sat := SatTicked(c.satCounter, c.saturated, raw);
    c.(satCounter := sat.0, saturated := sat.1, luxScaled := ScaledLux(num, raw, c.gain))
  }

  /** The calibration part of Update, on the new average. */
  function CalibrationTicked(a: SensorState, now: ULong): (r: SensorState)
    requires SensorInv(a)
    ensures SensorInv(r)
  {
    CalibrateStep(a, now);
    if a.luxRawAvg < LuxRawAvgThresMin || a.luxRawAvg > LuxRawAvgThresMax then Calibrated(a, now)
    else if a.calibrating then a.(calibrating := false) else a
  }

  /** An update calibrates exactly when the new average is out of range, and
      otherwise leaves the gain and timestamp alone with calibration off; the
      scaled output is in [0, 1050]; the saturation state follows SatTicked. */
  lemma UpdateCalibrates(s: SensorState, num: Numerics, raw: int, now: ULong)
    requires SensorInv(s) && Reading(raw)
    ensures var r := SensorUpdated(s, num, raw, now); var a := AvgPushed(s.(luxRaw := raw), raw);
      r.luxRaw == raw && r.luxRawAvg == a.luxRawAvg &&
      (a.luxRawAvg < LuxRawAvgThresMin || a.luxRawAvg > LuxRawAvgThresMax ==>
        r.gain == Calibrated(a, now).gain && r.timestamp == Calibrated(a, now).timestamp &&
        r.calibrating == Calibrated(a, now).calibrating) &&
      (LuxRawAvgThresMin <= a.luxRawAvg <= LuxRawAvgThresMax ==>
        r.gain == s.gain && r.timestamp == s.timestamp && !r.calibrating) &&
      (r.satCounter, r.saturated) == SatTicked(s.satCounter, s.saturated, raw) &&
      0 <= r.luxScaled <= 1050
  {
    var r := SensorUpdated(s, num, raw, now);
    var a := AvgPushed(s.(luxRaw := raw), raw);
    ScaledLuxBounds(num, raw, r.gain);
  }

  // ------------------------------------------------------------------- class

  /** The reader object: its fields and its 128-slot averaging buffer. */
  class PhotoSensReader {
    const num: Numerics
    var luxRaw: int
    var satCounter: int
    var saturated: bool
    var luxScaled: int
    var calibrating: bool
    var luxRawAvg: int
    const avgBuf: array<int>
    var avgInd: int
    var gain: int
    var timestamp: ULong

    ghost function Model(): SensorState
      reads this, avgBuf
    {
      SensorState(luxRaw, satCounter, saturated, luxScaled, calibrating, luxRawAvg, avgBuf[..], avgInd,
        gain, timestamp)
    }

    ghost predicate Valid()
      reads this, avgBuf
    {
      avgBuf.Length == GainCalibAvgSize && SensorInv(Model())
    }

    constructor (num: Numerics)
      ensures Valid() && Model() == InitialSensor() && this.num == num
    {
      this.num := num;
      luxRaw, satCounter, saturated, luxScaled := 0, 0, false, 0;
      calibrating, luxRawAvg, avgInd, gain, timestamp := false, 0, 0, 0, 0;
      avgBuf := new int[GainCalibAvgSize](_ => 0);
      new;
      assert avgBuf[..] == InitialSensor().avgBuf;
    }

    /** Update at one control tick, with the analogRead value and millis(). */
    method Update(raw: int, now: ULong)
      requires Valid() && Reading(raw)
      modifies this, avgBuf
      ensures Valid() && Model() == SensorUpdated(old(Model()), num, raw, now)
    {
      ghost var s0 := Model();
      luxRaw := raw;
      luxRawAvg := LuxMovAvg(raw);
      assert Model() == AvgPushed(s0.(luxRaw := raw), raw);
      TickCalibration(now);
      TrackSaturation(raw);
      luxScaled := ScaledLux(num, raw, gain);
    }

    /** The saturation logic of Update. */
    method TrackSaturation(raw: int)
      requires Valid()
      modifies this
      ensures var t := SatTicked(old(satCounter), old(saturated), raw);
        Model() == old(Model()).(satCounter := t.0, saturated := t.1)
    {
      if raw < LuxRawThresMin || raw > LuxRawThresMax {
        if satCounter >= SatCounterMax {
          saturated := true;
        } else {
          satCounter := satCounter + 1;
        }
      } else {
        satCounter := 0;
        saturated := false;
      }
    }

    /** Calibrate while the average is out of range, else leave calibration. */
    method TickCalibration(now: ULong)
      requires Valid()
      modifies this
      ensures Valid() && Model() == CalibrationTicked(old(Model()), now)
    {
      if luxRawAvg < LuxRawAvgThresMin || luxRawAvg > LuxRawAvgThresMax {
        Calibrate(now);
      } else if calibrating {
        calibrating := false;
      }
    }

    /** The gain calibration step. */
    method Calibrate(now: ULong)
      requires Valid()
      modifies this
      ensures Valid() && Model() == Calibrated(old(Model()), now)
    {
      CalibrateStep(Model(), now);
      if !calibrating {
        calibrating := true;
      }
      if Elapsed(now, timestamp) > GainModPeriodMs {
        timestamp := now;
        var delta := if luxRawAvg < LuxRawAvgThresMin then SensorGainStep else -SensorGainStep;
        gain := gain + delta;
        if gain >= SensorGainMax || gain <= SensorGainMin {
          gain := if gain > SensorGainMax then SensorGainMax else gain;
          gain := if gain < SensorGainMin then SensorGainMin else gain;
          calibrating := false;
        }
      }
    }

    /** LuxMovAvg: store the reading, advance the index, sum the buffer. */
    method LuxMovAvg(v: int) returns (avg: int)
      requires Valid() && Reading(v)
      modifies this, avgBuf
      ensures avgBuf[..] == old(avgBuf[..])[old(avgInd) := v]
      ensures avgInd == (old(avgInd) + 1) % GainCalibAvgSize
      ensures avg == Mean(avgBuf[..])
      ensures luxRaw == old(luxRaw) && satCounter == old(satCounter) && saturated == old(saturated)
      ensures luxScaled == old(luxScaled) && calibrating == old(calibrating) && luxRawAvg == old(luxRawAvg)
      ensures gain == old(gain) && timestamp == old(timestamp)
    {
      avgBuf[avgInd] := v;
      avgInd := (avgInd + 1) % GainCalibAvgSize;
      var total := 0;
      var i := 0;
      while i < GainCalibAvgSize
        invariant 0 <= i <= GainCalibAvgSize
        invariant total == Sum(avgBuf[..i])
      {
        assert avgBuf[..i + 1][..i] == avgBuf[..i];
        total := total + avgBuf[i];
        i := i + 1;
      }
      assert avgBuf[..GainCalibAvgSize] == avgBuf[..];
      avg := DivT(total, GainCalibAvgSize);
    }
  }
}
