/**
  The basic stress scoring rule behind `POST /api/analyze` in api/main.py.
  A capped pulse term (30%), a capped vibration term (35%) and two facial
  flags of 17.5 points each (35%) are added, a trigger multiplier of 1.2 is
  applied during a probed interval, the total is clamped to 100 and mapped
  to one of three verdict tiers, and a pulse status label is derived from
  the pulse term.
*/
module BasicAnalysis {
  import opened Builtins

  /** The request body: one measurement cycle. */
  datatype Request = Request(
    baselineJitter: real,
    currentJitter: real,
    browDist: real,
    eyeRatio: real,
    pulseVal: real,
    isTriggered: bool)

  /** The three verdict tiers (their wording is not modelled), highest stress first. */
  datatype Verdict = HighStress | Worried | Calm

  /** The `pulse_status` label: unstable or normal. */
  datatype PulseStatus = Unstable | Normal

  /** The response body, with the score left unrounded. */
  datatype Response = Response(score: real, verdict: Verdict, pulseStatus: PulseStatus)

  /** The pulse term, `min(pulse_val * 8, 30)`. */
  function PulseStress(pulseVal: real): (stress: real)
    ensures stress <= 30.0
    ensures pulseVal >= 0.0 ==> stress >= 0.0
  {
    Min(pulseVal * 8.0, 30.0)
  }

  /** The distance between current and baseline jitter. */
  function JitterDiff(baseline: real, current: real): (diff: real)
    ensures diff >= 0.0
    ensures diff == current - baseline || diff == baseline - current
  {
    Abs(current - baseline)
  }

  /** The vibration term, `min(jitter_diff * 15, 35)`. */
  function VibrationScore(jitterDiff: real): (score: real)
    ensures score <= 35.0
    ensures jitterDiff >= 0.0 ==> score >= 0.0
  {
    Min(jitterDiff * 15.0, 35.0)
  }

  /** The facial term: 17.5 points for a narrow brow and 17.5 for narrowed eyes. */
  function FacialScore(data: Request): (score: real)
    ensures score == 0.0 || score == 17.5 || score == 35.0
    ensures score == 35.0 <==> data.browDist < 0.18 && data.eyeRatio < 0.12
    ensures score == 0.0 <==> !(data.browDist < 0.18) && !(data.eyeRatio < 0.12)
  {
    (if data.browDist < 0.18 then 17.5 else 0.0) + (if data.eyeRatio < 0.12 then 17.5 else 0.0)
  }

  /** How many of the two facial tests pass. */
  function PassedFacialTests(data: Request): (n: nat)
    ensures n <= 2
    ensures FacialScore(data) == 17.5 * n as real
  {
    (if data.browDist < 0.18 then 1 else 0) + (if data.eyeRatio < 0.12 then 1 else 0)
  }

  /** The sum of the three terms, before the trigger multiplier and the clamp. */
  function RawTotal(data: Request): real
  {
    PulseStress(data.pulseVal)
      + VibrationScore(JitterDiff(data.baselineJitter, data.currentJitter))
      + FacialScore(data)
  }

  /** The total after the trigger multiplier, before the clamp. */
  function ScaledTotal(data: Request): real
  {
    if data.isTriggered then RawTotal(data) * 1.2 else RawTotal(data)
  }

  /** The clamped total the verdict is computed from. */
  function Total(data: Request): (total: real)
    ensures total <= 100.0
    ensures total <= ScaledTotal(data)
    ensures total == 100.0 || total == ScaledTotal(data)
  {
    Min(ScaledTotal(data), 100.0)
  }

  /** The verdict tier of a clamped total. */
  function VerdictOf(total: real): Verdict
  {
    if total > 75.0 then HighStress
    else if total > 45.0 then Worried
    else Calm
  }

  /** The pulse status of a pulse term. */
  function PulseStatusOf(pulseStress: real): PulseStatus
  {
    if pulseStress > 20.0 then Unstable else Normal
  }

  /** The handler body: sum the terms, scale, clamp, pick a verdict and a pulse status. */
  method Analyze(data: Request) returns (resp: Response)
    ensures resp.score == Total(data)
    ensures resp.score <= 100.0
    ensures data.pulseVal >= 0.0 ==> resp.score >= 0.0
    ensures resp.verdict == VerdictOf(resp.score)
    ensures resp.pulseStatus == PulseStatusOf(PulseStress(data.pulseVal))
    ensures resp.pulseStatus == Unstable <==> data.pulseVal > 2.5
  {
    var pulseStress := PulseStress(data.pulseVal);
    var jitterDiff := JitterDiff(data.baselineJitter, data.currentJitter);
    var vibrationScore := VibrationScore(jitterDiff);

    var facialScore := 0.0;
    if data.browDist < 0.18 {
      facialScore := facialScore + 17.5;
    }
    if data.eyeRatio < 0.12 {
      facialScore := facialScore + 17.5;
    }

    var total := pulseStress + vibrationScore + facialScore;
    if data.isTriggered {
      total := total * 1.2;
    }
    total := Min(total, 100.0);

    var verdict := Calm;
    if total > 75.0 {
      verdict := HighStress;
    } else if total > 45.0 {
      verdict := Worried;
    }

    PulseStatusThreshold(data.pulseVal);
    resp := Response(total, verdict, PulseStatusOf(pulseStress));
  }

  // ---------------------------------------------------------------------
  // Score bounds

  /** Untriggered, the raw total is at most 30 + 35 + 35 = 100, so the clamp leaves it alone. */
  lemma ClampOnlyWhenTriggered(data: Request)
    requires !data.isTriggered
    ensures RawTotal(data) <= 100.0
    ensures Total(data) == RawTotal(data)
  {
  }

  /** The triggered total is the untriggered total scaled by 1.2 and clamped to 100. */
  lemma TriggeredTotal(data: Request)
    ensures Total(data.(isTriggered := true)) == Min(1.2 * Total(data.(isTriggered := false)), 100.0)
  {
  }

  /** The total never exceeds 100, and is non-negative when the pulse is. */
  lemma TotalBounds(data: Request)
    requires data.pulseVal >= 0.0
    ensures 0.0 <= RawTotal(data)
    ensures 0.0 <= Total(data) <= 100.0
  {
  }

  /** The trigger never lowers the total exactly when the raw total is non-negative. */
  lemma TriggerNeverLowersIff(data: Request)
    ensures Total(data.(isTriggered := true)) >= Total(data.(isTriggered := false))
        <==> RawTotal(data) >= 0.0
  {
  }

  /** With a non-negative pulse, the triggered total is at least the untriggered one. */
  lemma TriggerNeverLowers(data: Request)
    requires data.pulseVal >= 0.0
    ensures Total(data.(isTriggered := true)) >= Total(data.(isTriggered := false))
  {
  }

  // ---------------------------------------------------------------------
  // Monotonicity

  /** A higher pulse never lowers the total. */
  lemma MonotoneInPulse(data: Request, pulseVal: real)
    requires data.pulseVal <= pulseVal
    ensures Total(data) <= Total(data.(pulseVal := pulseVal))
  {
  }

  /** A larger jitter difference never lowers the total. */
  lemma MonotoneInJitter(data: Request, baseline: real, current: real)
    requires JitterDiff(data.baselineJitter, data.currentJitter) <= JitterDiff(baseline, current)
    ensures Total(data) <= Total(data.(baselineJitter := baseline, currentJitter := current))
  {
  }

  /** Firing more facial flags never lowers the total. */
  lemma MonotoneInFlags(d1: Request, d2: Request)
    requires d1.pulseVal == d2.pulseVal && d1.isTriggered == d2.isTriggered
    requires d1.baselineJitter == d2.baselineJitter && d1.currentJitter == d2.currentJitter
    requires d1.browDist < 0.18 ==> d2.browDist < 0.18
    requires d1.eyeRatio < 0.12 ==> d2.eyeRatio < 0.12
    ensures Total(d1) <= Total(d2)
  {
  }

  /** Passing at least as many facial tests never lowers the total. */
  lemma MonotoneInFlagCount(d1: Request, d2: Request)
    requires d1.pulseVal == d2.pulseVal && d1.isTriggered == d2.isTriggered
    requires d1.baselineJitter == d2.baselineJitter && d1.currentJitter == d2.currentJitter
    requires PassedFacialTests(d1) <= PassedFacialTests(d2)
    ensures Total(d1) <= Total(d2)
  {
  }

  // ---------------------------------------------------------------------
  // Verdict and pulse status

  /** The verdict tiers partition the totals: each total gets exactly one, by threshold. */
  lemma VerdictTiers(total: real)
    ensures VerdictOf(total) == HighStress <==> total > 75.0
    ensures VerdictOf(total) == Worried <==> 45.0 < total <= 75.0
    ensures VerdictOf(total) == Calm <==> total <= 45.0
  {
  }

  /** The pulse status is unstable iff the pulse term exceeds 20, i.e. iff the pulse exceeds 2.5. */
  lemma PulseStatusThreshold(pulseVal: real)
    ensures PulseStatusOf(PulseStress(pulseVal)) == Unstable <==> PulseStress(pulseVal) > 20.0
    ensures PulseStatusOf(PulseStress(pulseVal)) == Unstable <==> pulseVal > 2.5
  {
  }

  // ---------------------------------------------------------------------
  // Worked case

  /** Saturated pulse, jitter and facial terms give 30 + 35 + 35 = 100; triggered, still 100 and the highest tier. */
  lemma SaturationCase()
    ensures var data := Request(0.0, 5.0, 0.1, 0.05, 10.0, true);
      RawTotal(data) == 100.0 && Total(data) == 100.0 && VerdictOf(Total(data)) == HighStress
  {
  }
}
