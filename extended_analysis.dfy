/**
  The extended stress/deception scoring rule behind `POST /api/analyze` in
  api/index.py. Three facial-geometry flags add fixed points and a feedback
  phrase each, a capped pulse term and a capped jitter term are added, a
  trigger multiplier of 1.3 is applied during a probed interval, and the
  result is clamped to 100 and mapped to one of three verdict tiers.
*/
module ExtendedAnalysis {
  import opened Builtins

  /** The request body: one measurement cycle. `mode` is passed through unread. */
  datatype Request = Request(
    baselineJitter: real,
    currentJitter: real,
    browDist: real,
    eyeRatio: real,
    mouthTension: real,
    pulseVal: real,
    mode: string,
    isTriggered: bool)

  /** The three verdict tiers, highest severity first. */
  datatype Verdict = HighDeceptionPanic | CognitiveConflict | NeutralCoherent
  {
    /** The verdict string the endpoint returns. */
    function Text(): string
    {
      match this
      case HighDeceptionPanic => "HIGH DECEPTION / PANIC"
      case CognitiveConflict => "COGNITIVE CONFLICT"
      case NeutralCoherent => "NEUTRAL / COHERENT"
    }
  }

  /** The `mind_state` rationale paired with each verdict (its wording is not modelled). */
  datatype MindState = DefensiveMode | ProcessingStrain | CognitiveCoherence

  /** The response body, with the score left unrounded. */
  datatype Response = Response(
    score: real,
    verdict: Verdict,
    mindState: MindState,
    scientificFeedback: string,
    modeActive: string)

  /** The facial-geometry flags, in the order the handler tests them. */
  datatype Flag = BrowFurrow | EyeNarrowing | MouthPress

  const FlagOrder: seq<Flag> := [BrowFurrow, EyeNarrowing, MouthPress]

  /** Whether a flag's threshold test fires on this cycle. */
  predicate Fires(data: Request, f: Flag)
  {
    match f
    case BrowFurrow => data.browDist < 0.15
    case EyeNarrowing => data.eyeRatio < 0.1
    case MouthPress => data.mouthTension > 0.4
  }

  /** The points a fired flag adds to the score. */
  function Points(f: Flag): (p: real)
    ensures p > 0.0
  {
    match f
    case BrowFurrow => 25.0
    case EyeNarrowing => 20.0
    case MouthPress => 20.0
  }

  /** The feedback phrase a fired flag appends: a sentence ending in a space, so phrases stay apart. */
  function Phrase(f: Flag): (phrase: string)
    ensures |phrase| > 2 && phrase[|phrase| - 2] == '.' && phrase[|phrase| - 1] == ' '
  {
    match f
    case BrowFurrow => "Cognitive Load detected. "
    case EyeNarrowing => "Possible avoidance behavior. "
    case MouthPress => "Speech suppression signs. "
  }

  /** The flags of `fs` that fire on `data`, kept in the order of `fs`. */
  function FiredAmong(data: Request, fs: seq<Flag>): (fired: seq<Flag>)
    ensures |fired| <= |fs|
  {
    if fs == [] then []
    else FiredIf(data, fs[0]) + FiredAmong(data, fs[1..])
  }

  /** A flag is among the fired ones iff it was tested and its test passes. */
  lemma {:induction false} FiredAmongMembers(data: Request, fs: seq<Flag>, f: Flag)
    ensures f in FiredAmong(data, fs) <==> f in fs && Fires(data, f)
  {
    if fs != [] {
      FiredAmongMembers(data, fs[1..], f);
      assert fs == [fs[0]] + fs[1..];
    }
  }

  /** The points a flag test adds: the flag's points if it fires, else nothing. */
  function PointsIf(data: Request, f: Flag): real
  {
    if Fires(data, f) then Points(f) else 0.0
  }

  /** The text a flag test appends: the flag's phrase if it fires, else nothing. */
  function PhraseIf(data: Request, f: Flag): string
  {
    if Fires(data, f) then Phrase(f) else ""
  }

  /** The flag itself if it fires, else nothing. */
  function FiredIf(data: Request, f: Flag): seq<Flag>
  {
    if Fires(data, f) then [f] else []
  }

  /** The flags that fire on this cycle, in testing order. */
  function FiredFlags(data: Request): seq<Flag>
  {
    FiredAmong(data, FlagOrder)
  }

  /** The points added by a sequence of fired flags. */
  function PointsOf(fs: seq<Flag>): (total: real)
    ensures total >= 0.0
  {
    if fs == [] then 0.0 else Points(fs[0]) + PointsOf(fs[1..])
  }

  /** The feedback text built from a sequence of fired flags. */
  function Feedback(fs: seq<Flag>): string
  {
    if fs == [] then "" else Phrase(fs[0]) + Feedback(fs[1..])
  }

  /** The facial contribution to the score. */
  function FacialPoints(data: Request): real
  {
    PointsOf(FiredFlags(data))
  }

  /** The pulse term, `min(pulse_val * 10, 35)`. */
  function PulseImpact(pulseVal: real): (impact: real)
    ensures impact <= 35.0
    ensures pulseVal >= 0.0 ==> impact >= 0.0
  {
    Min(pulseVal * 10.0, 35.0)
  }

  /** The jitter factor, the distance between current and baseline jitter. */
  function JitterFactor(baseline: real, current: real): (factor: real)
    ensures factor >= 0.0
  {
    Abs(current - baseline)
  }

  /** The jitter term, `min(jitter_factor * 12, 30)`. */
  function JitterTerm(factor: real): (term: real)
    ensures term <= 30.0
    ensures factor >= 0.0 ==> term >= 0.0
  {
    Min(factor * 12.0, 30.0)
  }

  /** The score before the trigger multiplier and the clamp. */
  function BaseScore(data: Request): real
  {
    FacialPoints(data) + PulseImpact(data.pulseVal)
      + JitterTerm(JitterFactor(data.baselineJitter, data.currentJitter))
  }

  /** The score after the trigger multiplier, before the clamp. */
  function PreClampScore(data: Request): real
  {
    if data.isTriggered then BaseScore(data) * 1.3 else BaseScore(data)
  }

  /** The clamped score the verdict is computed from. */
  function FinalScore(data: Request): (score: real)
    ensures score <= 100.0
    ensures score <= PreClampScore(data)
    ensures score == 100.0 || score == PreClampScore(data)
  {
    Min(PreClampScore(data), 100.0)
  }

  /** The verdict tier of a clamped score. */
  function VerdictOf(score: real): Verdict
  {
    if score > 80.0 then HighDeceptionPanic
    else if score > 50.0 then CognitiveConflict
    else NeutralCoherent
  }

  /** The `mind_state` paired with each verdict. */
  function MindStateOf(v: Verdict): MindState
  {
    match v
    case HighDeceptionPanic => DefensiveMode
    case CognitiveConflict => ProcessingStrain
    case NeutralCoherent => CognitiveCoherence
  }

  /** One flag test of the handler: if the flag fires, add its points and append its phrase. */
  method AddIfFires(data: Request, f: Flag, score: real, feedback: string)
    returns (score': real, feedback': string)
    ensures score' == score + PointsIf(data, f)
    ensures feedback' == feedback + PhraseIf(data, f)
  {
    score', feedback' := score, feedback;
    if Fires(data, f) {
      score' := score' + Points(f);
      feedback' := feedback' + Phrase(f);
    }
  }

  /**
    The micro-expression section of the handler: test the three flags in
    order, adding each fired flag's points and appending its phrase.
  */
  method ScoreFacialFlags(data: Request) returns (score: real, feedback: string)
    ensures score == FacialPoints(data)
    ensures 0.0 <= score <= 65.0
    ensures feedback == Feedback(FiredFlags(data))
  {
    score, feedback := 0.0, "";
    score, feedback := AddIfFires(data, BrowFurrow, score, feedback);
    score, feedback := AddIfFires(data, EyeNarrowing, score, feedback);
    score, feedback := AddIfFires(data, MouthPress, score, feedback);
    FacialSteps(data);
    // The feedback here is `"" + PhraseIf(..) + ...`; dropping the leading
    // empty string matches FacialSteps without the solver searching for it.
    assert "" + PhraseIf(data, BrowFurrow) == PhraseIf(data, BrowFurrow);
    FacialPointsClosedForm(data);
  }

  /** The handler body: accumulate score and feedback, scale, clamp, pick a verdict. */
  method Analyze(data: Request) returns (resp: Response)
    ensures resp.score == FinalScore(data)
    ensures resp.score <= 100.0
    ensures data.pulseVal >= 0.0 ==> resp.score >= 0.0
    ensures resp.verdict == VerdictOf(resp.score)
    ensures resp.mindState == MindStateOf(resp.verdict)
    ensures resp.scientificFeedback == Feedback(FiredFlags(data))
    ensures resp.modeActive == data.mode
  {
    var score, feedback := ScoreFacialFlags(data);
    score := score + PulseImpact(data.pulseVal);
    score := score + JitterTerm(JitterFactor(data.baselineJitter, data.currentJitter));
    if data.isTriggered {
      score := score * 1.3;
    }
    assert score == PreClampScore(data);
    score := Min(score, 100.0);

    var verdict, mindState;
    if score > 80.0 {
      verdict, mindState := HighDeceptionPanic, DefensiveMode;
    } else if score > 50.0 {
      verdict, mindState := CognitiveConflict, ProcessingStrain;
    } else {
      verdict, mindState := NeutralCoherent, CognitiveCoherence;
    }
    resp := Response(score, verdict, mindState, feedback, data.mode);
  }

  // ---------------------------------------------------------------------
  // Facial flags

  /** The points of a concatenation are the sum of the points of the parts. */
  lemma {:induction false} PointsOfAppend(a: seq<Flag>, b: seq<Flag>)
    ensures PointsOf(a + b) == PointsOf(a) + PointsOf(b)
  {
    if a == [] {
      assert a + b == b;
    } else {
      assert (a + b)[1..] == a[1..] + b;
      PointsOfAppend(a[1..], b);
    }
  }

  /** The feedback of a concatenation is the concatenation of the parts' feedback. */
  lemma {:induction false} FeedbackAppend(a: seq<Flag>, b: seq<Flag>)
    ensures Feedback(a + b) == Feedback(a) + Feedback(b)
  {
    if a == [] {
      assert a + b == b;
    } else {
      assert (a + b)[1..] == a[1..] + b;
      FeedbackAppend(a[1..], b);
    }
  }

  /** The fired flags are exactly those whose threshold test passes, in testing order. */
  lemma FiredFlagsClosedForm(data: Request)
    ensures FiredFlags(data)
      == FiredIf(data, BrowFurrow) + FiredIf(data, EyeNarrowing) + FiredIf(data, MouthPress)
  {
    assert FlagOrder[1..] == [EyeNarrowing, MouthPress];
    assert [EyeNarrowing, MouthPress][1..] == [MouthPress];
    assert [MouthPress][1..] == [];
    assert FiredAmong(data, [MouthPress]) == FiredIf(data, MouthPress) + FiredAmong(data, []);
    assert FiredAmong(data, [EyeNarrowing, MouthPress])
      == FiredIf(data, EyeNarrowing) + FiredAmong(data, [MouthPress]);
  }

  /** A flag tested on its own contributes its points and phrase iff it fires. */
  lemma FiredIfContributes(data: Request, f: Flag)
    ensures PointsOf(FiredIf(data, f)) == PointsIf(data, f)
    ensures Feedback(FiredIf(data, f)) == PhraseIf(data, f)
  {
  }

  /** The facial points and feedback are the three flag tests' contributions, in testing order. */
  lemma FacialSteps(data: Request)
    ensures FacialPoints(data)
      == PointsIf(data, BrowFurrow) + PointsIf(data, EyeNarrowing) + PointsIf(data, MouthPress)
    ensures Feedback(FiredFlags(data))
      == PhraseIf(data, BrowFurrow) + PhraseIf(data, EyeNarrowing) + PhraseIf(data, MouthPress)
  {
    var b, e, m := FiredIf(data, BrowFurrow), FiredIf(data, EyeNarrowing), FiredIf(data, MouthPress);
    FiredFlagsClosedForm(data);
    PointsOfAppend(b + e, m);
    PointsOfAppend(b, e);
    FeedbackAppend(b + e, m);
    FeedbackAppend(b, e);
    FiredIfContributes(data, BrowFurrow);
    FiredIfContributes(data, EyeNarrowing);
    FiredIfContributes(data, MouthPress);
  }

  /** The facial contribution is 25·[brow < 0.15] + 20·[eye < 0.1] + 20·[mouth > 0.4]. */
  lemma FacialPointsClosedForm(data: Request)
    ensures FacialPoints(data)
      == (if data.browDist < 0.15 then 25.0 else 0.0)
       + (if data.eyeRatio < 0.1 then 20.0 else 0.0)
       + (if data.mouthTension > 0.4 then 20.0 else 0.0)
    ensures 0.0 <= FacialPoints(data) <= 65.0
  {
    FacialSteps(data);
  }

  /** The feedback is the phrases of exactly the fired flags, concatenated in testing order. */
  lemma FeedbackClosedForm(data: Request)
    ensures Feedback(FiredFlags(data))
      == (if data.browDist < 0.15 then "Cognitive Load detected. " else "")
       + (if data.eyeRatio < 0.1 then "Possible avoidance behavior. " else "")
       + (if data.mouthTension > 0.4 then "Speech suppression signs. " else "")
  {
    FacialSteps(data);
  }

  /** Two cycles with the same facial measurements get the same facial points. */
  lemma FacialPointsOnlyFacial(d1: Request, d2: Request)
    requires d1.browDist == d2.browDist && d1.eyeRatio == d2.eyeRatio
    requires d1.mouthTension == d2.mouthTension
    ensures FacialPoints(d1) == FacialPoints(d2)
  {
    FacialPointsClosedForm(d1);
    FacialPointsClosedForm(d2);
  }

  lemma {:induction false} PointsOfFiredMonotone(d1: Request, d2: Request, fs: seq<Flag>)
    requires forall f :: Fires(d1, f) ==> Fires(d2, f)
    ensures PointsOf(FiredAmong(d1, fs)) <= PointsOf(FiredAmong(d2, fs))
  {
    if fs != [] {
      PointsOfAppend(FiredIf(d1, fs[0]), FiredAmong(d1, fs[1..]));
      PointsOfAppend(FiredIf(d2, fs[0]), FiredAmong(d2, fs[1..]));
      FiredIfContributes(d1, fs[0]);
      FiredIfContributes(d2, fs[0]);
      PointsOfFiredMonotone(d1, d2, fs[1..]);
    }
  }

  // ---------------------------------------------------------------------
  // Score bounds

  /** The final score never exceeds 100, and is non-negative when the pulse is. */
  lemma ScoreNonNegative(data: Request)
    requires data.pulseVal >= 0.0
    ensures 0.0 <= BaseScore(data) <= PreClampScore(data)
    ensures 0.0 <= FinalScore(data) <= 100.0
  {
  }

  /** The jitter factor is symmetric in the current and baseline jitter. */
  lemma JitterFactorSymmetric(baseline: real, current: real)
    ensures JitterFactor(baseline, current) == JitterFactor(current, baseline)
  {
  }

  // ---------------------------------------------------------------------
  // Trigger multiplier

  /** Before the clamp, the triggered score is exactly 1.3 times the untriggered one. */
  lemma TriggerScalesBase(data: Request)
    ensures PreClampScore(data.(isTriggered := true))
         == 1.3 * PreClampScore(data.(isTriggered := false))
  {
    FacialPointsOnlyFacial(data.(isTriggered := true), data.(isTriggered := false));
  }

  /** The trigger never lowers the final score exactly when the base score is non-negative. */
  lemma TriggerNeverLowersIff(data: Request)
    ensures FinalScore(data.(isTriggered := true)) >= FinalScore(data.(isTriggered := false))
        <==> BaseScore(data) >= 0.0
  {
    FacialPointsOnlyFacial(data, data.(isTriggered := true));
    FacialPointsOnlyFacial(data, data.(isTriggered := false));
  }

  /** With a non-negative pulse, the triggered final score is at least the untriggered one. */
  lemma TriggerNeverLowers(data: Request)
    requires data.pulseVal >= 0.0
    ensures FinalScore(data.(isTriggered := true)) >= FinalScore(data.(isTriggered := false))
  {
    ScoreNonNegative(data);
    TriggerNeverLowersIff(data);
  }

  // ---------------------------------------------------------------------
  // Monotonicity

  /** A higher pulse never lowers the final score. */
  lemma MonotoneInPulse(data: Request, pulseVal: real)
    requires data.pulseVal <= pulseVal
    ensures FinalScore(data) <= FinalScore(data.(pulseVal := pulseVal))
  {
    FacialPointsOnlyFacial(data, data.(pulseVal := pulseVal));
  }

  /** A larger jitter difference never lowers the final score. */
  lemma MonotoneInJitter(data: Request, baseline: real, current: real)
    requires JitterFactor(data.baselineJitter, data.currentJitter) <= JitterFactor(baseline, current)
    ensures FinalScore(data) <= FinalScore(data.(baselineJitter := baseline, currentJitter := current))
  {
    FacialPointsOnlyFacial(data, data.(baselineJitter := baseline, currentJitter := current));
  }

  /** Firing more facial flags never lowers the final score. */
  lemma MonotoneInFlags(d1: Request, d2: Request)
    requires d1.pulseVal == d2.pulseVal && d1.isTriggered == d2.isTriggered
    requires d1.baselineJitter == d2.baselineJitter && d1.currentJitter == d2.currentJitter
    requires forall f :: Fires(d1, f) ==> Fires(d2, f)
    ensures FinalScore(d1) <= FinalScore(d2)
  {
    PointsOfFiredMonotone(d1, d2, FlagOrder);
  }

  /** Firing strictly more facial flags never lowers the final score. */
  lemma MonotoneInFlagCount(d1: Request, d2: Request)
    requires d1.pulseVal == d2.pulseVal && d1.isTriggered == d2.isTriggered
    requires d1.baselineJitter == d2.baselineJitter && d1.currentJitter == d2.currentJitter
    requires |FiredFlags(d1)| < |FiredFlags(d2)|
    ensures FinalScore(d1) <= FinalScore(d2)
  {
    FiredFlagsClosedForm(d1);
    FiredFlagsClosedForm(d2);
    FacialPointsClosedForm(d1);
    FacialPointsClosedForm(d2);
    assert |FiredFlags(d1)| == |FiredIf(d1, BrowFurrow)| + |FiredIf(d1, EyeNarrowing)| + |FiredIf(d1, MouthPress)|;
    assert |FiredFlags(d2)| == |FiredIf(d2, BrowFurrow)| + |FiredIf(d2, EyeNarrowing)| + |FiredIf(d2, MouthPress)|;
  }

  /** With the same number of fired flags the score can drop: brow alone gives 25, eye alone 20. */
  lemma EqualFlagCountCanLower(mode: string)
    ensures var browOnly := Request(0.0, 0.0, 0.1, 0.5, 0.0, 0.0, mode, false);
      var eyeOnly := Request(0.0, 0.0, 0.5, 0.05, 0.0, 0.0, mode, false);
      |FiredFlags(browOnly)| == |FiredFlags(eyeOnly)| == 1
      && FinalScore(browOnly) == 25.0 && FinalScore(eyeOnly) == 20.0
  {
    var browOnly := Request(0.0, 0.0, 0.1, 0.5, 0.0, 0.0, mode, false);
    var eyeOnly := Request(0.0, 0.0, 0.5, 0.05, 0.0, 0.0, mode, false);
    FiredFlagsClosedForm(browOnly);
    FiredFlagsClosedForm(eyeOnly);
    FacialPointsClosedForm(browOnly);
    FacialPointsClosedForm(eyeOnly);
  }

  // ---------------------------------------------------------------------
  // Verdict

  /** The verdict tiers partition the scores: each score gets exactly one, by threshold. */
  lemma VerdictTiers(score: real)
    ensures VerdictOf(score) == HighDeceptionPanic <==> score > 80.0
    ensures VerdictOf(score) == CognitiveConflict <==> 50.0 < score <= 80.0
    ensures VerdictOf(score) == NeutralCoherent <==> score <= 50.0
  {
  }

  // ---------------------------------------------------------------------
  // Worked cases

  /** No flags, no pulse and equal jitters give score 0 and the neutral verdict. */
  lemma WorkedNeutral(mode: string, jitter: real)
    ensures var data := Request(jitter, jitter, 0.5, 0.5, 0.0, 0.0, mode, false);
      FinalScore(data) == 0.0 && VerdictOf(FinalScore(data)) == NeutralCoherent
  {
    FacialPointsClosedForm(Request(jitter, jitter, 0.5, 0.5, 0.0, 0.0, mode, false));
  }

  /** All flags, saturated pulse and jitter, triggered: clamped to 100, highest tier. */
  lemma WorkedSaturated(mode: string)
    ensures var data := Request(0.0, 5.0, 0.1, 0.05, 0.5, 10.0, mode, true);
      FinalScore(data) == 100.0 && VerdictOf(FinalScore(data)) == HighDeceptionPanic
  {
  }
}
