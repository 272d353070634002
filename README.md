# MicroMind stress/deception scoring, modelled in Dafny

MicroMind serves one HTTP endpoint, `POST /api/analyze`. It scores a single measurement cycle of biometric proxies: jitter, facial geometry and a pulse proxy. It returns a score clamped to 100, a verdict tier and some rationale text. The repository has two variants of the handler, and each one is modelled in its own module with its own constants:

- `ExtendedAnalysis` (`extended_analysis.dfy`) models `api/index.py`. Three facial flags add fixed points and each appends a feedback phrase:
  - brow distance below 0.15 adds 25;
  - eye ratio below 0.1 adds 20;
  - mouth tension above 0.4 adds 20.

  The pulse term is `min(pulse·10, 35)` and the jitter term is `min(|Δjitter|·12, 30)`. A triggered cycle multiplies the score by 1.3, and the score is then clamped to 100. The verdicts are "HIGH DECEPTION / PANIC" above 80, "COGNITIVE CONFLICT" above 50 and "NEUTRAL / COHERENT" otherwise, each with its paired `mind_state`. `mode` is echoed back unchanged.
- `BasicAnalysis` (`basic_analysis.dfy`) models `api/main.py`. The pulse term is `min(pulse·8, 30)` and the vibration term is `min(|Δjitter|·15, 35)`. Two facial flags add 17.5 each: brow distance below 0.18 and eye ratio below 0.12. A triggered cycle multiplies the total by 1.2, and the total is then clamped to 100. The verdicts are high stress above 75, worried above 45 and calm otherwise. `pulse_status` is "unstable" when the pulse term exceeds 20.
- `Builtins` (`builtins.dfy`) holds Python's `min` and `abs` over reals.

Each handler is modelled as a method, `Analyze`, written the way the source writes it: local variables built up by `+=`, scaled by `*=`, clamped with `min`, and a verdict chosen by `if`/`elif`. Each method is proved against specification functions (`FinalScore`, `Total`, `VerdictOf`, …), and the properties are proved as lemmas about those functions.

In the extended variant, the handler's first section is the method `ScoreFacialFlags`. The source repeats one pattern three times: test a flag, then add its points and append its phrase. That pattern is written once, as `AddIfFires`, and called three times in the source's order. The three tests are specified by a reference definition. `FiredAmong` filters the fixed flag order `[BrowFurrow, EyeNarrowing, MouthPress]`. `PointsOf` and `Feedback` sum the flags' points and concatenate their phrases. Closed-form lemmas show that this definition is exactly the three threshold tests.

Some behaviours of the code are easy to miss:
- The two variants keep their own constant tables; they are not merged into one table.
- The facial term has no cap of its own. Its largest values (65 and 35) are proved as bounds instead.
- The score can be negative when `pulse_val` is negative, because the request type accepts any float. Non-negativity is therefore proved under `pulse_val ≥ 0`. `TriggerNeverLowersIff` shows that the triggered score is at least the untriggered one exactly when the pre-trigger score is non-negative.
- In the extended variant, the score is non-decreasing in the number of fired facial flags only when that number is strictly larger (`MonotoneInFlagCount`). Brow alone adds 25 and eye alone adds 20, so two cycles with one flag each can differ (`EqualFlagCountCanLower`). In the basic variant every flag adds 17.5, so the score is non-decreasing in the count itself.
- The two `pulse_status` labels are Bengali words for "unstable" and "normal".

## Model

| member | source | states |
|---|---|---|
| `Builtins.Min` | api/index.py:36 | Python's `min`: the result is no greater than either argument and is one of them. Also used at api/index.py:41,44 and api/main.py:21,25,34. |
| `Builtins.Abs` | api/index.py:40 | Python's `abs`: the result is non-negative and is the argument or its negation. Also used at api/main.py:24. |
| `ExtendedAnalysis.Analyze` | api/index.py:18-63 | The response score is the clamped score: at most 100, and at least 0 when pulse ≥ 0. The verdict is the tier of that score and `mind_state` is the one paired with the verdict. The feedback is the phrases of the fired flags in testing order. `mode_active` is the input `mode`. |
| `ExtendedAnalysis.AddIfFires` | api/index.py:24-32 | One flag test adds that flag's points and appends its phrase exactly when the flag fires; otherwise score and feedback are unchanged. |
| `ExtendedAnalysis.ScoreFacialFlags` | api/index.py:20-32 | After the three flag tests, the score is the facial contribution, which lies in [0, 65]. The feedback is the phrases of the fired flags in testing order. |
| `ExtendedAnalysis.FiredAmong` | api/index.py:24-32 | The fired list is never longer than the list of flags tested. |
| `ExtendedAnalysis.FiredAmongMembers` | api/index.py:24-32 | A flag is in the fired list iff it is among the tested flags and its threshold test passes. |
| `ExtendedAnalysis.Fires` | api/index.py:24-30 | Defines the three threshold tests: brow < 0.15, eye < 0.1, mouth > 0.4. |
| `ExtendedAnalysis.Phrase` | api/index.py:26-32 | Each flag's feedback phrase is a non-empty sentence ending in ". ", so concatenated phrases stay separated. |
| `ExtendedAnalysis.PointsIf` | api/index.py:24-31 | Defines the points one flag test adds: the flag's points if it fires, 0 otherwise. |
| `ExtendedAnalysis.PhraseIf` | api/index.py:24-32 | Defines the text one flag test appends: the flag's phrase if it fires, the empty string otherwise. |
| `ExtendedAnalysis.FiredIf` | api/index.py:24-30 | Defines the outcome of one flag test as a list: the flag itself if it fires, empty otherwise. |
| `ExtendedAnalysis.FiredFlags` | api/index.py:24-30 | Defines the flags that fire on a cycle, filtered from the testing order brow, eye, mouth. |
| `ExtendedAnalysis.FacialPoints` | api/index.py:24-31 | Defines the facial part of `score`: the summed points of the fired flags. |
| `ExtendedAnalysis.Feedback` | api/index.py:21-32 | Defines `scientific_feedback` built from a list of fired flags: their phrases concatenated in list order. |
| `ExtendedAnalysis.Points` | api/index.py:25-31 | Every fired flag adds a strictly positive number of points. |
| `ExtendedAnalysis.PointsOf` | api/index.py:24-31 | The points added by any set of fired flags are non-negative. |
| `ExtendedAnalysis.FiredFlagsClosedForm` | api/index.py:24-32 | The fired flags are exactly brow (< 0.15), eye (< 0.1) and mouth (> 0.4), each present iff its test passes, in that order. |
| `ExtendedAnalysis.FiredIfContributes` | api/index.py:24-32 | A single flag contributes its points and its phrase iff it fires, and nothing otherwise. |
| `ExtendedAnalysis.FacialSteps` | api/index.py:24-32 | The facial points are the sum, and the feedback the concatenation, of the three flag tests' contributions in the order brow, eye, mouth. |
| `ExtendedAnalysis.FacialPointsClosedForm` | api/index.py:24-31 | The facial contribution is 25·[brow < 0.15] + 20·[eye < 0.1] + 20·[mouth > 0.4], which lies in [0, 65]. |
| `ExtendedAnalysis.FeedbackClosedForm` | api/index.py:21-32 | `scientific_feedback` is the concatenation of exactly the fired flags' phrases, in the fixed order. |
| `ExtendedAnalysis.FacialPointsOnlyFacial` | api/index.py:24-31 | The facial contribution depends only on brow, eye and mouth. |
| `ExtendedAnalysis.PointsOfFiredMonotone` | api/index.py:24-31 | If every flag that fires on one cycle also fires on another, the first cycle's facial points are no greater. |
| `ExtendedAnalysis.PulseImpact` | api/index.py:36 | The pulse term is at most 35, and non-negative when the pulse is. |
| `ExtendedAnalysis.JitterFactor` | api/index.py:40 | The jitter factor is non-negative. |
| `ExtendedAnalysis.JitterFactorSymmetric` | api/index.py:40 | The jitter factor is symmetric in current and baseline jitter. |
| `ExtendedAnalysis.JitterTerm` | api/index.py:41 | The jitter term is at most 30, and non-negative for a non-negative factor. |
| `ExtendedAnalysis.FinalScore` | api/index.py:43-44 | The final score never exceeds 100 and never exceeds the pre-clamp score. It equals the pre-clamp score unless it is clamped to 100. |
| `ExtendedAnalysis.BaseScore` | api/index.py:20-41 | Defines the score before the trigger: facial points plus the pulse term plus the jitter term. |
| `ExtendedAnalysis.PreClampScore` | api/index.py:43 | Defines the score after the trigger: 1.3 × the base score when triggered, the base score otherwise. |
| `ExtendedAnalysis.ScoreNonNegative` | api/index.py:20-44 | With pulse ≥ 0, the base score and the final score are ≥ 0. The triggered pre-clamp score is no lower than the base score. |
| `ExtendedAnalysis.TriggerScalesBase` | api/index.py:43 | Before the clamp, the triggered score is exactly 1.3 × the untriggered score. |
| `ExtendedAnalysis.TriggerNeverLowersIff` | api/index.py:43-44 | The triggered final score is ≥ the untriggered one iff the base score is ≥ 0. |
| `ExtendedAnalysis.TriggerNeverLowers` | api/index.py:43-44 | With pulse ≥ 0, the triggered final score is ≥ the untriggered one. |
| `ExtendedAnalysis.MonotoneInPulse` | api/index.py:36-44 | With all else fixed, the final score is non-decreasing in `pulse_val`. |
| `ExtendedAnalysis.MonotoneInJitter` | api/index.py:40-44 | With all else fixed, the final score is non-decreasing in the jitter difference. |
| `ExtendedAnalysis.MonotoneInFlags` | api/index.py:24-44 | Firing a superset of the facial flags never lowers the final score. |
| `ExtendedAnalysis.MonotoneInFlagCount` | api/index.py:24-44 | With the other fields equal, firing strictly more facial flags never lowers the final score. |
| `ExtendedAnalysis.EqualFlagCountCanLower` | api/index.py:24-31 | With one flag each, brow alone gives 25 and eye alone gives 20, so an equal count of fired flags does not fix the order of scores. |
| `ExtendedAnalysis.VerdictOf` | api/index.py:47-54 | Defines the verdict of a clamped score: above 80, above 50, otherwise. |
| `ExtendedAnalysis.MindStateOf` | api/index.py:49-55 | Defines the `mind_state` paired with each verdict. |
| `ExtendedAnalysis.Verdict.Text` | api/index.py:48-54 | Defines the verdict strings HIGH DECEPTION / PANIC, COGNITIVE CONFLICT and NEUTRAL / COHERENT. |
| `ExtendedAnalysis.VerdictTiers` | api/index.py:47-55 | Each score gets exactly one verdict: > 80 HIGH DECEPTION / PANIC; 50 < s ≤ 80 COGNITIVE CONFLICT; ≤ 50 NEUTRAL / COHERENT. |
| `ExtendedAnalysis.WorkedNeutral` | api/index.py:20-55 | Pulse 0, equal jitters, brow 0.5, eye 0.5, mouth 0, untriggered gives score 0 and NEUTRAL / COHERENT. |
| `ExtendedAnalysis.WorkedSaturated` | api/index.py:20-55 | Pulse 10, jitter difference 5, brow 0.1, eye 0.05, mouth 0.5, triggered gives score 100 and HIGH DECEPTION / PANIC. |
| `BasicAnalysis.Analyze` | api/main.py:16-44 | The response score is the clamped total: at most 100, and at least 0 when pulse ≥ 0. The verdict is the tier of that total. `pulse_status` is unstable iff pulse > 2.5. |
| `BasicAnalysis.PulseStress` | api/main.py:21 | `pulse_stress` is at most 30, and non-negative when the pulse is. |
| `BasicAnalysis.JitterDiff` | api/main.py:24 | `jitter_diff` is non-negative and is ± (current − baseline). |
| `BasicAnalysis.VibrationScore` | api/main.py:25 | `vibration_score` is at most 35, and non-negative for a non-negative difference. |
| `BasicAnalysis.FacialScore` | api/main.py:28-30 | `facial_score` is one of 0, 17.5 and 35. It is 35 iff both flags fire and 0 iff neither does. |
| `BasicAnalysis.RawTotal` | api/main.py:32 | Defines the raw total: pulse stress plus vibration score plus facial score. |
| `BasicAnalysis.ScaledTotal` | api/main.py:33 | Defines the total after the trigger: 1.2 × the raw total when triggered, the raw total otherwise. |
| `BasicAnalysis.Total` | api/main.py:32-34 | The total never exceeds 100 and never exceeds the scaled total. It equals the scaled total unless it is clamped to 100. |
| `BasicAnalysis.PassedFacialTests` | api/main.py:29-30 | The number of facial tests that pass is at most 2, and the facial score is 17.5 × that number. |
| `BasicAnalysis.ClampOnlyWhenTriggered` | api/main.py:21-34 | Untriggered, the raw total is ≤ 100 (30 + 35 + 35), so the clamp has no effect. |
| `BasicAnalysis.TriggeredTotal` | api/main.py:21-34 | The triggered total is min(1.2 × the untriggered total, 100), for the same other inputs, because the untriggered total is never clamped. |
| `BasicAnalysis.TotalBounds` | api/main.py:21-34 | With pulse ≥ 0, the raw total is ≥ 0 and the total lies in [0, 100]. |
| `BasicAnalysis.TriggerNeverLowersIff` | api/main.py:32-34 | The triggered total is ≥ the untriggered one iff the raw total is ≥ 0. |
| `BasicAnalysis.TriggerNeverLowers` | api/main.py:32-34 | With pulse ≥ 0, the triggered total is ≥ the untriggered one. |
| `BasicAnalysis.MonotoneInPulse` | api/main.py:21-34 | With all else fixed, the total is non-decreasing in `pulse_val`. |
| `BasicAnalysis.MonotoneInJitter` | api/main.py:24-34 | With all else fixed, the total is non-decreasing in the jitter difference. |
| `BasicAnalysis.MonotoneInFlags` | api/main.py:28-34 | Firing a superset of the two facial flags never lowers the total. |
| `BasicAnalysis.MonotoneInFlagCount` | api/main.py:28-34 | With the other fields equal, passing at least as many facial tests never lowers the total. |
| `BasicAnalysis.VerdictOf` | api/main.py:36-38 | Defines the verdict of a clamped total: calm by default, high stress above 75, otherwise worried above 45. |
| `BasicAnalysis.PulseStatusOf` | api/main.py:43 | Defines the pulse status: unstable when the pulse term exceeds 20, normal otherwise. |
| `BasicAnalysis.VerdictTiers` | api/main.py:36-38 | Each total gets exactly one verdict: > 75 high stress; 45 < t ≤ 75 worried; ≤ 45 calm. |
| `BasicAnalysis.PulseStatusThreshold` | api/main.py:43 | `pulse_status` is unstable iff `pulse_stress` > 20, iff `pulse_val` > 2.5. |
| `BasicAnalysis.SaturationCase` | api/main.py:21-38 | Pulse 10, jitter difference 5, brow 0.1, eye 0.05, triggered gives a raw total of 30 + 35 + 35 = 100. It clamps to 100 with the high-stress verdict. |

## Left out

- `round(score, 2)` in both responses (api/index.py:58, api/main.py:41). Decimal rounding of an IEEE float is not modelled; `Analyze` returns the unrounded score, which is also the value the verdict is computed from.
- IEEE-754 behaviour (NaN, infinities, rounding in `* 1.3` and `* 1.2`, inexact thresholds such as 0.15). All quantities are exact Dafny `real`s.
- FastAPI app construction, routing and the `async` wrapper. These are web plumbing.
- Pydantic request parsing and validation. These belong to a foreign library. Requests are plain datatypes and every field value is accepted, as the handler accepts any float.
- The unused `numpy` import, and the unused `stress_score = 0` in api/main.py:18.
- The wording of the Bengali `mind_state`, verdict and `pulse_status` texts. Each is a distinct constant label of a datatype. The English verdict strings and feedback phrases of api/index.py are kept verbatim.
- The real-time capture loop and the emotion-to-personality mapping are outside the two scoring handlers and are not modelled.
