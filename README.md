# Smart posture assistant: a verified model of its scoring core

The program watches a seated user through a webcam and tracks their posture. It:

- extracts a few geometric features of the upper body from each frame's pose landmarks;
- smooths them with an exponential moving average;
- turns them into tiered penalties and a 0-100 score with a status label;
- classifies every scored frame as good, warning or bad and keeps time statistics per state;
- drives a per-frame controller that does the following:
  - calibrates a neutral posture from the first 90 frames;
  - warns aloud when the score stays low;
  - stops scoring while the user is away;
  - confirms a return after 3 s;
  - reminds the user to stand up once the sitting time runs out;
  - accepts a timer reset only after that;
  - records absences, to be handed with the score log to a final report (a call that, as coded, fails; see below).

This project models that core in Dafny and proves what it promises. The files are:

- `common.dfy`: `Option` and the float helpers `abs`, `max` and `min`.
- `geometry.dfy`: landmarks, pixel scaling, the cosine clamp, and the math-library functions taken as parameters with their ranges.
- `smoothing.dfy`: `smooth_features`, which both scorers share. It includes the loop that builds the dictionary, proved against a declarative definition, and the geometric convergence of repeated smoothing.
- `penalties.dfy`:
  - the three-tier penalty rule;
  - the insertion-ordered penalty dictionary and its sum;
  - the active-label list and the `"Good"`/joined status.
- `posture_score.dfy`: the baseline-aware scorer of `Codes/posture_score.py`. It covers the extractor, the four absolute and relative penalties, `compute`, and the `PostureScore` object.
- `legacy_posture_score.dfy`: the earlier absolute-only scorer of `posture_score.py`.
- `posture_history.dfy`: `Codes/posture_history.py`. It covers:
  - the classification, as a loop method proved against its rule;
  - `update` as a function of the old fields, with the invariant it preserves;
  - `snapshot`;
  - the `PostureHistory` object, whose methods update its fields in place.
- `session.dfy`: the frame loop of `Codes/main.py`. It has three parts:
  - One frame is a composition of phase functions: return edge, confirmation, calibration, monitoring, absence, sitting reminder, refusal-text expiry, presence flag and reset key.
  - Properties are proved about `NextFrame` and about a whole session (`Replay`).
  - The class `PostureSession` holds the loop variables and owns a scorer and a history. Each of its methods is one step of the loop body, proved to move the state exactly as the matching function says.

A frame enters the model as three values:

- the time;
- the extracted features, or nothing when no body was detected;
- whether `r` was pressed.

Everything the frame says aloud comes out as events.

## Model

| member | source | states |
|---|---|---|
| Geometry.ClampUnit | Codes/posture_score.py:61 | the clamped cosine lies in [-1, 1], equals the input inside that range and the nearer bound outside it |
| Geometry.ToPixels | Codes/posture_score.py:17-24 | a landmark is scaled by the image size; one inside the frame lands inside the image |
| Smoothing.Blend | Codes/posture_score.py:106 | a blend lies between the previous and new value, moves 0.4 of the way towards the new value, and is unchanged exactly when the value is |
| Smoothing.Smoothed | Codes/posture_score.py:99-108 | the smoothed vector has the incoming keys; the first call returns the input; later calls blend each key with the stored value, and a key missing from the history keeps the new value |
| Smoothing.SmoothStep | Codes/posture_score.py:103-107 | the key-by-key loop builds exactly the smoothed vector |
| Smoothing.SmoothedBetween | Codes/posture_score.py:104-106 | every smoothed value lies between the stored value and the new reading |
| Smoothing.SmoothedFixedPoint | Codes/posture_score.py:99-108 | feeding the stored vector again leaves it unchanged |
| Smoothing.ConstantInputConverges | Codes/posture_score.py:99-108 | after n calls with a constant vector, each key's distance from it is 0.6^n times the initial distance |
| Smoothing.RemainingShrinks | Codes/posture_score.py:106 | a remaining deviation keeps its sign, never grows, and strictly shrinks after at least one call |
| Smoothing.ConstantInputApproaches | Codes/posture_score.py:99-108 | while a constant vector is fed, the distance to it never grows, and it strictly shrinks once fed |
| Penalties.Tiered | Codes/posture_score.py:110-156 | no penalty below the warning threshold, the middle penalty between the thresholds, the full penalty from the bad threshold on, each as an if-and-only-if |
| Penalties.TieredMonotone | Codes/posture_score.py:110-156 | a tiered penalty never decreases as its measurement grows |
| Penalties.Total | Codes/posture_score.py:169 | `sum(penalties.values())` over the insertion-ordered entries; TotalOfFour and TotalOfThree write it out for the two scorers' dictionaries |
| Penalties.ActiveLabels | Codes/posture_score.py:172 | the names of the positive entries in insertion order; ActiveLabelsMembership, ActiveLabelsEmpty and ActiveLabelsOfEntry carry its properties |
| Penalties.Join | Codes/posture_score.py:173 | the names separated by ", "; JoinStartsWithFirst shows the result begins with the first name |
| Penalties.Status | Codes/posture_score.py:172-173 | "Good" for no active name, otherwise their join; StatusGoodIff states when it is "Good" |
| Penalties.ActiveLabelsMembership | Codes/posture_score.py:172 | a name is listed exactly when an entry with that name has a positive penalty |
| Penalties.ActiveLabelsEmpty | Codes/posture_score.py:172 | no name is listed exactly when no entry has a positive penalty |
| Penalties.ActiveLabelsOfEntry | Codes/posture_score.py:172 | with distinct names, an entry's name is listed iff its own penalty is positive |
| Penalties.StatusGoodIff | Codes/posture_score.py:172-173 | the status is "Good" exactly when no category incurred a penalty |
| PostureScoring.NoseShoulderAngle | Codes/posture_score.py:38-62 | the hunch angle lies in [0, 180], and is 0 when a shoulder coincides with the nose (the zero-length guard) |
| PostureScoring.Extract | Codes/posture_score.py:6-71 | the extractor returns exactly its six keys; tilt in [0, 90]; raw roll in [-180, 180], with roll its absolute value; eye distance non-negative and equal to the distance indicator; hunch angle in [0, 180] and 0 in the degenerate case |
| PostureScoring.PenaltyFromTilt | Codes/posture_score.py:110-120 | 0, 10 or 20 points; absolute thresholds 5/10 without a baseline; thresholds 5/10 on the absolute deviation from the baseline with one |
| PostureScoring.PenaltyFromRoll | Codes/posture_score.py:122-132 | 0, 10 or 20 points; absolute thresholds 10/20, or 10/15 on the absolute deviation from the baseline |
| PostureScoring.PenaltyFromDistance | Codes/posture_score.py:134-144 | 0, 10 or 20 points; absolute thresholds 90/110 px, or 10/30 on the signed increase over the baseline |
| PostureScoring.PenaltyFromHunch | Codes/posture_score.py:146-156 | 0, 15 or 30 points; absolute thresholds 85/100 degrees, or 10/25 on the signed increase over the baseline |
| PostureScoring.Relative | Codes/posture_score.py:111 | `if self.baseline:`: a baseline that is set and non-empty selects the relative thresholds in all four penalties |
| PostureScoring.Penalize | Codes/posture_score.py:160-167 | four entries, in insertion order shoulder_tilt, head_roll, head_distance, hunchback, with their point sets |
| PostureScoring.Points | Codes/posture_history.py:35-40 | `penalties.values()`: the points of the entries, one per entry and in insertion order, as the history classifies them |
| PostureScoring.Evaluate | Codes/posture_score.py:158-180 | score = 100 minus the total penalty, within [10, 100]; status "Good" iff every penalty is 0, otherwise the active names joined by ", "; each category is listed iff its penalty is positive |
| PostureScoring.LabelsOfCategories | Codes/posture_score.py:172 | for the four category entries, a category is listed iff its penalty is positive |
| PostureScoring.RelativeTiltRollSymmetric | Codes/posture_score.py:110-132 | after calibration, tilting or rolling either way by the same amount costs the same |
| PostureScoring.RelativeAtOrBelowBaselineFree | Codes/posture_score.py:134-156 | after calibration, being farther than the baseline, or straighter than it, costs nothing |
| PostureScoring.AbsolutePenaltiesMonotone | Codes/posture_score.py:117-156 | before calibration, every penalty is non-decreasing in its feature |
| PostureScoring.AtBaselinePerfect | Codes/posture_score.py:110-173 | sitting exactly as during calibration scores 100 with status "Good" |
| PostureScoring.AbsoluteAllClear | Codes/posture_score.py:117-173 | before calibration, all features under their warning thresholds give 100 and "Good" |
| PostureScoring.AbsoluteAllBad | Codes/posture_score.py:117-173 | before calibration, all features at their bad thresholds give score 10 and all four names in insertion order |
| PostureScoring.AllActive | Codes/posture_score.py:172 | when every penalty is positive, every name is listed, in order |
| PostureScoring.PostureScore.constructor | Codes/posture_score.py:74-77 | a new scorer has no smoothing history and no baseline |
| PostureScoring.PostureScore.SetBaseline | Codes/posture_score.py:95-97 | installs the baseline and leaves the smoothing history alone |
| PostureScoring.PostureScore.SmoothFeatures | Codes/posture_score.py:99-108 | returns the smoothed vector of the old history and stores it |
| PostureScoring.PostureScore.Compute | Codes/posture_score.py:158-180 | returns the evaluation of the smoothed features against the stored baseline, and stores the smoothed vector |
| LegacyPostureScoring.FoldTilt | posture_score.py:14-18 | the folded tilt lies in [0, 90]: the absolute angle up to 90, and 180 minus it beyond |
| LegacyPostureScoring.FoldTiltHalfTurn | posture_score.py:7-18 | reversing a segment (a half turn of its angle) leaves the tilt unchanged |
| LegacyPostureScoring.LineTiltDeg | posture_score.py:7-18 | a line's tilt lies in [0, 90] |
| LegacyPostureScoring.Extract | posture_score.py:21-64 | exactly the four keys; both tilts in [0, 90]; the widths are non-negative; coinciding shoulders give distance 0 |
| LegacyPostureScoring.PenaltyFromTilt | posture_score.py:100-106 | 0, 10 or 20 points, with thresholds 5/8 as if-and-only-ifs |
| LegacyPostureScoring.PenaltyFromRoll | posture_score.py:108-114 | 0, 10 or 20 points, with thresholds 10/20 |
| LegacyPostureScoring.PenaltyFromDistance | posture_score.py:116-122 | 0, 10 or 20 points, with thresholds 0.55/0.6 |
| LegacyPostureScoring.PenaltiesMonotone | posture_score.py:100-122 | every penalty is non-decreasing in its feature |
| LegacyPostureScoring.Penalize | posture_score.py:130-133 | three entries in insertion order, each 0, 10 or 20 |
| LegacyPostureScoring.Evaluate | posture_score.py:124-146 | score = 100 minus the total, within [40, 100], so the floor at 0 never applies; status "Good" iff no penalty, otherwise the active names joined |
| LegacyPostureScoring.LabelsOfCategories | posture_score.py:138 | a category is listed iff its penalty is positive |
| LegacyPostureScoring.EvaluateDependsOnScoredFeatures | posture_score.py:128-139 | the result depends only on the three scored features; face width plays no part |
| LegacyPostureScoring.PostureScore.constructor | posture_score.py:68-71 | a new scorer has no smoothing history |
| LegacyPostureScoring.PostureScore.SmoothFeatures | posture_score.py:87-98 | returns the smoothed vector of the old history and stores it |
| LegacyPostureScoring.PostureScore.Compute | posture_score.py:124-146 | returns the evaluation of the smoothed features and stores them |
| History.StateOf | Codes/posture_history.py:23-44 | the classification rule the loop is proved against: bad when some penalty reaches 20, good when all are 0, warning otherwise; ClassifyState proves the loops equal to it |
| History.ClassifyState | Codes/posture_history.py:23-44 | bad iff some penalty is at least 20; good iff all are 0, including the empty map; warning iff none reaches 20 and some is non-zero |
| History.Elapsed | Codes/posture_history.py:61-67 | the credited time is the difference, or 0 when the clock went backwards |
| History.Credit | Codes/posture_history.py:74-81 | step 2 of `update`: dt goes to the total and to the frame's state; NextCreditsElapsed states it |
| History.Streak | Codes/posture_history.py:83-104 | step 3 of `update`: extend or restart the streak and count bad episodes; StreakRule and EpisodeRule state it |
| History.FrameState | Codes/posture_history.py:57-58 | a frame's state: the classification of its penalties, or good when there are none |
| History.Next | Codes/posture_history.py:46-104 | the fields after `update`; NextPreservesInv, FirstUpdateSeeds, NextCreditsElapsed, NextMonotone, StreakRule and EpisodeRule carry its properties |
| History.InitialInv | Codes/posture_history.py:8-21 | the fresh history satisfies the invariant |
| History.NextPreservesInv | Codes/posture_history.py:46-104 | every update keeps the invariant. The invariant says: per-state times are non-negative and sum to the total; the streak fits in its state's time; the longest bad streak fits in the bad time and covers an ongoing bad streak; nothing is recorded before the first frame |
| History.FirstUpdateSeeds | Codes/posture_history.py:54-59 | the first update only records the time and seeds the state; it credits no time and counts no episode |
| History.NextCreditsElapsed | Codes/posture_history.py:61-81 | later updates add the clamped dt to the total and to the frame's state only |
| History.NextMonotone | Codes/posture_history.py:61-104 | no accumulator, the longest bad streak or the episode count ever decreases |
| History.StreakRule | Codes/posture_history.py:84-100 | the same state extends the streak by dt; a new state restarts it at dt |
| History.EpisodeRule | Codes/posture_history.py:54-104 | the episode count grows by one exactly on a non-first update that moves into bad |
| History.StartingBadCountsNoEpisode | Codes/posture_history.py:54-104 | a session whose first two frames are bad has bad time but no bad episode |
| History.RunPreservesInv | Codes/posture_history.py:46-104 | the invariant holds after any sequence of updates |
| History.RunTotalTime | Codes/posture_history.py:61-75 | with ordered timestamps the total time is the span from the previous timestamp to the last one |
| History.Share | Codes/posture_history.py:110-114 | a ratio lies in [0, 1]; it is 0 before time is recorded, and otherwise ratio times total equals the part |
| History.ShareAtMostOne | Codes/posture_history.py:112-114 | a part of a positive total is a share in [0, 1] |
| History.SharesAdd | Codes/posture_history.py:112-114 | the shares of disjoint parts add up |
| History.Summarize | Codes/posture_history.py:106-127 | the snapshot copies every field, gives the good and bad ratios, and the two ratios never exceed 1 together |
| History.PostureHistory.constructor | Codes/posture_history.py:8-21 | a new history is the initial state and is valid |
| History.PostureHistory.Update | Codes/posture_history.py:46-104 | the fields move exactly as the update function says, and stay valid |
| History.PostureHistory.CreditTime | Codes/posture_history.py:74-81 | step 2 of update on the fields |
| History.PostureHistory.UpdateStreak | Codes/posture_history.py:83-104 | step 3 of update on the fields |
| History.PostureHistory.Snapshot | Codes/posture_history.py:106-127 | the snapshot of the fields, with both ratios in [0, 1] |
| Session.Start | Codes/main.py:51-79 | the loop variables before the first frame; StartInv shows they satisfy the invariant |
| Session.ReturnEdge | Codes/main.py:130-133 | starts the return timer on an absent-to-present edge; ReturnTimerRule states when |
| Session.Confirming | Codes/main.py:136 | `is_confirming_return`: a return timer runs, the user is not yet confirmed back and calibration is done |
| Session.AwayInterval | Codes/main.py:147-151 | the absence recorded on return, from the pause start to now, in seconds since the start; ConfirmationRule states it over a frame |
| Session.Closing | Codes/main.py:147-151 | the open absence recorded on confirmation, if a pause is open; PresenceConfirmation states that exactly it is appended |
| Session.ConfirmReturn | Codes/main.py:138-156 | a confirming frame; PresenceConfirmation and ConfirmationRule carry its properties |
| Session.Calibrate | Codes/main.py:174-197 | a calibration frame; CalibrationCollects, CalibrationOneWay and MeanOfConstant carry its properties |
| Session.LowScoreCheck | Codes/main.py:213-226 | the low-score debounce; LowScoreCheckRule states it |
| Session.Monitor | Codes/main.py:199-226 | a monitoring frame; MonitorRecords states what it records |
| Session.PresentFrame | Codes/main.py:124-226 | a frame with a body: return edge, then confirmation, calibration or monitoring; ScoredIff states which frames are scored |
| Session.AbsentFrame | Codes/main.py:228-245 | a frame without a body; AbsentFrameRule states it |
| Session.Presence | Codes/main.py:124-245 | the presence part of a frame; PresenceKeeps, PresenceConfirmation, PresenceTimers, PresenceInv, PresenceScoredWhen, PresenceScored and PresenceWarns carry its properties |
| Session.TimeLeft | Codes/main.py:249-250 | the sitting time left, used by the reminder and the reset key |
| Session.Pomodoro | Codes/main.py:247-268 | the stand-up reminder; PomodoroIff states when it is said |
| Session.ExpireWarning | Codes/main.py:279-283 | the refusal-text expiry; ExpireWarningRule states it |
| Session.Reset | Codes/main.py:307-324 | the reset key, corrected so that an accepted reset announces; FinishReset and ResetRule state when it is accepted |
| Session.ResetAsWritten | Codes/main.py:307-324 | the reset key as written, ending in a crash when accepted; ResetAsWrittenCrashes and ResetAsWrittenCrashExample show it |
| Session.Finish | Codes/main.py:247-324 | the phases after presence handling; FinishKeeps and FinishReset carry its properties |
| Session.AtKeys | Codes/main.py:247-295 | the state when the keyboard is read: reminder, refusal-text expiry and the presence flag update applied; FinishKeeps states what it changes |
| Session.NextFrame | Codes/main.py:92-324 | one frame; NextFramePreservesInv, ScoredIff, LaterPhases and the per-phase rules carry its properties |
| Session.Shutdown | Codes/main.py:329-334 | the absences at shutdown; ShutdownClosesPause states it |
| Session.Mean | Codes/main.py:192 | the calibration mean has exactly the keys asked for |
| Session.SumAtConstant | Codes/main.py:192 | the sum of n equal values is n times the value |
| Session.MeanOfConstant | Codes/main.py:191-193 | calibrating on a perfectly still posture installs that posture as the baseline |
| Session.BaselineUsableFromInv | Codes/main.py:191-205 | an installed baseline has every key the scorer looks up |
| Session.ResetAsWrittenCrashes | Codes/main.py:307-324 | the program as written crashes on exactly the resets that are accepted, and behaves like the corrected reset otherwise |
| Session.ResetAsWrittenCrashExample | Codes/main.py:315-319 | a concrete accepted reset that crashes |
| Session.FinishKeeps | Codes/main.py:247-324 | after presence handling, a frame changes only the sitting timer, the reminder time, the refusal text and the presence flag; it adds only the reminder and the reset announcement |
| Session.LaterPhases | Codes/main.py:247-324 | the same, for a whole frame |
| Session.PresenceKeeps | Codes/main.py:124-245 | presence handling keeps the start time, the reminder time and the refusal text; it says only the welcome, the calibration notice and the posture warning |
| Session.PresenceConfirmation | Codes/main.py:136-156 | only a completing confirmation changes the confirmed flag, the timer, the pause and the absences; it appends exactly the open absence |
| Session.PresenceTimers | Codes/main.py:130-197 | calibration is kept once done; the return timer is as the edge left it unless a confirmation completes |
| Session.PresenceInv | Codes/main.py:124-245 | presence handling keeps the between-frames invariant: calibration frames well shaped; fewer than 90 and no baseline before calibration; exactly 90 and their mean after; pause 0; history invariant |
| Session.NextFramePreservesInv | Codes/main.py:92-324 | every frame keeps the invariant; in particular the accumulated pause stays 0 |
| Session.CalibrationOneWay | Codes/main.py:174-194 | once calibrated, a frame keeps the flag, the frames and the baseline |
| Session.CalibrationCollects | Codes/main.py:174-228 | before calibration: each frame with a body is collected; the 90th installs the mean and announces it; frames without a body collect nothing; nothing is scored |
| Session.ScoredIff | Codes/main.py:136-211 | a frame is scored exactly when a body is present, calibration is done and no return is being confirmed. A scored frame scores the smoothed features against the baseline, feeds the history and logs the score; an unscored one touches none of these |
| Session.PresenceScoredWhen | Codes/main.py:136-205 | presence handling scores exactly those frames |
| Session.PresenceScored | Codes/main.py:199-211 | what presence handling records when it scores, and that it records nothing otherwise |
| Session.MonitorRecords | Codes/main.py:199-226 | a monitoring frame scores the smoothed features against the baseline and changes only the smoothing, the history, the score log and the two low-score fields |
| Session.AbsentFrameRule | Codes/main.py:228-245 | a frame without a body clears both timers; it opens a pause and unconfirms the user exactly when they were present before |
| Session.ReturnTimerRule | Codes/main.py:130-133 | the return timer starts exactly on an absent-to-present edge after calibration while not confirmed |
| Session.ConfirmationRule | Codes/main.py:138-156 | from 3 s on, confirmation completes: the user is back, timers and pause are cleared, the open absence is recorded up to now, the welcome is said first and the sitting timer restarts. Earlier, none of this changes. The frame is not scored |
| Session.LowScoreCheckRule | Codes/main.py:213-226 | a warning iff the score is under 70, the low score began at least 1.5 s ago and the last warning is more than 5 s old; the timer starts, persists or stops accordingly |
| Session.LowScoreWarningIff | Codes/main.py:213-226 | the same warning condition over a whole frame |
| Session.PresenceWarns | Codes/main.py:199-226 | the warning condition over presence handling |
| Session.PomodoroIff | Codes/main.py:247-265 | the stand-up reminder is said exactly when the user is present and already confirmed back, the time is used up, and the last reminder is more than 5 s old; saying it sets the reminder time to now, and a frame that does not remind keeps that time |
| Session.ReminderTimeKept | Codes/main.py:263-265 | frames that do not remind leave the time of the last reminder unchanged |
| Session.PomodoroSpacing | Codes/main.py:263-265 | two reminders with none between them are more than 5 s apart, so the reminder repeats at most once per 5 s |
| Session.ExpireWarningRule | Codes/main.py:279-283 | the refusal text lasts under a second and is then cleared; nothing else changes |
| Session.FinishReset | Codes/main.py:307-324 | a reset is accepted exactly when present with no time left: it restarts the timer and announces. Otherwise it is refused and shows the refusal text from now. A frame without the key changes nothing here |
| Session.ResetRule | Codes/main.py:307-324 | the same reset rule over a whole frame; while confirmed back, the time left at the key is the time left before the frame |
| Session.AbsentResetRefused | Codes/main.py:309-313 | no reset is accepted without a body in view |
| Session.AwayPeriodsGrow | Codes/main.py:147-151 | recorded absences are never rewritten, and a frame appends at most one |
| Session.ShutdownClosesPause | Codes/main.py:331-334 | at shutdown an open absence is recorded from the pause start to the final time |
| Session.StartInv | Codes/main.py:51-79 | the initial state satisfies the invariant |
| Session.Replay | Codes/main.py:92-324 | any sequence of frames keeps the invariant |
| Session.ReplayKeepsRecords | Codes/main.py:147-211 | over a session, absences and logged scores only grow (at most one of each per frame), and a baseline, once installed, stays |
| Session.NoneScored | Codes/main.py:136-211 | no frame of a run is scored: each is absent, calibrating or confirming a return |
| Session.UnscoredKeepHistory | Codes/main.py:124-245 | frames that are not scored leave the posture history untouched; its clock is not paused while the user is away |
| Session.AbsenceCreditedOnReturn | Codes/posture_history.py:61-104 | after unscored frames, the next scored frame credits the whole span since the last scored frame (absence and confirmation window included) to the total, its state and the streak, and a bad streak on both sides enters the longest bad streak |
| Session.PostureSession.constructor | Codes/main.py:51-79 | the loop variables take their initial values, over the scorer and history just created |
| Session.PostureSession.Step | Codes/main.py:92-324 | one pass of the loop body moves the state and produces the output exactly as the frame function says, and keeps the invariant |
| Session.PostureSession.PresenceStep | Codes/main.py:124-245 | the presence part of the body, as the presence function |
| Session.PostureSession.FinishStep | Codes/main.py:247-324 | the rest of the body, as the finishing function |
| Session.PostureSession.ReturnEdgeStep | Codes/main.py:130-133 | the return edge, as its function |
| Session.PostureSession.PresentStep | Codes/main.py:124-226 | a frame with a body, as its function |
| Session.PostureSession.ConfirmStep | Codes/main.py:138-156 | a confirming frame, as its function |
| Session.PostureSession.RecordAbsence | Codes/main.py:147-151 | appends the open absence, computed as the source does, and nothing else |
| Session.PostureSession.CalibrateStep | Codes/main.py:174-197 | a calibration frame, as its function |
| Session.PostureSession.MonitorStep | Codes/main.py:199-226 | a monitoring frame, as its function, through the scorer and the history objects |
| Session.PostureSession.LowScoreStep | Codes/main.py:213-226 | the nested low-score checks, as the debounce function |
| Session.PostureSession.AbsentStep | Codes/main.py:228-245 | a frame without a body, as its function |
| Session.PostureSession.PomodoroStep | Codes/main.py:247-268 | the sitting reminder, as its function |
| Session.PostureSession.ExpireWarningStep | Codes/main.py:279-283 | the refusal-text expiry, as its function |
| Session.PostureSession.ResetStep | Codes/main.py:307-324 | the reset key, as the corrected reset function |
| Session.PostureSession.Play | Codes/main.py:92-324 | the loop over the frames ends in the replayed state and keeps the invariant |
| Session.PostureSession.Close | Codes/main.py:329-334 | at shutdown, the absences become the shutdown list and nothing else changes |
| Session.Open | Codes/main.py:43-79 | set-up creates a scorer and a history and starts in the initial state, which is valid |
| Session.RunToShutdown | Codes/main.py:92-337 | the values passed at Codes/main.py:337, the score log and the absences, are those of the replayed session, with an open absence closed at shutdown |

## Left out

- Camera capture, undistortion, background blur (the `b` key), pose detection, drawing, the window and the `q` key are left out. The frames arrive as data, and the session ends after its last frame.
- Floating-point arithmetic is modelled on reals. `math.atan2`, `math.acos`, `math.hypot` and `math.dist` are parameters; the model uses only their ranges.
- Speech (`VoiceAssistant`) and its background threads are left out. What a frame says is a list of events. The empty `say("")` after calibration produces no event.
- Every `time.time()` reading within one frame is taken as the frame's single time `now`. The same holds for the shutdown readings. `Session.Start` also folds the two set-up readings at Codes/main.py:57-58 into one `start`, so the session clock and the sitting timer begin at the same instant.
- `generate_report` (Codes/report_generator.py) is not part of this model. The session delivers the values passed to it at Codes/main.py:337, the score log and the absences.
- The on-screen display of the history snapshot (Codes/main.py:289) and `ui_painter.py` are left out. `Codes/calibration.py` and the root `main.py` are not part of this model.
- Session.Open: the class constructor receives a scorer and a history already created, and `Open` performs the creation. A single method composing `Open` with `RunToShutdown` is not stated.
- Session.PostureSession.Step: the model assumes that the features of a detected body carry the extractor's six keys (`WellFormed`), which the extractor guarantees.
- PostureScoring.Evaluate: `int(score)` is the identity because scores are integers.
- PostureScoring.Evaluate, PostureScoring.PostureScore.Compute, LegacyPostureScoring.Evaluate and LegacyPostureScoring.PostureScore.Compute require the feature map to hold every scoring key (and, in relative mode, the baseline too). The KeyError Python raises for a missing key is not modelled. Every call in Codes/main.py passes the extractor's output and a baseline averaged over it, so those calls meet the requirement.
- The history's `update` receives the result's penalty values in insertion order. A missing result, or one without penalties, is modelled as no penalty list.

Behaviour of the code that differs from what its comments, naming and design suggest:

- The absence recorded on return runs from the pause start to the confirmation instant, so it includes the 3 s confirmation window.
- `paused_duration` is only ever set to 0.
- The first history update seeds the state without counting a bad episode.
- A user who leaves during calibration stays unconfirmed afterwards, so they get no sitting reminder until they leave and return. The pause opened during calibration is never closed on return: the next departure overwrites its start, and if there is none, shutdown records it as lasting to the end.
- The largest total penalty is 90 (in either mode), giving a minimum score of 10.
- The sitting limit is 60 s as coded, although the comment beside it says 30 minutes.
- The posture history is not paused while the user is away. Its last timestamp stays at the last scored frame, so the first scored frame after a return credits the whole absence and the confirmation window to the total time, to that frame's state and to the current streak (`Session.AbsenceCreditedOnReturn`). A user who was bad before leaving and after returning gets the absence counted in the longest bad streak.
- No report is ever built. The shutdown call at Codes/main.py:337 passes three arguments (the score log, the duration and the absences), but `generate_report` at Codes/report_generator.py:5 takes two. Every shutdown therefore raises a TypeError, and the absences reach no report.

## Findings

| source | as written | input that shows it | evidently intended | confidence | as-written member | corrected member |
|---|---|---|---|---|---|---|
| Codes/main.py:318 | an accepted reset calls `voice.stop()`, which `VoiceAssistant` (Codes/voice_assistant.py:4-24) does not define. The frame raises AttributeError before announcing, and the program ends at that frame | present, confirmed back, pomodoro started at 10 s, `r` pressed at 70 s (`Session.ResetAsWrittenCrashExample`) | clear pending speech, announce the reset and go on (`Session.ResetRule` proves the reset rule of the corrected definition) | high, not executed | Session.ResetAsWritten | Session.Reset |
