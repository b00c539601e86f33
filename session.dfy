/**
 * The per-frame controller inside the frame loop of Codes/main.py: presence
 * tracking, the 3 s return confirmation, the 90-frame calibration, scoring
 * with the 1.5 s low-score debounce and 5 s warning cooldown, the sitting
 * (pomodoro) reminder, the reset key and, at shutdown, the close of an open
 * absence. Camera, pose detector, drawing and speech are outside the model:
 * a frame arrives as the current time, the extracted features of the body
 * (or nothing when no body was detected) and whether 'r' was pressed, and
 * what the frame says aloud comes out as events.
 */
module Session {
  import opened Common
  import opened Smoothing
  import S = PostureScoring
  import H = History

  // Constants of the frame loop.
  const PomodoroLimit: real := 60.0
  const LowScoreThreshold: int := 70
  const WarningCooldown: real := 5.0
  const CalibrationFrames: nat := 90
  const LowScoreDebounce: real := 1.5
  const ReturnDebounce: real := 3.0
  const WarningDuration: real := 1.0
  /** The sitting reminder repeats at most this often. */
  const PomodoroRepeat: real := 5.0
  /** The text shown when a reset is refused. */
  const CannotReset: string := "Cannot reset: Timer is running!"

  /** What the loop says aloud through the voice assistant. */
  datatype Event = Welcome | CalibrationDone | SitUpright | StandUp | TimerReset

  /** What the reset key did on this frame. */
  datatype ResetReply = NotRequested | Accepted | Rejected

  /** One entry of `away_periods`, in seconds since the program started. */
  datatype Interval = Interval(start: real, end: real)

  /** One entry of `long_term_history`: elapsed seconds and score. */
  datatype Sample = Sample(elapsed: real, score: int)

  /**
   * The loop's state variables, together with the scorer's stored
   * smoothing vector and baseline and the history's fields.
   */
  datatype Loop = Loop(
    startTime: real,
    calibrated: bool,
    calibrationData: seq<FeatureMap>,
    wasPresent: bool,
    pauseStart: Option<real>,
    awayPeriods: seq<Interval>,
    returnStart: Option<real>,
    confirmedBack: bool,
    lowScoreStart: Option<real>,
    lastWarning: real,
    pomodoroStart: real,
    pausedDuration: real,
    lastPomodoroWarning: real,
    longTermHistory: seq<Sample>,
    warningText: string,
    warningDisplayStart: real,
    smoothing: Option<FeatureMap>,
    baseline: Option<FeatureMap>,
    history: H.HistoryState)

  /** The state before the first frame, the program having started at `start`. */
  function Start(start: real): Loop
  {
    Loop(start, false, [], false, None, [], None, true, None, 0.0, start, 0.0, 0.0, [], "", 0.0,
         None, None, H.Initial)
  }

  /** One frame: the time, the detected body's features, and the reset key. */
  datatype FrameInput = FrameInput(now: real, features: Option<FeatureMap>, resetPressed: bool)

  /** A detected body's features are what the extractor produces. */
  predicate WellFormed(inp: FrameInput)
  {
    inp.features.Some? ==> inp.features.value.Keys == S.ExtractorKeys
  }

  /** What a frame produces besides the new state. */
  datatype FrameOutput = FrameOutput(result: Option<S.ScoreResult>, said: seq<Event>, reset: ResetReply)

  // Results of the individual phases of a frame.
  datatype Spoken = Spoken(state: Loop, said: seq<Event>)
  datatype Outcome = Outcome(state: Loop, result: Option<S.ScoreResult>, said: seq<Event>)
  datatype Keyed = Keyed(state: Loop, reply: ResetReply, said: seq<Event>)
  datatype FrameResult = FrameResult(state: Loop, output: FrameOutput)

  /** Every calibration frame carries the extractor's keys. */
  predicate ExtractorShaped(data: seq<FeatureMap>)
  {
    forall i :: 0 <= i < |data| ==> data[i].Keys == S.ExtractorKeys
  }

  /** `sum(d[k] for d in data)`, added up from the first frame on. */
  function SumAt(data: seq<FeatureMap>, k: string): real
    requires forall i :: 0 <= i < |data| ==> k in data[i]
  {
    if data == [] then 0.0 else SumAt(data[..|data| - 1], k) + data[|data| - 1][k]
  }

  /** The per-key arithmetic mean the calibration installs as the baseline. */
  function Mean(data: seq<FeatureMap>, keys: set<string>): (m: FeatureMap)
    requires |data| > 0
    requires forall i, k :: 0 <= i < |data| && k in keys ==> k in data[i]
    ensures m.Keys == keys
  {
    map k | k in keys :: SumAt(data, k) / (|data| as real)
  }

  /**
   * What holds between frames: calibration frames carry the extractor's
   * keys; before calibration fewer than 90 were collected and no baseline is
   * set; after it exactly 90 were, and their mean is the baseline; the
   * accumulated pause is 0; the history keeps its own invariant.
   */
  predicate SessionInv(s: Loop)
  {
    && ExtractorShaped(s.calibrationData)
    && (!s.calibrated ==> |s.calibrationData| < CalibrationFrames && s.baseline.None?)
    && (s.calibrated ==>
          |s.calibrationData| == CalibrationFrames && s.baseline == Some(Mean(s.calibrationData, S.ExtractorKeys)))
    && s.pausedDuration == 0.0
    && H.Inv(s.history)
  }

  /** The baseline a valid state holds is one the scorer can use. */
  lemma BaselineUsableFromInv(s: Loop)
    requires SessionInv(s)
    ensures S.BaselineUsable(s.baseline)
  {
    if s.calibrated {
      assert s.baseline.value.Keys == S.ExtractorKeys;
    }
  }

  // ----- The phases of a frame with a detected body -----

  /** Lines 130-133: the return timer starts on an absent-to-present edge. */
  function ReturnEdge(s: Loop, now: real): Loop
  {
    if !s.wasPresent && s.calibrated && !s.confirmedBack && s.returnStart.None? then
      s.(returnStart := Some(now))
    else s
  }

  /** `is_confirming_return`. */
  predicate Confirming(s: Loop)
  {
    s.returnStart.Some? && !s.confirmedBack && s.calibrated
  }

  /** The absence recorded when the user is confirmed back at `now`. */
  function AwayInterval(s: Loop, pauseStart: real, now: real): Interval
  {
    var end := now - s.startTime;
    Interval(end - (now - pauseStart), end)
  }

  /** The absences to record on confirmation: the open one, if a pause is open. */
  function Closing(s: Loop, now: real): seq<Interval>
  {
    if s.pauseStart.Some? then [AwayInterval(s, s.pauseStart.value, now)] else []
  }

  /**
   * A confirming frame: once 3 s have passed since the return timer
   * started, the pomodoro restarts, an open absence is recorded and the user
   * counts as back; the frame is never scored.
   */
  function ConfirmReturn(s: Loop, now: real): Spoken
    requires Confirming(s)
  {
    if now - s.returnStart.value >= ReturnDebounce then
      Spoken(s.(pomodoroStart := now, pausedDuration := 0.0, awayPeriods := s.awayPeriods + Closing(s, now),
                pauseStart := None, confirmedBack := true, returnStart := None),
             [Welcome])
    else Spoken(s, [])
  }

  /** A calibration frame: collect the features; at 90 frames install their mean. */
  function Calibrate(s: Loop, f: FeatureMap): Spoken
    requires ExtractorShaped(s.calibrationData) && f.Keys == S.ExtractorKeys
  {
    var data := s.calibrationData + [f];
    if |data| >= CalibrationFrames then
      Spoken(s.(calibrationData := data, baseline := Some(Mean(data, f.Keys)), calibrated := true),
             [CalibrationDone])
    else Spoken(s.(calibrationData := data), [])
  }

  /**
   * Lines 213-226: a score under 70 that has lasted 1.5 s warns, at most once
   * per 5 s; a score of 70 or more stops the persistence timer.
   */
  function LowScoreCheck(s: Loop, now: real, score: int): Spoken
  {
    var low := score < LowScoreThreshold;
    var warn := low && s.lowScoreStart.Some? && now - s.lowScoreStart.value >= LowScoreDebounce
                && now - s.lastWarning > WarningCooldown;
    var start := if !low then None else if s.lowScoreStart.None? then Some(now) else s.lowScoreStart;
    Spoken(s.(lowScoreStart := start, lastWarning := if warn then now else s.lastWarning),
           if warn then [SitUpright] else [])
  }

  /** A monitoring frame: score, update the history, log the score, debounce. */
  function Monitor(s: Loop, now: real, f: FeatureMap): Outcome
    requires S.HasScoringKeys(f) && S.BaselineUsable(s.baseline)
  {
    var smoothed := Smoothed(s.smoothing, f);
    var r := S.Evaluate(smoothed, s.baseline);
    var scored := s.(smoothing := Some(smoothed),
                     history := H.Next(s.history, now, Some(S.Points(r.penalties))),
                     longTermHistory := s.longTermHistory + [Sample(now - s.startTime, r.score)]);
    var w := LowScoreCheck(scored, now, r.score);
    Outcome(w.state, Some(r), w.said)
  }

  /** Lines 124-226: a frame in which a body was detected. */
  function PresentFrame(s: Loop, now: real, f: FeatureMap): Outcome
    requires SessionInv(s) && f.Keys == S.ExtractorKeys
  {
    var e := ReturnEdge(s, now);
    if Confirming(e) then
      var c := ConfirmReturn(e, now);
      Outcome(c.state, None, c.said)
    else if !e.calibrated then
      var c := Calibrate(e, f);
      Outcome(c.state, None, c.said)
    else
      BaselineUsableFromInv(s);
      Monitor(e, now, f)
  }

  /** Lines 228-245: a frame without a body. */
  function AbsentFrame(s: Loop, now: real): Loop
  {
    var left := if s.wasPresent then s.(pauseStart := Some(now), confirmedBack := false) else s;
    left.(returnStart := None, lowScoreStart := None)
  }

  /** The frame's presence phase, either branch. */
  function Presence(s: Loop, inp: FrameInput): Outcome
    requires SessionInv(s) && WellFormed(inp)
  {
    if inp.features.Some? then PresentFrame(s, inp.now, inp.features.value)
    else Outcome(AbsentFrame(s, inp.now), None, [])
  }

  /** `time_left` of the sitting timer. */
  function TimeLeft(s: Loop, now: real): real
  {
    PomodoroLimit - (now - s.pomodoroStart - s.pausedDuration)
  }

  /** Lines 248-265: the sitting reminder, only while present and confirmed back. */
  function Pomodoro(s: Loop, now: real, present: bool): Spoken
  {
    if present && s.confirmedBack && TimeLeft(s, now) <= 0.0 && now - s.lastPomodoroWarning > PomodoroRepeat then
      Spoken(s.(lastPomodoroWarning := now), [StandUp])
    else Spoken(s, [])
  }

  /** Lines 279-283: the refusal text disappears once shown for a second. */
  function ExpireWarning(s: Loop, now: real): Loop
  {
    if s.warningText != [] && now - s.warningDisplayStart < WarningDuration then s
    else if now - s.warningDisplayStart >= WarningDuration then s.(warningText := [])
    else s
  }

  /** Lines 307-324: the reset key; refused unless present with the time used up. */
  function Reset(s: Loop, now: real, present: bool): Keyed
  {
    var left := if present then TimeLeft(s, now) else 1.0;
    if left <= 0.0 then
      Keyed(s.(pomodoroStart := now, pausedDuration := 0.0), Accepted, [TimerReset])
    else
      Keyed(s.(warningText := CannotReset, warningDisplayStart := now), Rejected, [])
  }

  /** How the reset key ends when the program as written handles it. */
  datatype KeyOutcome = Handled(keyed: Keyed) | Crashed(state: Loop)

  /**
   * Lines 307-324 as written: an accepted reset restarts the timer and then
   * calls `stop` on the voice helper, which Codes/voice_assistant.py:4-24 does
   * not define, so the loop ends with an AttributeError before the
   * announcement; a refused reset is unaffected.
   */
  function ResetAsWritten(s: Loop, now: real, present: bool): KeyOutcome
  {
    var left := if present then TimeLeft(s, now) else 1.0;
    if left <= 0.0 then Crashed(s.(pomodoroStart := now, pausedDuration := 0.0))
    else Handled(Keyed(s.(warningText := CannotReset, warningDisplayStart := now), Rejected, []))
  }

  /** The program as written crashes on exactly the resets `Reset` accepts, and agrees with it otherwise. */
  lemma ResetAsWrittenCrashes(s: Loop, now: real, present: bool)
    ensures ResetAsWritten(s, now, present).Crashed? <==> Reset(s, now, present).reply == Accepted
    ensures ResetAsWritten(s, now, present).Handled? ==> ResetAsWritten(s, now, present).keyed == Reset(s, now, present)
  {
  }

  /** A concrete crash: a confirmed user presses the key 70 s into a session whose pomodoro began at 10 s. */
  lemma ResetAsWrittenCrashExample()
    ensures var s := Start(0.0).(confirmedBack := true, pomodoroStart := 10.0);
      && Reset(s, 70.0, true).reply == Accepted
      && ResetAsWritten(s, 70.0, true).Crashed?
  {
  }

  /** The state when the keyboard is read, after the presence phase left `st`. */
  function AtKeys(st: Loop, now: real, present: bool): Loop
  {
    var p := Pomodoro(st, now, present);
    ExpireWarning(p.state, now).(wasPresent := present)
  }

  /** The phases after the presence phase: reminder, refusal text, presence flag, reset key. */
  function Finish(o: Outcome, now: real, present: bool, resetPressed: bool): FrameResult
  {
    var p := Pomodoro(o.state, now, present);
    var b := AtKeys(o.state, now, present);
    var k := if resetPressed then Reset(b, now, present) else Keyed(b, NotRequested, []);
    FrameResult(k.state, FrameOutput(o.result, o.said + p.said + k.said, k.reply))
  }

  /** The state when the keyboard is read: every other phase of the frame applied. */
  function BeforeKeys(s: Loop, inp: FrameInput): Loop
    requires SessionInv(s) && WellFormed(inp)
  {
    AtKeys(Presence(s, inp).state, inp.now, inp.features.Some?)
  }

  /** One iteration of the frame loop. */
  function NextFrame(s: Loop, inp: FrameInput): FrameResult
    requires SessionInv(s) && WellFormed(inp)
  {
    Finish(Presence(s, inp), inp.now, inp.features.Some?, inp.resetPressed)
  }

  /**
   * Lines 331-334: at shutdown an open absence is closed at the final
   * time, every clock reading of the shutdown taken as `now`.
   */
  function Shutdown(s: Loop, now: real): seq<Interval>
  {
    if s.pauseStart.Some? then
      var finalElapsed := now - s.startTime;
      s.awayPeriods + [Interval(finalElapsed - (now - s.pauseStart.value), finalElapsed)]
    else s.awayPeriods
  }

  // ----- Properties of one frame -----

  /**
   * The phases after the presence phase change only the sitting timer,
   * the reminder time, the refusal text and the presence flag, and say only
   * the reminder and the reset announcement.
   */
  lemma FinishKeeps(o: Outcome, now: real, present: bool, resetPressed: bool)
    ensures var r := Finish(o, now, present, resetPressed);
      && r.output.result == o.result
      && r.state == o.state.(pomodoroStart := r.state.pomodoroStart,
                             pausedDuration := r.state.pausedDuration,
                             lastPomodoroWarning := r.state.lastPomodoroWarning,
                             warningText := r.state.warningText,
                             warningDisplayStart := r.state.warningDisplayStart,
                             wasPresent := present)
      && (o.state.pausedDuration == 0.0 ==> r.state.pausedDuration == 0.0)
      && r.output.said == o.said + Pomodoro(o.state, now, present).said +
           (if resetPressed then Reset(AtKeys(o.state, now, present), now, present).said else [])
      && (forall ev :: ev in r.output.said <==>
            (ev in o.said || ev in Pomodoro(o.state, now, present).said || (ev == TimerReset && r.output.reset == Accepted)))
      && (forall ev :: ev in Pomodoro(o.state, now, present).said ==> ev == StandUp)
  {
    var p := Pomodoro(o.state, now, present);
    var b := AtKeys(o.state, now, present);
    assert b == o.state.(lastPomodoroWarning := p.state.lastPomodoroWarning, warningText := b.warningText,
                         wasPresent := present);
    if resetPressed {
      var k := Reset(b, now, present);
      assert k.state == b.(pomodoroStart := k.state.pomodoroStart, pausedDuration := k.state.pausedDuration,
                           warningText := k.state.warningText, warningDisplayStart := k.state.warningDisplayStart);
    }
  }

  /** The same, for a whole frame. */
  lemma LaterPhases(s: Loop, inp: FrameInput)
    requires SessionInv(s) && WellFormed(inp)
    ensures var o, r := Presence(s, inp), NextFrame(s, inp);
      && r.output.result == o.result
      && r.state == o.state.(pomodoroStart := r.state.pomodoroStart,
                             pausedDuration := r.state.pausedDuration,
                             lastPomodoroWarning := r.state.lastPomodoroWarning,
                             warningText := r.state.warningText,
                             warningDisplayStart := r.state.warningDisplayStart,
                             wasPresent := inp.features.Some?)
      && (o.state.pausedDuration == 0.0 ==> r.state.pausedDuration == 0.0)
      && r.output.said == o.said + Pomodoro(o.state, inp.now, inp.features.Some?).said +
           (if inp.resetPressed then Reset(BeforeKeys(s, inp), inp.now, inp.features.Some?).said else [])
  {
    FinishKeeps(Presence(s, inp), inp.now, inp.features.Some?, inp.resetPressed);
  }

  /**
   * The presence phase leaves the start time, the reminder time and the
   * refusal text alone, and says only the welcome, the calibration notice and
   * the posture warning.
   */
  lemma PresenceKeeps(s: Loop, inp: FrameInput)
    requires SessionInv(s) && WellFormed(inp)
    ensures var o := Presence(s, inp);
      && o.state.startTime == s.startTime
      && o.state.lastPomodoroWarning == s.lastPomodoroWarning
      && o.state.warningText == s.warningText && o.state.warningDisplayStart == s.warningDisplayStart
      && (forall ev :: ev in o.said ==> ev == Welcome || ev == CalibrationDone || ev == SitUpright)
  {
    if inp.features.Some? {
      var e := ReturnEdge(s, inp.now);
      var f := inp.features.value;
      if Confirming(e) {
        assert Presence(s, inp) == Outcome(ConfirmReturn(e, inp.now).state, None, ConfirmReturn(e, inp.now).said);
      } else if !e.calibrated {
        assert Presence(s, inp) == Outcome(Calibrate(e, f).state, None, Calibrate(e, f).said);
      } else {
        BaselineUsableFromInv(s);
        assert Presence(s, inp) == Monitor(e, inp.now, f);
        MonitorRecords(e, inp.now, f);
      }
    }
  }

  /**
   * The presence phase and the return confirmation: only a frame that
   * completes a confirmation changes the confirmed flag, the sitting timer,
   * the pause and the recorded absences, and it appends exactly the open
   * absence, from the pause start to now.
   */
  lemma PresenceConfirmation(s: Loop, inp: FrameInput)
    requires SessionInv(s) && WellFormed(inp) && inp.features.Some?
    ensures var o, e := Presence(s, inp), ReturnEdge(s, inp.now);
      && (!(Confirming(e) && inp.now - e.returnStart.value >= ReturnDebounce) ==>
            && o.state.confirmedBack == s.confirmedBack
            && o.state.pomodoroStart == s.pomodoroStart && o.state.pausedDuration == s.pausedDuration
            && o.state.pauseStart == s.pauseStart && o.state.awayPeriods == s.awayPeriods)
      && (Confirming(e) && inp.now - e.returnStart.value >= ReturnDebounce ==>
            && o.state.confirmedBack && o.state.returnStart.None? && o.state.pauseStart.None?
            && o.state.pomodoroStart == inp.now && o.state.pausedDuration == 0.0
            && o.state.awayPeriods == s.awayPeriods +
                 (if s.pauseStart.Some? then [Interval(s.pauseStart.value - s.startTime, inp.now - s.startTime)] else [])
            && o.said == [Welcome])
  {
    var e := ReturnEdge(s, inp.now);
    var f := inp.features.value;
    if Confirming(e) {
      assert Presence(s, inp) == Outcome(ConfirmReturn(e, inp.now).state, None, ConfirmReturn(e, inp.now).said);
    } else if !e.calibrated {
      assert Presence(s, inp) == Outcome(Calibrate(e, f).state, None, Calibrate(e, f).said);
    } else {
      BaselineUsableFromInv(s);
      assert Presence(s, inp) == Monitor(e, inp.now, f);
      MonitorRecords(e, inp.now, f);
    }
  }

  /**
   * The presence phase, calibration and the return timer: calibration is
   * kept once done, and the return timer is left as the edge set it unless
   * a confirmation completes.
   */
  lemma PresenceTimers(s: Loop, inp: FrameInput)
    requires SessionInv(s) && WellFormed(inp)
    ensures var o, e := Presence(s, inp), ReturnEdge(s, inp.now);
      && (s.calibrated ==>
            o.state.calibrated && o.state.calibrationData == s.calibrationData && o.state.baseline == s.baseline)
      && (inp.features.Some? && !Confirming(e) ==> o.state.returnStart == e.returnStart)
      && (inp.features.Some? && Confirming(e) && inp.now - e.returnStart.value < ReturnDebounce ==>
            o.state.returnStart == e.returnStart)
  {
    if inp.features.Some? {
      var e := ReturnEdge(s, inp.now);
      var f := inp.features.value;
      if Confirming(e) {
        assert Presence(s, inp) == Outcome(ConfirmReturn(e, inp.now).state, None, ConfirmReturn(e, inp.now).said);
      } else if !e.calibrated {
        assert Presence(s, inp) == Outcome(Calibrate(e, f).state, None, Calibrate(e, f).said);
      } else {
        BaselineUsableFromInv(s);
        assert Presence(s, inp) == Monitor(e, inp.now, f);
        MonitorRecords(e, inp.now, f);
      }
    }
  }

  /** The presence phase keeps the between-frames invariant. */
  lemma PresenceInv(s: Loop, inp: FrameInput)
    requires SessionInv(s) && WellFormed(inp)
    ensures SessionInv(Presence(s, inp).state)
  {
    if inp.features.Some? {
      var e := ReturnEdge(s, inp.now);
      var f := inp.features.value;
      if Confirming(e) {
        assert Presence(s, inp) == Outcome(ConfirmReturn(e, inp.now).state, None, ConfirmReturn(e, inp.now).said);
      } else if !e.calibrated {
        assert Presence(s, inp) == Outcome(Calibrate(e, f).state, None, Calibrate(e, f).said);
        var data := s.calibrationData + [f];
        assert ExtractorShaped(data) by {
          forall i | 0 <= i < |data| ensures data[i].Keys == S.ExtractorKeys {
            if i < |s.calibrationData| {
              assert data[i] == s.calibrationData[i];
            }
          }
        }
      } else {
        BaselineUsableFromInv(s);
        assert Presence(s, inp) == Monitor(e, inp.now, f);
        MonitorRecords(e, inp.now, f);
        var res := S.Evaluate(Smoothed(e.smoothing, f), e.baseline);
        H.NextPreservesInv(s.history, inp.now, Some(S.Points(res.penalties)));
      }
    }
  }

  /** Every frame keeps the between-frames invariant; in particular the accumulated pause stays 0. */
  lemma NextFramePreservesInv(s: Loop, inp: FrameInput)
    requires SessionInv(s) && WellFormed(inp)
    ensures SessionInv(NextFrame(s, inp).state)
    ensures NextFrame(s, inp).state.pausedDuration == 0.0
  {
    LaterPhases(s, inp);
    PresenceInv(s, inp);
  }

  /**
   * Calibration is one-way: once calibrated, a frame keeps the flag, the
   * collected frames and the baseline.
   */
  lemma CalibrationOneWay(s: Loop, inp: FrameInput)
    requires SessionInv(s) && WellFormed(inp) && s.calibrated
    ensures var n := NextFrame(s, inp).state;
      n.calibrated && n.calibrationData == s.calibrationData && n.baseline == s.baseline
  {
    LaterPhases(s, inp);
    PresenceTimers(s, inp);
  }

  /**
   * Before calibration every frame with a body is collected; the 90th
   * installs the per-key mean of the collected frames as the baseline and
   * announces it. Frames without a body collect nothing.
   */
  lemma CalibrationCollects(s: Loop, inp: FrameInput)
    requires SessionInv(s) && WellFormed(inp) && !s.calibrated
    ensures var r := NextFrame(s, inp);
      && (inp.features.None? ==> r.state.calibrationData == s.calibrationData && !r.state.calibrated)
      && (inp.features.Some? ==>
            && r.state.calibrationData == s.calibrationData + [inp.features.value]
            && (r.state.calibrated <==> |s.calibrationData| + 1 == CalibrationFrames)
            && (r.state.calibrated ==>
                  r.state.baseline == Some(Mean(r.state.calibrationData, S.ExtractorKeys))
                  && r.output.said[0] == CalibrationDone))
      && r.output.result.None?
  {
    LaterPhases(s, inp);
    var o := Presence(s, inp);
    if inp.features.Some? {
      var f := inp.features.value;
      assert !Confirming(ReturnEdge(s, inp.now));
      assert o == Outcome(Calibrate(s, f).state, None, Calibrate(s, f).said);
    }
  }

  /** The sum of `n` copies of `v` is `n * v`. */
  lemma {:induction false} SumAtConstant(data: seq<FeatureMap>, k: string, v: real)
    requires forall i :: 0 <= i < |data| ==> k in data[i] && data[i][k] == v
    ensures SumAt(data, k) == (|data| as real) * v
    decreases |data|
  {
    if data != [] {
      var init := data[..|data| - 1];
      assert forall i :: 0 <= i < |init| ==> init[i] == data[i];
      SumAtConstant(init, k, v);
    }
  }

  /** Calibrating on a perfectly still posture installs that posture itself. */
  lemma MeanOfConstant(data: seq<FeatureMap>, f: FeatureMap)
    requires |data| > 0 && forall i :: 0 <= i < |data| ==> data[i] == f
    ensures Mean(data, f.Keys) == f
  {
    var m := Mean(data, f.Keys);
    forall k | k in f.Keys
      ensures m[k] == f[k]
    {
      SumAtConstant(data, k, f[k]);
      var n := |data| as real;
      assert SumAt(data, k) / n == f[k] by {
        assert n * f[k] == f[k] * n;
      }
    }
  }

  /**
   * A frame is scored (`compute`, `history.update`, a logged sample)
   * exactly when a body is present, calibration is done and the user is
   * not confirming a return; the frame that completes a confirmation is
   * not scored either. A scored frame scores the smoothed features against
   * the baseline, feeds its penalty values to the history and logs the
   * score; an unscored one touches none of these.
   */
  lemma ScoredIff(s: Loop, inp: FrameInput)
    requires SessionInv(s) && WellFormed(inp)
    ensures var r := NextFrame(s, inp);
      && (r.output.result.Some? <==>
            inp.features.Some? && s.calibrated && (s.confirmedBack || (s.wasPresent && s.returnStart.None?)))
      && (r.output.result.Some? ==>
            var res := r.output.result.value;
            && res == S.Evaluate(Smoothed(s.smoothing, inp.features.value), s.baseline)
            && r.state.smoothing == Some(res.features)
            && r.state.history == H.Next(s.history, inp.now, Some(S.Points(res.penalties)))
            && r.state.longTermHistory == s.longTermHistory + [Sample(inp.now - s.startTime, res.score)])
      && (r.output.result.None? ==>
            && r.state.smoothing == s.smoothing
            && r.state.history == s.history
            && r.state.longTermHistory == s.longTermHistory)
  {
    LaterPhases(s, inp);
    PresenceScoredWhen(s, inp);
    PresenceScored(s, inp);
  }

  /** The presence phase alone: which frames it scores. */
  lemma PresenceScoredWhen(s: Loop, inp: FrameInput)
    requires SessionInv(s) && WellFormed(inp)
    ensures Presence(s, inp).result.Some? <==>
      inp.features.Some? && s.calibrated && (s.confirmedBack || (s.wasPresent && s.returnStart.None?))
  {
    if inp.features.Some? {
      var e := ReturnEdge(s, inp.now);
      var f := inp.features.value;
      if Confirming(e) {
        var c := ConfirmReturn(e, inp.now);
        assert c.state.smoothing == s.smoothing && c.state.history == s.history;
        assert c.state.longTermHistory == s.longTermHistory;
        assert Presence(s, inp) == Outcome(c.state, None, c.said);
      } else if !e.calibrated {
        var c := Calibrate(e, f);
        assert c.state.smoothing == s.smoothing && c.state.history == s.history;
        assert c.state.longTermHistory == s.longTermHistory;
        assert Presence(s, inp) == Outcome(c.state, None, c.said);
      } else {
        BaselineUsableFromInv(s);
        assert Presence(s, inp) == Monitor(e, inp.now, f);
        MonitorRecords(e, inp.now, f);
      }
    } else {
      assert Presence(s, inp) == Outcome(AbsentFrame(s, inp.now), None, []);
    }
  }

  /** The presence phase alone: what scoring records, and that an unscored frame records nothing. */
  lemma PresenceScored(s: Loop, inp: FrameInput)
    requires SessionInv(s) && WellFormed(inp)
    ensures var o := Presence(s, inp);
      && (o.result.Some? ==>
            var res := o.result.value;
            && res == S.Evaluate(Smoothed(s.smoothing, inp.features.value), s.baseline)
            && o.state.smoothing == Some(res.features)
            && o.state.history == H.Next(s.history, inp.now, Some(S.Points(res.penalties)))
            && o.state.longTermHistory == s.longTermHistory + [Sample(inp.now - s.startTime, res.score)])
      && (o.result.None? ==>
            && o.state.smoothing == s.smoothing
            && o.state.history == s.history
            && o.state.longTermHistory == s.longTermHistory)
  {
    if inp.features.Some? {
      var e := ReturnEdge(s, inp.now);
      var f := inp.features.value;
      if Confirming(e) {
        var c := ConfirmReturn(e, inp.now);
        assert c.state.smoothing == s.smoothing && c.state.history == s.history;
        assert c.state.longTermHistory == s.longTermHistory;
        assert Presence(s, inp) == Outcome(c.state, None, c.said);
      } else if !e.calibrated {
        var c := Calibrate(e, f);
        assert c.state.smoothing == s.smoothing && c.state.history == s.history;
        assert c.state.longTermHistory == s.longTermHistory;
        assert Presence(s, inp) == Outcome(c.state, None, c.said);
      } else {
        BaselineUsableFromInv(s);
        assert Presence(s, inp) == Monitor(e, inp.now, f);
        MonitorRecords(e, inp.now, f);
      }
    } else {
      assert Presence(s, inp) == Outcome(AbsentFrame(s, inp.now), None, []);
    }
  }

  /**
   * A monitoring frame scores the smoothed features against the baseline
   * and changes only the smoothing vector, the history, the score log and
   * the two low-score fields.
   */
  lemma MonitorRecords(e: Loop, now: real, f: FeatureMap)
    requires S.HasScoringKeys(f) && S.BaselineUsable(e.baseline)
    ensures var o, res := Monitor(e, now, f), S.Evaluate(Smoothed(e.smoothing, f), e.baseline);
      && o.result == Some(res)
      && res.features == Smoothed(e.smoothing, f)
      && o.state == e.(smoothing := Some(res.features),
                       history := H.Next(e.history, now, Some(S.Points(res.penalties))),
                       longTermHistory := e.longTermHistory + [Sample(now - e.startTime, res.score)],
                       lowScoreStart := o.state.lowScoreStart,
                       lastWarning := o.state.lastWarning)
      && o.said == LowScoreCheck(e, now, res.score).said
      && o.state.lowScoreStart == LowScoreCheck(e, now, res.score).state.lowScoreStart
      && o.state.lastWarning == LowScoreCheck(e, now, res.score).state.lastWarning
  {
  }

  /**
   * A frame without a body clears the return and low-score timers; if the
   * user was present on the previous frame it opens a pause now and marks
   * the user as not confirmed back, otherwise it leaves both alone.
   */
  lemma AbsentFrameRule(s: Loop, inp: FrameInput)
    requires SessionInv(s) && WellFormed(inp) && inp.features.None?
    ensures var r := NextFrame(s, inp).state;
      && r.returnStart.None? && r.lowScoreStart.None? && !r.wasPresent
      && (s.wasPresent ==> r.pauseStart == Some(inp.now) && !r.confirmedBack)
      && (!s.wasPresent ==> r.pauseStart == s.pauseStart && r.confirmedBack == s.confirmedBack)
  {
    LaterPhases(s, inp);
    assert Presence(s, inp) == Outcome(AbsentFrame(s, inp.now), None, []);
  }

  /**
   * On a frame with a body and no return timer running, the timer starts
   * exactly when the user was absent on the previous frame, calibration is
   * done and the user is not confirmed back.
   */
  lemma ReturnTimerRule(s: Loop, inp: FrameInput)
    requires SessionInv(s) && WellFormed(inp) && inp.features.Some? && s.returnStart.None?
    ensures NextFrame(s, inp).state.returnStart == Some(inp.now) <==>
      !s.wasPresent && s.calibrated && !s.confirmedBack
    ensures !(!s.wasPresent && s.calibrated && !s.confirmedBack) ==> NextFrame(s, inp).state.returnStart.None?
  {
    LaterPhases(s, inp);
    PresenceTimers(s, inp);
  }

  /**
   * A confirming frame completes the confirmation once 3 s have passed
   * since the return timer started: the user is back, both timers are
   * cleared, the pause is reset, an open absence is recorded from the pause
   * start to now (so it includes the confirmation window) and the welcome is
   * said first; the sitting timer restarts now, and a reset pressed in the
   * same frame is refused because the full limit is left. Earlier
   * confirming frames change none of this.
   */
  lemma ConfirmationRule(s: Loop, inp: FrameInput)
    requires SessionInv(s) && WellFormed(inp) && inp.features.Some?
    requires Confirming(ReturnEdge(s, inp.now))
    ensures var r, t := NextFrame(s, inp), ReturnEdge(s, inp.now).returnStart.value;
      && r.output.result.None?
      && (inp.now - t >= ReturnDebounce ==>
            && r.state.confirmedBack && r.state.returnStart.None? && r.state.pauseStart.None?
            && r.state.pausedDuration == 0.0
            && r.state.awayPeriods == s.awayPeriods +
                 (if s.pauseStart.Some? then [Interval(s.pauseStart.value - s.startTime, inp.now - s.startTime)] else [])
            && r.output.said[0] == Welcome
            && r.state.pomodoroStart == inp.now
            && (inp.resetPressed ==> r.output.reset == Rejected))
      && (inp.now - t < ReturnDebounce ==>
            && !r.state.confirmedBack && r.state.returnStart == Some(t)
            && r.state.awayPeriods == s.awayPeriods && r.state.pauseStart == s.pauseStart)
  {
    LaterPhases(s, inp);
    PresenceConfirmation(s, inp);
    PresenceTimers(s, inp);
    PresenceScored(s, inp);
  }

  /**
   * Lines 213-226 on their own: a warning is said exactly when the score is
   * under 70, low scores started at least 1.5 s ago and the last warning is
   * more than 5 s old; a low score with no timer running starts it, and a
   * score of 70 or more stops it.
   */
  lemma LowScoreCheckRule(s: Loop, now: real, score: int)
    ensures var w := LowScoreCheck(s, now, score);
      && (SitUpright in w.said <==>
            score < LowScoreThreshold && s.lowScoreStart.Some?
            && now - s.lowScoreStart.value >= LowScoreDebounce && now - s.lastWarning > WarningCooldown)
      && (SitUpright in w.said ==> w.state.lastWarning == now)
      && (SitUpright !in w.said ==> w.state.lastWarning == s.lastWarning)
      && (score < LowScoreThreshold && s.lowScoreStart.None? ==> w.state.lowScoreStart == Some(now))
      && (score < LowScoreThreshold && s.lowScoreStart.Some? ==> w.state.lowScoreStart == s.lowScoreStart)
      && (score >= LowScoreThreshold ==> w.state.lowScoreStart.None?)
  {
  }

  /**
   * The same rule inside a whole frame: the posture warning is said exactly
   * on a scored frame whose score is under 70, whose low-score timer was
   * started at least 1.5 s earlier, and that comes more than 5 s after the
   * previous warning.
   */
  lemma LowScoreWarningIff(s: Loop, inp: FrameInput)
    requires SessionInv(s) && WellFormed(inp)
    ensures var r := NextFrame(s, inp);
      SitUpright in r.output.said <==>
        && r.output.result.Some? && r.output.result.value.score < LowScoreThreshold
        && s.lowScoreStart.Some? && inp.now - s.lowScoreStart.value >= LowScoreDebounce
        && inp.now - s.lastWarning > WarningCooldown
  {
    LaterPhases(s, inp);
    FinishKeeps(Presence(s, inp), inp.now, inp.features.Some?, inp.resetPressed);
    PresenceWarns(s, inp);
  }

  /** The presence phase alone: when it says the posture warning. */
  lemma PresenceWarns(s: Loop, inp: FrameInput)
    requires SessionInv(s) && WellFormed(inp)
    ensures var o := Presence(s, inp);
      SitUpright in o.said <==>
        && o.result.Some? && o.result.value.score < LowScoreThreshold
        && s.lowScoreStart.Some? && inp.now - s.lowScoreStart.value >= LowScoreDebounce
        && inp.now - s.lastWarning > WarningCooldown
  {
    var o := Presence(s, inp);
    if inp.features.Some? {
      var e := ReturnEdge(s, inp.now);
      var f := inp.features.value;
      if Confirming(e) {
        assert o == Outcome(ConfirmReturn(e, inp.now).state, None, ConfirmReturn(e, inp.now).said);
      } else if !e.calibrated {
        assert o == Outcome(Calibrate(e, f).state, None, Calibrate(e, f).said);
      } else {
        BaselineUsableFromInv(s);
        assert o == Monitor(e, inp.now, f);
        MonitorRecords(e, inp.now, f);
        var res := S.Evaluate(Smoothed(e.smoothing, f), e.baseline);
        LowScoreCheckRule(e, inp.now, res.score);
      }
    }
  }

  /**
   * The sitting reminder is said exactly when a body is present, the user
   * was already confirmed back, the sitting time is used up and the last
   * reminder is more than 5 s old. Saying it stamps the reminder time, and
   * nothing else moves that time. (A frame that completes a confirmation
   * restarts the timer, so it never reminds.)
   */
  lemma PomodoroIff(s: Loop, inp: FrameInput)
    requires SessionInv(s) && WellFormed(inp)
    ensures var r := NextFrame(s, inp);
      && (StandUp in r.output.said <==>
            inp.features.Some? && s.confirmedBack && TimeLeft(s, inp.now) <= 0.0
            && inp.now - s.lastPomodoroWarning > PomodoroRepeat)
      && (StandUp in r.output.said ==> r.state.lastPomodoroWarning == inp.now)
      && (StandUp !in r.output.said ==> r.state.lastPomodoroWarning == s.lastPomodoroWarning)
  {
    LaterPhases(s, inp);
    PresenceKeeps(s, inp);
    if inp.features.Some? {
      PresenceConfirmation(s, inp);
    }
    assert NextFrame(s, inp).state.lastPomodoroWarning
        == Pomodoro(Presence(s, inp).state, inp.now, inp.features.Some?).state.lastPomodoroWarning;
  }

  /**
   * The reminder repeats at most once per 5 s: a frame that reminds after an
   * earlier reminding frame, with only non-reminding frames between them,
   * comes more than 5 s later.
   */
  lemma {:induction false} PomodoroSpacing(s: Loop, a: FrameInput, gap: seq<FrameInput>, b: FrameInput)
    requires SessionInv(s) && WellFormed(a) && AllWellFormed(gap) && WellFormed(b)
    requires StandUp in NextFrame(s, a).output.said
    requires (NextFramePreservesInv(s, a); NoRemindersIn(NextFrame(s, a).state, gap))
    requires (NextFramePreservesInv(s, a); StandUp in NextFrame(Replay(NextFrame(s, a).state, gap), b).output.said)
    ensures b.now - a.now > PomodoroRepeat
  {
    PomodoroIff(s, a);
    NextFramePreservesInv(s, a);
    var m := NextFrame(s, a).state;
    ReminderTimeKept(m, gap);
    PomodoroIff(Replay(m, gap), b);
  }

  /**
   * The refusal text stays for less than a second after it was shown and is
   * cleared from then on; nothing else changes.
   */
  lemma ExpireWarningRule(s: Loop, now: real)
    ensures var r := ExpireWarning(s, now);
      && r == s.(warningText := r.warningText)
      && (now - s.warningDisplayStart >= WarningDuration ==> r.warningText == [])
      && (now - s.warningDisplayStart < WarningDuration ==> r.warningText == s.warningText)
  {
  }

  /**
   * The reset key, after the presence phase left `o`: it is accepted
   * exactly when a body is present and the sitting time is used up when the
   * key is read; an accepted reset restarts the sitting timer and clears the
   * pause, a refused one shows the refusal text from now on and leaves the
   * timer alone.
   */
  lemma FinishReset(o: Outcome, now: real, present: bool, resetPressed: bool)
    requires TimerReset !in o.said
    ensures var r, b := Finish(o, now, present, resetPressed), AtKeys(o.state, now, present);
      && r.output.reset == (if !resetPressed then NotRequested
                            else if present && TimeLeft(b, now) <= 0.0 then Accepted
                            else Rejected)
      && (r.output.reset == Accepted ==>
            r.state.pomodoroStart == now && r.state.pausedDuration == 0.0 && TimerReset in r.output.said)
      && (r.output.reset == Rejected ==>
            && r.state.warningText == CannotReset && r.state.warningDisplayStart == now
            && r.state.pomodoroStart == b.pomodoroStart && TimerReset !in r.output.said)
      && (r.output.reset == NotRequested ==> r.state == b)
  {
    FinishKeeps(o, now, present, resetPressed);
  }

  /**
   * The same rule inside a whole frame. While the user is confirmed back,
   * the time left at the key is the time left before the frame.
   */
  lemma ResetRule(s: Loop, inp: FrameInput)
    requires SessionInv(s) && WellFormed(inp)
    ensures var r, b := NextFrame(s, inp), BeforeKeys(s, inp);
      && r.output.reset == (if !inp.resetPressed then NotRequested
                            else if inp.features.Some? && TimeLeft(b, inp.now) <= 0.0 then Accepted
                            else Rejected)
      && (r.output.reset == Accepted ==>
            r.state.pomodoroStart == inp.now && r.state.pausedDuration == 0.0 && TimerReset in r.output.said)
      && (r.output.reset == Rejected ==>
            && r.state.warningText == CannotReset && r.state.warningDisplayStart == inp.now
            && r.state.pomodoroStart == b.pomodoroStart && TimerReset !in r.output.said)
      && (r.output.reset == NotRequested ==> r.state == b)
    ensures inp.features.Some? && s.confirmedBack ==> TimeLeft(BeforeKeys(s, inp), inp.now) == TimeLeft(s, inp.now)
  {
    PresenceKeeps(s, inp);
    FinishReset(Presence(s, inp), inp.now, inp.features.Some?, inp.resetPressed);
    if inp.features.Some? {
      PresenceConfirmation(s, inp);
    }
  }

  /** No frame can accept a reset without a body in view. */
  lemma AbsentResetRefused(s: Loop, inp: FrameInput)
    requires SessionInv(s) && WellFormed(inp) && inp.features.None? && inp.resetPressed
    ensures NextFrame(s, inp).output.reset == Rejected
  {
  }

  /** Recorded absences are never rewritten: a frame appends at most one. */
  lemma AwayPeriodsGrow(s: Loop, inp: FrameInput)
    requires SessionInv(s) && WellFormed(inp)
    ensures var a := NextFrame(s, inp).state.awayPeriods;
      s.awayPeriods <= a && |a| <= |s.awayPeriods| + 1
  {
    LaterPhases(s, inp);
    if inp.features.Some? {
      PresenceConfirmation(s, inp);
    } else {
      assert Presence(s, inp) == Outcome(AbsentFrame(s, inp.now), None, []);
    }
  }

  /** At shutdown an open absence is closed at the final time and recorded. */
  lemma ShutdownClosesPause(s: Loop, now: real)
    ensures s.pauseStart.None? ==> Shutdown(s, now) == s.awayPeriods
    ensures s.pauseStart.Some? ==>
      Shutdown(s, now) == s.awayPeriods + [Interval(s.pauseStart.value - s.startTime, now - s.startTime)]
  {
  }

  /** The state before the first frame satisfies the between-frames invariant. */
  lemma StartInv(start: real)
    ensures SessionInv(Start(start))
  {
    var s := Start(start);
    assert ExtractorShaped(s.calibrationData);
    assert !s.calibrated && s.baseline.None? && |s.calibrationData| < CalibrationFrames;
    H.InitialInv();
    assert H.Inv(s.history);
  }

  // ----- A whole session -----

  /** Every frame of a session carries well-formed features. */
  predicate AllWellFormed(inps: seq<FrameInput>)
  {
    forall i :: 0 <= i < |inps| ==> WellFormed(inps[i])
  }

  /** The state after the frames `inps`, in order, starting from `s`. */
  function Replay(s: Loop, inps: seq<FrameInput>): (r: Loop)
    requires SessionInv(s) && AllWellFormed(inps)
    ensures SessionInv(r)
    decreases |inps|
  {
    if inps == [] then s
    else
      var init, last := inps[..|inps| - 1], inps[|inps| - 1];
      assert AllWellFormed(init) by {
        assert forall i :: 0 <= i < |init| ==> init[i] == inps[i];
      }
      var prev := Replay(s, init);
      NextFramePreservesInv(prev, last);
      NextFrame(prev, last).state
  }

  /**
   * Over a whole session the records only grow: recorded absences and
   * logged scores are never rewritten, each frame adds at most one of each,
   * and a calibration, once done, keeps its baseline.
   */
  lemma {:induction false} ReplayKeepsRecords(s: Loop, inps: seq<FrameInput>)
    requires SessionInv(s) && AllWellFormed(inps)
    ensures var r := Replay(s, inps);
      && s.awayPeriods <= r.awayPeriods && |r.awayPeriods| <= |s.awayPeriods| + |inps|
      && s.longTermHistory <= r.longTermHistory && |r.longTermHistory| <= |s.longTermHistory| + |inps|
      && (s.calibrated ==> r.calibrated && r.baseline == s.baseline)
    decreases |inps|
  {
    if inps != [] {
      var init, last := inps[..|inps| - 1], inps[|inps| - 1];
      assert AllWellFormed(init) by {
        assert forall i :: 0 <= i < |init| ==> init[i] == inps[i];
      }
      ReplayKeepsRecords(s, init);
      var prev := Replay(s, init);
      AwayPeriodsGrow(prev, last);
      ScoredIff(prev, last);
      if prev.calibrated {
        CalibrationOneWay(prev, last);
      }
    }
  }

  /** No frame of `gap`, played in order from `s`, is scored. */
  predicate NoneScored(s: Loop, gap: seq<FrameInput>)
    requires SessionInv(s) && AllWellFormed(gap)
    decreases |gap|
  {
    if gap == [] then true
    else
      var init, last := gap[..|gap| - 1], gap[|gap| - 1];
      assert AllWellFormed(init) by {
        assert forall i :: 0 <= i < |init| ==> init[i] == gap[i];
      }
      NoneScored(s, init) && NextFrame(Replay(s, init), last).output.result.None?
  }

  /**
   * Frames that are not scored (absent frames, confirmation frames,
   * calibration frames) leave the posture history exactly as it was: its
   * clock is not paused, it simply does not move.
   */
  lemma {:induction false} UnscoredKeepHistory(s: Loop, gap: seq<FrameInput>)
    requires SessionInv(s) && AllWellFormed(gap) && NoneScored(s, gap)
    ensures Replay(s, gap).history == s.history
    decreases |gap|
  {
    if gap != [] {
      var init, last := gap[..|gap| - 1], gap[|gap| - 1];
      assert AllWellFormed(init) by {
        assert forall i :: 0 <= i < |init| ==> init[i] == gap[i];
      }
      UnscoredKeepHistory(s, init);
      ScoredIff(Replay(s, init), last);
    }
  }

  /**
   * Time away is credited on return: after a run of unscored frames, the
   * next scored frame credits the whole span since the last scored frame,
   * absence and confirmation window included, to the total, to its own
   * state and to the current streak, and a bad streak on both sides of the
   * absence enters the longest bad streak with it.
   */
  lemma AbsenceCreditedOnReturn(s: Loop, gap: seq<FrameInput>, b: FrameInput)
    requires SessionInv(s) && AllWellFormed(gap) && WellFormed(b) && NoneScored(s, gap)
    requires s.history.lastTimestamp.Some?
    requires NextFrame(Replay(s, gap), b).output.result.Some?
    ensures var r := NextFrame(Replay(s, gap), b);
      var h, dt := r.state.history, H.Elapsed(s.history.lastTimestamp.value, b.now);
      var st := H.StateOf(S.Points(r.output.result.value.penalties));
      && h.lastTimestamp == Some(b.now)
      && h.totalTime == s.history.totalTime + dt
      && H.TimeIn(h, st) == H.TimeIn(s.history, st) + dt
      && h.currentStreak == (if st == s.history.currentState then s.history.currentStreak + dt else dt)
      && (st == H.Bad && s.history.currentState == H.Bad ==> h.maxBadStreak >= s.history.currentStreak + dt)
  {
    UnscoredKeepHistory(s, gap);
    var prev := Replay(s, gap);
    ScoredIff(prev, b);
    var ps := Some(S.Points(NextFrame(prev, b).output.result.value.penalties));
    H.NextCreditsElapsed(s.history, b.now, ps);
    H.StreakRule(s.history, b.now, ps);
  }

  /** No frame of `gap`, played in order from `s`, says the sitting reminder. */
  predicate NoRemindersIn(s: Loop, gap: seq<FrameInput>)
    requires SessionInv(s) && AllWellFormed(gap)
    decreases |gap|
  {
    if gap == [] then true
    else
      var init, last := gap[..|gap| - 1], gap[|gap| - 1];
      assert AllWellFormed(init) by {
        assert forall i :: 0 <= i < |init| ==> init[i] == gap[i];
      }
      NoRemindersIn(s, init) && StandUp !in NextFrame(Replay(s, init), last).output.said
  }

  /** Frames that do not remind leave the time of the last reminder alone. */
  lemma {:induction false} ReminderTimeKept(s: Loop, gap: seq<FrameInput>)
    requires SessionInv(s) && AllWellFormed(gap) && NoRemindersIn(s, gap)
    ensures Replay(s, gap).lastPomodoroWarning == s.lastPomodoroWarning
    decreases |gap|
  {
    if gap != [] {
      var init, last := gap[..|gap| - 1], gap[|gap| - 1];
      assert AllWellFormed(init) by {
        assert forall i :: 0 <= i < |init| ==> init[i] == gap[i];
      }
      ReminderTimeKept(s, init);
      PomodoroIff(Replay(s, init), last);
    }
  }

  // ----- The frame loop's state, updated in place -----

  /**
   * The variables of the frame loop together with the scorer and the
   * history it drives. Each method is one step of the loop body and is
   * proved to move the state as the matching function above says.
   */
  class PostureSession {
    var startTime: real
    var calibrated: bool
    var calibrationData: seq<FeatureMap>
    var wasPresent: bool
    var pauseStart: Option<real>
    var awayPeriods: seq<Interval>
    var returnStart: Option<real>
    var confirmedBack: bool
    var lowScoreStart: Option<real>
    var lastWarning: real
    var pomodoroStart: real
    var pausedDuration: real
    var lastPomodoroWarning: real
    var longTermHistory: seq<Sample>
    var warningText: string
    var warningDisplayStart: real
    const scorer: S.PostureScore
    const tracker: H.PostureHistory

    /** The loop's state as a value. */
    function Model(): Loop
      reads this, scorer, tracker
    {
      Loop(startTime, calibrated, calibrationData, wasPresent, pauseStart, awayPeriods, returnStart,
           confirmedBack, lowScoreStart, lastWarning, pomodoroStart, pausedDuration, lastPomodoroWarning,
           longTermHistory, warningText, warningDisplayStart, scorer.history, scorer.baseline, tracker.Model())
    }

    /** The between-frames invariant, and the history's own. */
    predicate Valid()
      reads this, scorer, tracker
    {
      tracker.Valid() && SessionInv(Model())
    }

    /**
     * The set-up before the loop: the scorer and the history just created,
     * the program having started at `start`.
     */
    constructor (start: real, scorer: S.PostureScore, tracker: H.PostureHistory)
      requires scorer.history == None && scorer.baseline == None && tracker.Model() == H.Initial
      ensures Model() == Start(start)
      ensures this.scorer == scorer && this.tracker == tracker
    {
      this.scorer, this.tracker := scorer, tracker;
      startTime, calibrated, calibrationData := start, false, [];
      wasPresent, pauseStart, awayPeriods := false, None, [];
      returnStart, confirmedBack, lowScoreStart := None, true, None;
      lastWarning, pomodoroStart, pausedDuration, lastPomodoroWarning := 0.0, start, 0.0, 0.0;
      longTermHistory, warningText, warningDisplayStart := [], "", 0.0;
    }

    /** One pass of the loop body. */
    method Step(inp: FrameInput) returns (out: FrameOutput)
      requires Valid() && WellFormed(inp)
      modifies this, scorer, tracker
      ensures Model() == NextFrame(old(Model()), inp).state && out == NextFrame(old(Model()), inp).output
      ensures Valid()
    {
      ghost var s0 := Model();
      NextFramePreservesInv(s0, inp);
      var result, said := PresenceStep(inp);
      out := FinishStep(inp.now, inp.features.Some?, inp.resetPressed, result, said);
    }

    /** Lines 124-245: the part of the loop body that depends on whether a body was detected. */
    method PresenceStep(inp: FrameInput) returns (result: Option<S.ScoreResult>, said: seq<Event>)
      requires Valid() && WellFormed(inp)
      modifies this, scorer, tracker
      ensures Outcome(Model(), result, said) == Presence(old(Model()), inp)
    {
      if inp.features.Some? {
        result, said := PresentStep(inp.now, inp.features.value);
      } else {
        AbsentStep(inp.now);
        result, said := None, [];
      }
    }

    /** Lines 247-324: the sitting reminder, the refusal text, the presence flag and the reset key. */
    method FinishStep(now: real, present: bool, resetPressed: bool, result: Option<S.ScoreResult>, said: seq<Event>)
      returns (out: FrameOutput)
      modifies this
      ensures var r := Finish(Outcome(old(Model()), result, said), now, present, resetPressed);
        Model() == r.state && out == r.output
    {
      var reminded := PomodoroStep(now, present);
      ExpireWarningStep(now);
      wasPresent := present;
      var reply := NotRequested;
      var announced: seq<Event> := [];
      if resetPressed {
        reply, announced := ResetStep(now, present);
      }
      out := FrameOutput(result, said + reminded + announced, reply);
    }

    /** Lines 130-133. */
    method ReturnEdgeStep(now: real)
      modifies this
      ensures Model() == ReturnEdge(old(Model()), now)
    {
      if !wasPresent && calibrated && !confirmedBack && returnStart.None? {
        returnStart := Some(now);
      }
    }

    /** Lines 124-226: a frame with a body. */
    method PresentStep(now: real, f: FeatureMap) returns (result: Option<S.ScoreResult>, said: seq<Event>)
      requires Valid() && f.Keys == S.ExtractorKeys
      modifies this, scorer, tracker
      ensures Outcome(Model(), result, said) == PresentFrame(old(Model()), now, f)
    {
      ghost var s0 := Model();
      BaselineUsableFromInv(s0);
      ReturnEdgeStep(now);
      if returnStart.Some? && !confirmedBack && calibrated {
        said := ConfirmStep(now);
        result := None;
      } else if !calibrated {
        said := CalibrateStep(f);
        result := None;
      } else {
        var r;
        r, said := MonitorStep(now, f);
        result := Some(r);
      }
    }

    /** Lines 138-156: a confirming frame. */
    method ConfirmStep(now: real) returns (said: seq<Event>)
      requires Confirming(Model())
      modifies this
      ensures Spoken(Model(), said) == ConfirmReturn(old(Model()), now)
    {
      said := [];
      if now - returnStart.value >= ReturnDebounce {
        RecordAbsence(now);
        pomodoroStart, pausedDuration, pauseStart := now, 0.0, None;
        confirmedBack, returnStart := true, None;
        said := [Welcome];
      }
    }

    /** Lines 147-150: an open absence is recorded, ending now. */
    method RecordAbsence(now: real)
      modifies this
      ensures Model() == old(Model()).(awayPeriods := old(awayPeriods) + Closing(old(Model()), now))
    {
      if pauseStart.Some? {
        var awayEnd := now - startTime;
        var awayStart := awayEnd - (now - pauseStart.value);
        awayPeriods := awayPeriods + [Interval(awayStart, awayEnd)];
      }
    }

    /** Lines 174-197: a calibration frame. */
    method CalibrateStep(f: FeatureMap) returns (said: seq<Event>)
      requires ExtractorShaped(calibrationData) && f.Keys == S.ExtractorKeys
      modifies this, scorer
      ensures Spoken(Model(), said) == Calibrate(old(Model()), f)
    {
      calibrationData := calibrationData + [f];
      said := [];
      if |calibrationData| >= CalibrationFrames {
        var average := Mean(calibrationData, f.Keys);
        scorer.SetBaseline(average);
        calibrated := true;
        said := [CalibrationDone];
      }
    }

    /** Lines 199-226: a monitoring frame. */
    method MonitorStep(now: real, f: FeatureMap) returns (r: S.ScoreResult, said: seq<Event>)
      requires tracker.Valid() && S.HasScoringKeys(f) && S.BaselineUsable(scorer.baseline)
      modifies this, scorer, tracker
      ensures Outcome(Model(), Some(r), said) == Monitor(old(Model()), now, f)
    {
      r := scorer.Compute(f);
      tracker.Update(now, Some(S.Points(r.penalties)));
      longTermHistory := longTermHistory + [Sample(now - startTime, r.score)];
      said := LowScoreStep(now, r.score);
    }

    /** Lines 213-226: the low-score debounce. */
    method LowScoreStep(now: real, score: int) returns (said: seq<Event>)
      modifies this
      ensures Spoken(Model(), said) == LowScoreCheck(old(Model()), now, score)
    {
      said := [];
      if score < LowScoreThreshold {
        if lowScoreStart.None? {
          lowScoreStart := Some(now);
        } else if now - lowScoreStart.value >= LowScoreDebounce {
          if now - lastWarning > WarningCooldown {
            said := [SitUpright];
            lastWarning := now;
          }
        }
      } else {
        lowScoreStart := None;
      }
    }

    /** Lines 228-245: a frame without a body. */
    method AbsentStep(now: real)
      modifies this
      ensures Model() == AbsentFrame(old(Model()), now)
    {
      if wasPresent {
        pauseStart := Some(now);
        confirmedBack := false;
      }
      returnStart := None;
      lowScoreStart := None;
    }

    /** Lines 247-268: the sitting reminder. */
    method PomodoroStep(now: real, present: bool) returns (said: seq<Event>)
      modifies this
      ensures Spoken(Model(), said) == Pomodoro(old(Model()), now, present)
    {
      said := [];
      if present && confirmedBack {
        var timeLeft := PomodoroLimit - (now - pomodoroStart - pausedDuration);
        if timeLeft <= 0.0 && now - lastPomodoroWarning > PomodoroRepeat {
          said := [StandUp];
          lastPomodoroWarning := now;
        }
      }
    }

    /** Lines 279-283: the refusal text expires. */
    method ExpireWarningStep(now: real)
      modifies this
      ensures Model() == ExpireWarning(old(Model()), now)
    {
      if warningText != [] && now - warningDisplayStart < WarningDuration {
      } else if now - warningDisplayStart >= WarningDuration {
        warningText := [];
      }
    }

    /** Lines 307-324: the reset key. */
    method ResetStep(now: real, present: bool) returns (reply: ResetReply, said: seq<Event>)
      modifies this
      ensures Keyed(Model(), reply, said) == Reset(old(Model()), now, present)
    {
      var timeLeft := 1.0;
      if present {
        timeLeft := PomodoroLimit - (now - pomodoroStart - pausedDuration);
      }
      if timeLeft <= 0.0 {
        pomodoroStart := now;
        pausedDuration := 0.0;
        reply, said := Accepted, [TimerReset];
      } else {
        warningText := CannotReset;
        warningDisplayStart := now;
        reply, said := Rejected, [];
      }
    }

    /** Lines 92-324: the frame loop, one pass of its body per frame. */
    method Play(frames: seq<FrameInput>)
      requires Valid() && AllWellFormed(frames)
      modifies this, scorer, tracker
      ensures Valid() && Model() == Replay(old(Model()), frames)
    {
      ghost var s0 := Model();
      var i := 0;
      while i < |frames|
        invariant 0 <= i <= |frames|
        invariant AllWellFormed(frames[..i])
        invariant Valid() && Model() == Replay(s0, frames[..i])
      {
        assert frames[..i + 1][..i] == frames[..i];
        var out := Step(frames[i]);
        i := i + 1;
      }
      assert frames[..i] == frames;
    }

    /** Lines 329-334: at shutdown an open absence is recorded. */
    method Close(now: real)
      modifies this
      ensures awayPeriods == Shutdown(old(Model()), now)
      ensures Model() == old(Model()).(awayPeriods := awayPeriods)
    {
      if pauseStart.Some? {
        var finalElapsed := now - startTime;
        var awayStart := finalElapsed - (now - pauseStart.value);
        awayPeriods := awayPeriods + [Interval(awayStart, finalElapsed)];
      }
    }
  }

  /**
   * Lines 47-79 of the program's set-up: a new scorer, a new history and the
   * loop's variables, the program having started at `start`.
   */
  method Open(start: real) returns (session: PostureSession)
    ensures fresh(session) && fresh(session.scorer) && fresh(session.tracker)
    ensures session.Model() == Start(start) && session.Valid()
  {
    var scorer := new S.PostureScore();
    var tracker := new H.PostureHistory();
    session := new PostureSession(start, scorer, tracker);
    StartInv(start);
  }

  /**
   * Lines 92-337 of `main()`, on a session `Open` set up: every frame in
   * order, then, at shutdown time `end`, the close of an open absence. The
   * absences and the score log are the values passed to `generate_report`
   * at line 337; that call passes three arguments to a function of two
   * (Codes/report_generator.py:5), so no report is built from them.
   */
  method RunToShutdown(session: PostureSession, frames: seq<FrameInput>, end: real)
    returns (away: seq<Interval>, samples: seq<Sample>)
    requires session.Valid() && AllWellFormed(frames)
    modifies session, session.scorer, session.tracker
    ensures away == Shutdown(Replay(old(session.Model()), frames), end)
    ensures samples == Replay(old(session.Model()), frames).longTermHistory
  {
    session.Play(frames);
    session.Close(end);
    away, samples := session.awayPeriods, session.longTermHistory;
  }
}
