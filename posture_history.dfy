/**
 * The session history of Codes/posture_history.py: every scored frame is
 * classified good, warning or bad from its penalties, the time since the
 * previous frame is credited to that state, and the current streak, the
 * longest bad streak and the number of bad episodes are tracked.
 */
module History {
  import opened Common

  /** `"good"`, `"warning"`, `"bad"`. */
  datatype PostureState = Good | Warning | Bad

  /** A penalty at least this large makes the frame bad. */
  const BadPenalty: int := 20

  /**
   * The classification rule: bad when some penalty reaches 20, good when
   * every penalty is 0 (an empty penalty map included), warning otherwise.
   */
  function StateOf(ps: seq<int>): PostureState
  {
    if exists i :: 0 <= i < |ps| && ps[i] >= BadPenalty then Bad
    else if forall i :: 0 <= i < |ps| ==> ps[i] == 0 then Good
    else Warning
  }

  /**
   * `_classify_state(penalties)` over the values of the penalty map: an
   * empty map is good, then a scan for a bad penalty, then a scan for a
   * non-zero one.
   */
  method ClassifyState(ps: seq<int>) returns (s: PostureState)
    ensures s == StateOf(ps)
    ensures s == Bad <==> exists i :: 0 <= i < |ps| && ps[i] >= BadPenalty
    ensures s == Good <==> forall i :: 0 <= i < |ps| ==> ps[i] == 0
    ensures s == Warning <==>
      (forall i :: 0 <= i < |ps| ==> ps[i] < BadPenalty) && exists i :: 0 <= i < |ps| && ps[i] != 0
  {
    if |ps| == 0 {
      return Good;
    }
    var i := 0;
    while i < |ps|
      invariant 0 <= i <= |ps|
      invariant forall j :: 0 <= j < i ==> ps[j] < BadPenalty
    {
      if ps[i] >= BadPenalty {
        return Bad;
      }
      i := i + 1;
    }
    i := 0;
    while i < |ps|
      invariant 0 <= i <= |ps|
      invariant forall j :: 0 <= j < i ==> ps[j] == 0
    {
      if ps[i] != 0 {
        return Warning;
      }
      i := i + 1;
    }
    return Good;
  }

  /** The fields of a `PostureHistory` object. */
  datatype HistoryState = HistoryState(
    totalTime: real,
    goodTime: real,
    warningTime: real,
    badTime: real,
    currentState: PostureState,
    currentStreak: real,
    maxBadStreak: real,
    badEpisodes: nat,
    lastTimestamp: Option<real>)

  /** The state `__init__` sets up. */
  const Initial: HistoryState :=
    HistoryState(0.0, 0.0, 0.0, 0.0, Good, 0.0, 0.0, 0, None)

  /**
   * The state a frame is classified as: `penalties` is `None` when the
   * result is missing or has no penalty map, which counts as good.
   */
  function FrameState(penalties: Option<seq<int>>): PostureState
  {
    if penalties.Some? then StateOf(penalties.value) else Good
  }

  /** The elapsed time `update` credits, a negative difference counting as 0. */
  function Elapsed(last: real, timestamp: real): (dt: real)
    ensures 0.0 <= dt
    ensures timestamp >= last ==> dt == timestamp - last
    ensures timestamp < last ==> dt == 0.0
  {
    if timestamp - last < 0.0 then 0.0 else timestamp - last
  }

  /** The time accumulated in state `s`. */
  function TimeIn(h: HistoryState, s: PostureState): real
  {
    match s
    case Good => h.goodTime
    case Warning => h.warningTime
    case Bad => h.badTime
  }

  /** Step 2 of `update`: `dt` goes to the total and to the frame's state. */
  function Credit(h: HistoryState, dt: real, s: PostureState): HistoryState
  {
    h.(totalTime := h.totalTime + dt,
       goodTime := if s == Good then h.goodTime + dt else h.goodTime,
       warningTime := if s == Warning then h.warningTime + dt else h.warningTime,
       badTime := if s == Bad then h.badTime + dt else h.badTime)
  }

  /** Step 3 of `update`: extend or restart the streak, count bad episodes. */
  function Streak(h: HistoryState, dt: real, s: PostureState): HistoryState
  {
    if s == h.currentState then
      h.(currentStreak := h.currentStreak + dt,
         maxBadStreak := if s == Bad then MaxReal(h.maxBadStreak, h.currentStreak + dt) else h.maxBadStreak)
    else
      h.(badEpisodes := if s == Bad then h.badEpisodes + 1 else h.badEpisodes,
         currentState := s,
         currentStreak := dt,
         maxBadStreak := if s == Bad then MaxReal(h.maxBadStreak, dt) else h.maxBadStreak)
  }

  /** `update(timestamp, result_dict)` as a function of the old fields. */
  function Next(h: HistoryState, timestamp: real, penalties: Option<seq<int>>): HistoryState
  {
    match h.lastTimestamp
    case None =>
      // The first frame only records the time and seeds the state.
      h.(lastTimestamp := Some(timestamp),
         currentState := if penalties.Some? then StateOf(penalties.value) else h.currentState)
    case Some(last) =>
      var dt := Elapsed(last, timestamp);
      var s := FrameState(penalties);
      Streak(Credit(h.(lastTimestamp := Some(timestamp)), dt, s), dt, s)
  }

  /**
   * What every reachable history satisfies: the per-state times are
   * non-negative and add up to the total, the current streak fits in the
   * time of its state, the longest bad streak fits in the bad time and
   * covers an ongoing bad streak, and before the first frame nothing has
   * been recorded.
   */
  predicate Inv(h: HistoryState)
  {
    && 0.0 <= h.goodTime && 0.0 <= h.warningTime && 0.0 <= h.badTime
    && h.goodTime + h.warningTime + h.badTime == h.totalTime
    && 0.0 <= h.currentStreak <= TimeIn(h, h.currentState)
    && 0.0 <= h.maxBadStreak <= h.badTime
    && (h.currentState == Bad ==> h.currentStreak <= h.maxBadStreak)
    && (h.lastTimestamp.None? ==>
          h.totalTime == 0.0 && h.currentStreak == 0.0 && h.maxBadStreak == 0.0 && h.badEpisodes == 0)
  }

  /** `__init__` establishes the invariant. */
  lemma InitialInv()
    ensures Inv(Initial)
  {
  }

  /** Every `update` preserves the invariant. */
  lemma NextPreservesInv(h: HistoryState, timestamp: real, penalties: Option<seq<int>>)
    requires Inv(h)
    ensures Inv(Next(h, timestamp, penalties))
  {
    var n := Next(h, timestamp, penalties);
    if h.lastTimestamp.Some? {
      var dt := Elapsed(h.lastTimestamp.value, timestamp);
      var s := FrameState(penalties);
      assert n.lastTimestamp.Some?;
      assert n.goodTime + n.warningTime + n.badTime == n.totalTime by {
        match s
        case Good => assert n.goodTime == h.goodTime + dt && n.warningTime == h.warningTime && n.badTime == h.badTime;
        case Warning => assert n.goodTime == h.goodTime && n.warningTime == h.warningTime + dt && n.badTime == h.badTime;
        case Bad => assert n.goodTime == h.goodTime && n.warningTime == h.warningTime && n.badTime == h.badTime + dt;
      }
      assert n.currentState == s;
      assert TimeIn(n, s) == TimeIn(h, s) + dt;
      if s == h.currentState {
        assert n.currentStreak == h.currentStreak + dt;
      } else {
        assert n.currentStreak == dt;
      }
    }
  }

  /**
   * The first `update` records the timestamp and seeds the state from the
   * frame; it credits no time and counts no bad episode, even when the
   * seeded state is bad.
   */
  lemma FirstUpdateSeeds(timestamp: real, penalties: Option<seq<int>>)
    ensures Next(Initial, timestamp, penalties) ==
      Initial.(lastTimestamp := Some(timestamp), currentState := FrameState(penalties))
    ensures Next(Initial, timestamp, penalties).badEpisodes == 0
    ensures Next(Initial, timestamp, penalties).totalTime == 0.0
  {
  }

  /**
   * Later updates credit `dt = max(0, timestamp - last)` to the total and to
   * the frame's state only.
   */
  lemma NextCreditsElapsed(h: HistoryState, timestamp: real, penalties: Option<seq<int>>)
    requires h.lastTimestamp.Some?
    ensures var n, dt, s := Next(h, timestamp, penalties), Elapsed(h.lastTimestamp.value, timestamp), FrameState(penalties);
      && n.lastTimestamp == Some(timestamp)
      && n.totalTime == h.totalTime + dt
      && TimeIn(n, s) == TimeIn(h, s) + dt
      && forall o :: o != s ==> TimeIn(n, o) == TimeIn(h, o)
  {
  }

  /**
   * Because `dt` is clamped, no accumulator, the longest bad streak nor the
   * episode count ever decreases, whatever the timestamps.
   */
  lemma NextMonotone(h: HistoryState, timestamp: real, penalties: Option<seq<int>>)
    ensures var n := Next(h, timestamp, penalties);
      && h.totalTime <= n.totalTime
      && h.goodTime <= n.goodTime && h.warningTime <= n.warningTime && h.badTime <= n.badTime
      && h.maxBadStreak <= n.maxBadStreak
      && h.badEpisodes <= n.badEpisodes
  {
  }

  /**
   * The streak rule: the same state extends the streak by `dt`; a new state
   * becomes current with a streak of exactly `dt`.
   */
  lemma StreakRule(h: HistoryState, timestamp: real, penalties: Option<seq<int>>)
    requires h.lastTimestamp.Some?
    ensures var n, dt, s := Next(h, timestamp, penalties), Elapsed(h.lastTimestamp.value, timestamp), FrameState(penalties);
      && n.currentState == s
      && (s == h.currentState ==> n.currentStreak == h.currentStreak + dt)
      && (s != h.currentState ==> n.currentStreak == dt)
  {
  }

  /**
   * The episode rule: the count grows by one exactly on a (non-first) update
   * that moves from a non-bad state into bad, and is unchanged otherwise.
   */
  lemma EpisodeRule(h: HistoryState, timestamp: real, penalties: Option<seq<int>>)
    ensures var n := Next(h, timestamp, penalties);
      n.badEpisodes == if h.lastTimestamp.Some? && h.currentState != Bad && FrameState(penalties) == Bad
        then h.badEpisodes + 1 else h.badEpisodes
  {
  }

  /**
   * A session whose first two frames are bad has bad time on record but no
   * bad episode: the first frame seeds the bad state without counting it.
   */
  lemma StartingBadCountsNoEpisode(t0: real, t1: real)
    requires t0 < t1
    ensures var h := Next(Next(Initial, t0, Some([BadPenalty])), t1, Some([BadPenalty]));
      h.badTime == t1 - t0 && h.badEpisodes == 0 && h.currentState == Bad
  {
    var h0 := Next(Initial, t0, Some([BadPenalty]));
    assert StateOf([BadPenalty]) == Bad by {
      assert [BadPenalty][0] >= BadPenalty;
    }
    assert h0.currentState == Bad;
  }

  /** One call of `update`: the time and, when present, the penalty values. */
  datatype Frame = Frame(timestamp: real, penalties: Option<seq<int>>)

  /** The history after a sequence of `update` calls. */
  function Run(h: HistoryState, frames: seq<Frame>): HistoryState
    decreases |frames|
  {
    if frames == [] then h
    else Run(Next(h, frames[0].timestamp, frames[0].penalties), frames[1..])
  }

  /** The invariant holds after any sequence of updates. */
  lemma {:induction false} RunPreservesInv(h: HistoryState, frames: seq<Frame>)
    requires Inv(h)
    ensures Inv(Run(h, frames))
    decreases |frames|
  {
    if frames != [] {
      NextPreservesInv(h, frames[0].timestamp, frames[0].penalties);
      RunPreservesInv(Next(h, frames[0].timestamp, frames[0].penalties), frames[1..]);
    }
  }

  /** Timestamps that never go backwards, starting no earlier than `t0`. */
  predicate Ordered(t0: real, frames: seq<Frame>)
  {
    && (forall i :: 0 <= i < |frames| ==> t0 <= frames[i].timestamp)
    && (forall i, j :: 0 <= i < j < |frames| ==> frames[i].timestamp <= frames[j].timestamp)
  }

  /**
   * With ordered timestamps the total time telescopes: it grows by exactly
   * the span from the previous timestamp to the last frame's.
   */
  lemma {:induction false} RunTotalTime(h: HistoryState, frames: seq<Frame>)
    requires h.lastTimestamp.Some? && frames != []
    requires Ordered(h.lastTimestamp.value, frames)
    ensures Run(h, frames).lastTimestamp == Some(frames[|frames| - 1].timestamp)
    ensures Run(h, frames).totalTime == h.totalTime + (frames[|frames| - 1].timestamp - h.lastTimestamp.value)
    decreases |frames|
  {
    var n := Next(h, frames[0].timestamp, frames[0].penalties);
    assert n.totalTime == h.totalTime + (frames[0].timestamp - h.lastTimestamp.value);
    if |frames| > 1 {
      var rest := frames[1..];
      assert Ordered(frames[0].timestamp, rest) by {
        forall i | 0 <= i < |rest| ensures frames[0].timestamp <= rest[i].timestamp {
          assert rest[i] == frames[i + 1];
        }
      }
      RunTotalTime(n, rest);
      assert rest[|rest| - 1] == frames[|frames| - 1];
    }
  }

  /** The dictionary `snapshot` returns. */
  datatype Summary = Summary(
    totalTime: real,
    goodTime: real,
    warningTime: real,
    badTime: real,
    goodRatio: real,
    badRatio: real,
    currentState: PostureState,
    currentStreak: real,
    maxBadStreak: real,
    badEpisodes: nat)

  /** `part / total` once time has been recorded, 0.0 before. */
  function Share(part: real, total: real): (r: real)
    requires 0.0 <= part <= total
    ensures 0.0 <= r <= 1.0
    ensures total == 0.0 ==> r == 0.0
    ensures total > 0.0 ==> r * total == part
  {
    if total > 0.0 then
      ShareAtMostOne(part, total);
      part / total
    else 0.0
  }

  /** A non-negative part of a positive total is a share in [0, 1]. */
  lemma ShareAtMostOne(part: real, total: real)
    requires 0.0 <= part <= total && 0.0 < total
    ensures 0.0 <= part / total <= 1.0
  {
    var q := part / total;
    assert q * total == part;
  }

  /** The shares of two disjoint parts add up to the share of both. */
  lemma SharesAdd(g: real, b: real, total: real)
    requires 0.0 <= g && 0.0 <= b && g + b <= total
    ensures Share(g, total) + Share(b, total) == Share(g + b, total)
  {
    if total > 0.0 {
      assert g / total + b / total == (g + b) / total;
    }
  }

  /**
   * `snapshot()`: the fields, plus the good and bad shares of the total
   * time, both 0 while no time has been recorded; together they never
   * exceed the whole.
   */
  function Summarize(h: HistoryState): (s: Summary)
    requires Inv(h)
    ensures s.totalTime == h.totalTime && s.goodTime == h.goodTime
    ensures s.warningTime == h.warningTime && s.badTime == h.badTime
    ensures s.currentState == h.currentState && s.currentStreak == h.currentStreak
    ensures s.maxBadStreak == h.maxBadStreak && s.badEpisodes == h.badEpisodes
    ensures s.goodRatio == Share(h.goodTime, h.totalTime) && s.badRatio == Share(h.badTime, h.totalTime)
    ensures s.goodRatio + s.badRatio <= 1.0
  {
    SharesAdd(h.goodTime, h.badTime, h.totalTime);
    Summary(h.totalTime, h.goodTime, h.warningTime, h.badTime,
            Share(h.goodTime, h.totalTime), Share(h.badTime, h.totalTime),
            h.currentState, h.currentStreak, h.maxBadStreak, h.badEpisodes)
  }

  /** A `PostureHistory` object: the same fields, updated in place. */
  class PostureHistory {
    var totalTime: real
    var goodTime: real
    var warningTime: real
    var badTime: real
    var currentState: PostureState
    var currentStreak: real
    var maxBadStreak: real
    var badEpisodes: nat
    var lastTimestamp: Option<real>

    /** The fields as a value. */
    function Model(): HistoryState
      reads this
    {
      HistoryState(totalTime, goodTime, warningTime, badTime, currentState,
                   currentStreak, maxBadStreak, badEpisodes, lastTimestamp)
    }

    predicate Valid()
      reads this
    {
      Inv(Model())
    }

    /** `__init__`. */
    constructor ()
      ensures Model() == Initial && Valid()
    {
      totalTime, goodTime, warningTime, badTime := 0.0, 0.0, 0.0, 0.0;
      currentState := Good;
      currentStreak, maxBadStreak := 0.0, 0.0;
      badEpisodes := 0;
      lastTimestamp := None;
    }

    /** `update(timestamp, result_dict)`, with the result's penalty values. */
    method Update(timestamp: real, penalties: Option<seq<int>>)
      requires Valid()
      modifies this
      ensures Model() == Next(old(Model()), timestamp, penalties)
      ensures Valid()
    {
      NextPreservesInv(Model(), timestamp, penalties);
      if lastTimestamp.None? {
        lastTimestamp := Some(timestamp);
        if penalties.Some? {
          currentState := ClassifyState(penalties.value);
        }
        return;
      }
      var dt := timestamp - lastTimestamp.value;
      lastTimestamp := Some(timestamp);
      if dt < 0.0 {
        dt := 0.0;
      }
      // 1. Determine the new state.
      var newState := Good;
      if penalties.Some? {
        newState := ClassifyState(penalties.value);
      }
      // 2. Update the total times.
      CreditTime(dt, newState);
      // 3. Update the streaks.
      UpdateStreak(dt, newState);
    }

    /** Step 2 of `update`, on the fields. */
    method CreditTime(dt: real, s: PostureState)
      modifies this
      ensures Model() == Credit(old(Model()), dt, s)
    {
      totalTime := totalTime + dt;
      if s == Good {
        goodTime := goodTime + dt;
      } else if s == Warning {
        warningTime := warningTime + dt;
      } else {
        badTime := badTime + dt;
      }
    }

    /** Step 3 of `update`, on the fields. */
    method UpdateStreak(dt: real, s: PostureState)
      modifies this
      ensures Model() == Streak(old(Model()), dt, s)
    {
      if s == currentState {
        currentStreak := currentStreak + dt;
        if s == Bad {
          maxBadStreak := MaxReal(maxBadStreak, currentStreak);
        }
      } else {
        if s == Bad {
          badEpisodes := badEpisodes + 1;
        }
        currentState := s;
        currentStreak := dt;
        if s == Bad {
          maxBadStreak := MaxReal(maxBadStreak, currentStreak);
        }
      }
    }

    /** `snapshot()`. */
    function Snapshot(): (s: Summary)
      reads this
      requires Valid()
      ensures s == Summarize(Model())
      ensures 0.0 <= s.goodRatio <= 1.0 && 0.0 <= s.badRatio <= 1.0
    {
      Summarize(Model())
    }
  }
}
