/**
  The study-session environment: cumulative study minutes, a fatigue level and
  two user preferences, discretised into a 4-component state, with a shaped
  reward for each of the three actions.

  The pure functions over `Session` are the specification; the class
  `StudyEnvironment` keeps the same six fields as mutable state and its methods
  are proved against those functions.
 */
module Environment {

  datatype Option<T> = None | Some(value: T)

  /** Action identifiers. */
  const ContinueStudy := 0
  const ShortBreak := 1
  const LongBreak := 2

  /** A session is over once this many minutes have been studied. */
  const SessionMinutes := 120

  /** The observation handed to the agent: (time bucket, fatigue bucket,
      fatigue-sensitivity index, break-bias index). */
  datatype State = State(time: int, fatigue: int, fatiguePref: int, breakBias: int)
  {
    predicate InRange() {
      0 <= time <= 2 && 0 <= fatigue <= 2 && 0 <= fatiguePref <= 2 && 0 <= breakBias <= 2
    }

    /** The state as the index tuple used to address the agent's table. */
    function AsIndex(): (idx: seq<int>)
      ensures |idx| == 4
    {
      [time, fatigue, fatiguePref, breakBias]
    }
  }

  // ---------------------------------------------------------------------------
  // Preference encodings

  /** Index of a fatigue-sensitivity name: low, medium, high are 0, 1, 2. */
  function FatigueIndex(name: string): (r: Option<int>)
    ensures r.Some? <==> (name == "low" || name == "medium" || name == "high")
    ensures r.Some? ==> 0 <= r.value <= 2
  {
    if name == "low" then Some(0)
    else if name == "medium" then Some(1)
    else if name == "high" then Some(2)
    else None
  }

  /** Index of a break-bias name: study, short, long are 0, 1, 2. */
  function BiasIndex(name: string): (r: Option<int>)
    ensures r.Some? <==> (name == "study" || name == "short" || name == "long")
    ensures r.Some? ==> 0 <= r.value <= 2
  {
    if name == "study" then Some(0)
    else if name == "short" then Some(1)
    else if name == "long" then Some(2)
    else None
  }

  /** The name a fatigue-sensitivity index stands for. */
  function FatigueName(i: int): string
    requires 0 <= i <= 2
  {
    if i == 0 then "low" else if i == 1 then "medium" else "high"
  }

  /** The name a break-bias index stands for. */
  function BiasName(i: int): string
    requires 0 <= i <= 2
  {
    if i == 0 then "study" else if i == 1 then "short" else "long"
  }

  /** Names and indices are in one-to-one correspondence, in both directions. */
  lemma PreferenceEncodingRoundTrip(name: string, i: int)
    requires 0 <= i <= 2
    ensures FatigueIndex(FatigueName(i)) == Some(i)
    ensures BiasIndex(BiasName(i)) == Some(i)
    ensures FatigueIndex(name) == Some(i) ==> FatigueName(i) == name
    ensures BiasIndex(name) == Some(i) ==> BiasName(i) == name
  {
  }

  /** Weight of the fatigue penalty; an unknown name falls back to 1.0. */
  function FatigueWeight(name: string): (w: real)
    ensures name == "low" ==> w == 0.6
    ensures name == "medium" ==> w == 1.0
    ensures name == "high" ==> w == 1.5
    ensures name != "low" && name != "medium" && name != "high" ==> w == 1.0
    ensures 0.6 <= w <= 1.5
  {
    if name == "low" then 0.6
    else if name == "medium" then 1.0
    else if name == "high" then 1.5
    else 1.0
  }

  // ---------------------------------------------------------------------------
  // Discretisation

  /** The bucket of `v` for the two thresholds `low <= high`: below `low` is 0,
      below `high` is 1, otherwise 2. */
  function Bucket(v: int, low: int, high: int): (b: int)
    requires low <= high
    ensures b == (if low <= v then 1 else 0) + (if high <= v then 1 else 0)
  {
    if v < low then 0 else if v < high then 1 else 2
  }

  lemma BucketMonotone(v: int, w: int, low: int, high: int)
    requires low <= high && v <= w
    ensures 0 <= Bucket(v, low, high) <= Bucket(w, low, high) <= 2
  {
  }

  function ClampZero(x: int): (r: nat)
    ensures r >= x && (r == x || r == 0)
  {
    if x < 0 then 0 else x
  }

  // ---------------------------------------------------------------------------
  // The session as a value

  datatype Session = Session(
    studyTime: int,
    fatigue: int,
    fatiguePref: string,
    fatiguePrefIdx: int,
    breakBias: string,
    breakBiasIdx: int)
  {
    /** Counters are non-negative and every preference name agrees with its index. */
    ghost predicate Valid() {
      0 <= studyTime && 0 <= fatigue &&
      FatigueIndex(fatiguePref) == Some(fatiguePrefIdx) &&
      BiasIndex(breakBias) == Some(breakBiasIdx)
    }
  }

  /** A freshly constructed environment: medium sensitivity, study bias. */
  function Initial(): (e: Session)
    ensures e.Valid() && e.studyTime == 0 && e.fatigue == 0
    ensures e.fatiguePref == "medium" && e.fatiguePrefIdx == 1
    ensures e.breakBias == "study" && e.breakBiasIdx == 0
  {
    Session(0, 0, "medium", 1, "study", 0)
  }

  /** The observation of a session. */
  function StateOf(e: Session): (s: State)
    ensures e.Valid() ==> s.InRange()
    ensures s.time == 0 <==> e.studyTime < 30
    ensures s.time == 2 <==> e.studyTime >= 60
    ensures s.fatigue == 0 <==> e.fatigue < 3
    ensures s.fatigue == 2 <==> e.fatigue >= 6
    ensures s.fatiguePref == e.fatiguePrefIdx && s.breakBias == e.breakBiasIdx
  {
    State(Bucket(e.studyTime, 30, 60), Bucket(e.fatigue, 3, 6), e.fatiguePrefIdx, e.breakBiasIdx)
  }

  /** Setting the preferences: each recognised name replaces the stored name
      together with its index; an unrecognised one leaves that preference alone. */
  function WithPreferences(e: Session, sensitivity: string, bias: string): (r: Session)
    ensures r.studyTime == e.studyTime && r.fatigue == e.fatigue
    ensures e.Valid() ==> r.Valid()
  {
    var e1 := match FatigueIndex(sensitivity)
      case Some(i) => e.(fatiguePref := sensitivity, fatiguePrefIdx := i)
      case None => e;
    match BiasIndex(bias)
    case Some(j) => e1.(breakBias := bias, breakBiasIdx := j)
    case None => e1
  }

  /** What one action does to the counters; any other action changes nothing. */
  function Transition(e: Session, action: int): (r: Session)
    ensures e.Valid() ==> r.Valid()
    ensures r.studyTime >= e.studyTime
    ensures r.fatiguePref == e.fatiguePref && r.fatiguePrefIdx == e.fatiguePrefIdx
    ensures r.breakBias == e.breakBias && r.breakBiasIdx == e.breakBiasIdx
  {
    if action == ContinueStudy then e.(studyTime := e.studyTime + 10, fatigue := e.fatigue + 1)
    else if action == ShortBreak then e.(fatigue := ClampZero(e.fatigue - 2))
    else if action == LongBreak then e.(fatigue := ClampZero(e.fatigue - 4))
    else e
  }

  /** Penalty for studying on while tired; uses the fatigue before the step. */
  function FatiguePenalty(e: Session): real
  {
    -0.5 * FatigueWeight(e.fatiguePref) * (ClampZero(e.fatigue - 3) as real)
  }

  /** The preference adjustment of a break reward: a bonus when the break is the
      favoured kind, a penalty when the user favours studying. */
  function BreakBiasAdjustment(bias: string, favoured: string): real
  {
    if bias == favoured then 0.3 else if bias == "study" then -0.4 else 0.0
  }

  /** The shaped reward of taking `action` in session `e`. Break rewards look at
      the fatigue after the break has been taken. */
  function Reward(e: Session, action: int): (r: real)
    ensures r <= 2.6
    ensures action != ContinueStudy ==> -2.1 <= r <= 1.8
  {
    var after := Transition(e, action).fatigue;
    if action == ContinueStudy then
      1.5 + 0.6 + FatiguePenalty(e) + (if e.breakBias == "study" then 0.5 else 0.0)
    else if action == ShortBreak then
      0.5 + (if after >= 4 then 1.0 else -0.5) + BreakBiasAdjustment(e.breakBias, "short")
    else if action == LongBreak then
      -0.5 + (if after >= 6 then 1.5 else -1.2) + BreakBiasAdjustment(e.breakBias, "long")
    else
      0.0
  }

  /** The session is over; a finished session always shows the top time bucket. */
  predicate Done(e: Session)
    ensures Done(e) ==> StateOf(e).time == 2
  {
    e.studyTime >= SessionMinutes
  }

  /** The session restarted with the same preferences: it is not over and shows
      the lowest time and fatigue buckets. */
  function Restart(e: Session): (r: Session)
    ensures StateOf(r) == State(0, 0, e.fatiguePrefIdx, e.breakBiasIdx)
    ensures !Done(r)
    ensures e.Valid() ==> r.Valid()
  {
    e.(studyTime := 0, fatigue := 0)
  }

  // ---------------------------------------------------------------------------
  // Properties of the specification

  /** Setting preferences keeps names and indices consistent, never touches the
      counters, and treats the two arguments independently. */
  lemma WithPreferencesEffect(e: Session, sensitivity: string, bias: string)
    ensures var e' := WithPreferences(e, sensitivity, bias);
      e'.studyTime == e.studyTime && e'.fatigue == e.fatigue &&
      (e.Valid() ==> e'.Valid()) &&
      (FatigueIndex(sensitivity).Some? ==>
        e'.fatiguePref == sensitivity && Some(e'.fatiguePrefIdx) == FatigueIndex(sensitivity)) &&
      (FatigueIndex(sensitivity).None? ==>
        e'.fatiguePref == e.fatiguePref && e'.fatiguePrefIdx == e.fatiguePrefIdx) &&
      (BiasIndex(bias).Some? ==>
        e'.breakBias == bias && Some(e'.breakBiasIdx) == BiasIndex(bias)) &&
      (BiasIndex(bias).None? ==>
        e'.breakBias == e.breakBias && e'.breakBiasIdx == e.breakBiasIdx)
  {
  }

  /** The sensitivity outcome does not depend on the bias argument, and vice versa. */
  lemma WithPreferencesIndependent(e: Session, s1: string, s2: string, b1: string, b2: string)
    ensures WithPreferences(e, s1, b1).fatiguePref == WithPreferences(e, s1, b2).fatiguePref
    ensures WithPreferences(e, s1, b1).fatiguePrefIdx == WithPreferences(e, s1, b2).fatiguePrefIdx
    ensures WithPreferences(e, s1, b1).breakBias == WithPreferences(e, s2, b1).breakBias
    ensures WithPreferences(e, s1, b1).breakBiasIdx == WithPreferences(e, s2, b1).breakBiasIdx
  {
  }

  /** A step keeps the session valid, never lowers the study time, never touches
      the preferences, and an unknown action is a no-op worth nothing. */
  lemma TransitionPreserves(e: Session, action: int)
    ensures var e' := Transition(e, action);
      (e.Valid() ==> e'.Valid()) &&
      e'.studyTime >= e.studyTime &&
      e'.fatiguePref == e.fatiguePref && e'.fatiguePrefIdx == e.fatiguePrefIdx &&
      e'.breakBias == e.breakBias && e'.breakBiasIdx == e.breakBiasIdx
    ensures !(0 <= action <= 2) ==> Transition(e, action) == e && Reward(e, action) == 0.0
  {
  }

  /** Continuing adds exactly ten minutes and one unit of fatigue; a break keeps
      the study time and lowers fatigue by two (short) or four (long), never
      below zero. */
  lemma TransitionCounters(e: Session, action: int)
    requires e.Valid()
    ensures action == ContinueStudy ==>
      (Transition(e, action).studyTime == e.studyTime + 10 && Transition(e, action).fatigue == e.fatigue + 1)
    ensures action == ShortBreak ==>
      (Transition(e, action).studyTime == e.studyTime &&
       Transition(e, action).fatigue == (if e.fatigue >= 2 then e.fatigue - 2 else 0))
    ensures action == LongBreak ==>
      (Transition(e, action).studyTime == e.studyTime &&
       Transition(e, action).fatigue == (if e.fatigue >= 4 then e.fatigue - 4 else 0))
  {
  }

  /** The reward for studying on is 2.1, minus the weighted penalty for each unit
      of fatigue above 3 before the step, plus 0.5 for a study bias. */
  lemma ContinueReward(e: Session)
    requires e.Valid()
    ensures e.fatigue <= 3 ==> Reward(e, ContinueStudy) == (if e.breakBias == "study" then 2.6 else 2.1)
    ensures e.fatigue > 3 ==>
      (Reward(e, ContinueStudy) ==
       2.1 - 0.5 * FatigueWeight(e.fatiguePref) * ((e.fatigue - 3) as real)
           + (if e.breakBias == "study" then 0.5 else 0.0))
  {
  }

  /** More fatigue before studying on never raises the reward for it. */
  lemma ContinueRewardNonIncreasing(e: Session, moreTired: int)
    requires e.fatigue <= moreTired
    ensures Reward(e.(fatigue := moreTired), ContinueStudy) <= Reward(e, ContinueStudy)
  {
  }

  /** A higher fatigue sensitivity never raises the reward for studying on. */
  lemma ContinueRewardBySensitivity(e: Session)
    ensures Reward(e.(fatiguePref := "high"), ContinueStudy) <= Reward(e.(fatiguePref := "medium"), ContinueStudy)
    ensures Reward(e.(fatiguePref := "medium"), ContinueStudy) <= Reward(e.(fatiguePref := "low"), ContinueStudy)
  {
  }

  /** Above fatigue 3, every further unit of fatigue before the step costs 0.3
      (low), 0.5 (medium) or 0.75 (high) of the reward for studying on. */
  lemma ContinueRewardSlope(e: Session)
    requires e.Valid() && e.fatigue > 3
    ensures var bonus := if e.breakBias == "study" then 0.5 else 0.0;
      var over := (e.fatigue - 3) as real;
      (e.fatiguePref == "low" ==> Reward(e, ContinueStudy) == 2.1 - 0.3 * over + bonus) &&
      (e.fatiguePref == "medium" ==> Reward(e, ContinueStudy) == 2.1 - 0.5 * over + bonus) &&
      (e.fatiguePref == "high" ==> Reward(e, ContinueStudy) == 2.1 - 0.75 * over + bonus)
  {
  }

  /** After setting recognised preferences, the observation carries their indices. */
  lemma StateAfterPreferences(e: Session, sensitivity: string, bias: string)
    ensures FatigueIndex(sensitivity).Some? ==>
      StateOf(WithPreferences(e, sensitivity, bias)).fatiguePref == FatigueIndex(sensitivity).value
    ensures BiasIndex(bias).Some? ==>
      StateOf(WithPreferences(e, sensitivity, bias)).breakBias == BiasIndex(bias).value
    ensures StateOf(WithPreferences(e, sensitivity, bias)).time == StateOf(e).time
    ensures StateOf(WithPreferences(e, sensitivity, bias)).fatigue == StateOf(e).fatigue
  {
  }

  /** A short break pays off (before preferences) exactly when the user is
      still at fatigue 4 or more afterwards, and a long break when still at 6
      or more; a long break taken below fatigue 10 always costs. */
  lemma BreakRewards(e: Session)
    requires e.Valid()
    ensures Reward(e, ShortBreak) - BreakBiasAdjustment(e.breakBias, "short") == (if e.fatigue >= 6 then 1.5 else 0.0)
    ensures Reward(e, LongBreak) - BreakBiasAdjustment(e.breakBias, "long") == (if e.fatigue >= 10 then 1.0 else -1.7)
    ensures e.fatigue < 10 ==> Reward(e, LongBreak) <= -1.4
  {
  }

  /** A short break at fatigue 6 with a short-break bias earns 1.8. */
  lemma ShortBreakExample(e: Session)
    requires e.fatigue == 6 && e.breakBias == "short"
    ensures Reward(e, ShortBreak) == 1.8
    ensures Transition(e, ShortBreak).fatigue == 4
  {
  }

  /** From a fresh environment set to high sensitivity and long-break bias,
      studying on once gives fatigue 1, ten minutes, reward 2.1, not done. */
  lemma HighLongFirstStep()
    ensures var e := Restart(WithPreferences(Initial(), "high", "long"));
      var e' := Transition(e, ContinueStudy);
      e'.fatigue == 1 && e'.studyTime == 10 && Reward(e, ContinueStudy) == 2.1 && !Done(e')
  {
  }

  /** Resetting zeroes the counters and keeps the preferences. */
  lemma ResetEffect(e: Session)
    ensures var r := Restart(e);
      r.studyTime == 0 && r.fatigue == 0 &&
      r.fatiguePref == e.fatiguePref && r.breakBias == e.breakBias &&
      StateOf(r) == State(0, 0, e.fatiguePrefIdx, e.breakBiasIdx) &&
      (e.Valid() ==> r.Valid())
  {
  }

  /** `n` consecutive continue actions. */
  function ContinueTimes(e: Session, n: nat): (r: Session)
    ensures r.studyTime >= e.studyTime && r.fatigue >= e.fatigue
    ensures r.fatiguePref == e.fatiguePref && r.breakBias == e.breakBias
  {
    if n == 0 then e else Transition(ContinueTimes(e, n - 1), ContinueStudy)
  }

  lemma {:induction false} ContinueTimesCounters(e: Session, n: nat)
    ensures ContinueTimes(e, n) == e.(studyTime := e.studyTime + 10 * n, fatigue := e.fatigue + n)
  {
    if n > 0 {
      ContinueTimesCounters(e, n - 1);
    }
  }

  /** From a reset, the twelfth consecutive continue ends the session at exactly
      120 minutes, and none of the eleven before it does. */
  lemma {:induction false} TwelveContinuesEndSession(e: Session)
    ensures ContinueTimes(Restart(e), 12).studyTime == 120
    ensures Done(ContinueTimes(Restart(e), 12))
    ensures forall k: nat :: 1 <= k < 12 ==> !Done(ContinueTimes(Restart(e), k))
  {
    ContinueTimesCounters(Restart(e), 12);
    forall k: nat | 1 <= k < 12
      ensures !Done(ContinueTimes(Restart(e), k))
    {
      ContinueTimesCounters(Restart(e), k);
    }
  }

  // ---------------------------------------------------------------------------
  // The environment object

  class StudyEnvironment {
    var studyTime: int
    var fatigue: int
    var fatiguePref: string
    var breakBias: string
    var fatiguePrefIdx: int
    var breakBiasIdx: int

    /** The six fields as a value. */
    function Model(): Session
      reads this
    {
      Session(studyTime, fatigue, fatiguePref, fatiguePrefIdx, breakBias, breakBiasIdx)
    }

    constructor ()
      ensures Model() == Initial()
    {
      studyTime := 0;
      fatigue := 0;
      fatiguePref := "medium";
      breakBias := "study";
      fatiguePrefIdx := 1;
      breakBiasIdx := 0;
    }

    function GetState(): (s: State)
      reads this
      ensures Model().Valid() ==> s.InRange()
      ensures s == StateOf(Model())
    {
      State(Bucket(studyTime, 30, 60), Bucket(fatigue, 3, 6), fatiguePrefIdx, breakBiasIdx)
    }

    method SetPreferences(sensitivity: string, bias: string)
      modifies this
      ensures Model() == WithPreferences(old(Model()), sensitivity, bias)
      ensures old(Model()).Valid() ==> Model().Valid()
    {
      var fi := FatigueIndex(sensitivity);
      if fi.Some? {
        fatiguePref := sensitivity;
        fatiguePrefIdx := fi.value;
      }
      var bi := BiasIndex(bias);
      if bi.Some? {
        breakBias := bias;
        breakBiasIdx := bi.value;
      }
      WithPreferencesEffect(old(Model()), sensitivity, bias);
    }

    method Step(action: int) returns (s: State, reward: real, done: bool)
      modifies this
      ensures Model() == Transition(old(Model()), action)
      ensures reward == Reward(old(Model()), action)
      ensures s == StateOf(Model()) && done == Done(Model())
      ensures studyTime >= old(studyTime)
      ensures old(Model()).Valid() ==> Model().Valid() && s.InRange()
    {
      ghost var before := Model();
      reward := 0.0;
      var weight := FatigueWeight(fatiguePref);
      var penalty := -0.5 * weight * (ClampZero(fatigue - 3) as real);
      var progressBonus := 0.6;

      if action == ContinueStudy {
        studyTime := studyTime + 10;
        fatigue := fatigue + 1;
        reward := 1.5 + progressBonus + penalty;
        if breakBias == "study" {
          reward := reward + 0.5;
        }
      } else if action == ShortBreak {
        fatigue := ClampZero(fatigue - 2);
        reward := 0.5;
        if fatigue >= 4 {
          reward := reward + 1.0;
        } else {
          reward := reward - 0.5;
        }
        if breakBias == "short" {
          reward := reward + 0.3;
        } else if breakBias == "study" {
          reward := reward - 0.4;
        }
      } else if action == LongBreak {
        fatigue := ClampZero(fatigue - 4);
        reward := -0.5;
        if fatigue >= 6 {
          reward := reward + 1.5;
        } else {
          reward := reward - 1.2;
        }
        if breakBias == "long" {
          reward := reward + 0.3;
        } else if breakBias == "study" {
          reward := reward - 0.4;
        }
      }

      done := studyTime >= SessionMinutes;
      s := GetState();
      TransitionPreserves(before, action);
    }

    method Reset() returns (s: State)
      modifies this
      ensures Model() == Restart(old(Model()))
      ensures studyTime == 0 && fatigue == 0
      ensures s == State(0, 0, fatiguePrefIdx, breakBiasIdx)
    {
      studyTime := 0;
      fatigue := 0;
      s := GetState();
    }
  }
}
