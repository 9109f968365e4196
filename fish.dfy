/** The mood state machine and the judging of Food/Fish.cs. Coroutines are
    replaced by explicit step methods: `FeedingTick(dt)` is one resumption of
    the feeding countdown after its per-frame yield, `HungerTick(dt)` one frame
    of the hunger loop's random wait, and `JudgementElapsed` and
    `DepartureElapsed` the moments at which the fixed waits before the
    judgement and the departure run out. */
module Food {
  import opened Engine
  import Managers

  datatype FishState = Chilling | Hungry | Cooking | Served | LeavingHangry

  datatype FishType = Anchovy | Tuna | Salmon

  const FeedingDuration: real := 60.0
  const HungerWaitMin: real := 15.0
  const HungerWaitMax: real := 30.0
  /** Cooking for this long gives a Salmon the best quality. */
  const ReferenceCookTime: real := 5.0
  const MaxQuality: real := 5.0
  /** Upper end of the rating a fish gives when it leaves unfed. */
  const HangryRatingMax: real := 0.99

  /** Indices into the fish's emote sprites; `judgeNum` is one of the first three. */
  const EmoteHappy: int := 0
  const EmoteMad: int := 1
  const EmoteMeh: int := 2

  // ---------------------------------------------------------------------
  // Quality and verdict

  /** How much of the reference quality a fish type reaches per unit of cooking. */
  function Coefficient(t: FishType): (c: real)
    ensures 0.0 < c <= 1.0
  {
    match t
    case Anchovy => 0.33
    case Tuna => 0.66
    case Salmon => 1.0
  }

  /** The quality `DetermineQuality` stores: the cooking time as a fraction of
      the reference time, times 5, times the type's coefficient, clamped to
      [0, 5]. The fraction and the factor 5 cancel, so inside the clamp the
      quality is the cooking time times the coefficient. */
  function Quality(cookingTimer: real, t: FishType): (q: real)
    ensures 0.0 <= q <= MaxQuality
    ensures 0.0 <= cookingTimer * Coefficient(t) <= MaxQuality ==> q == cookingTimer * Coefficient(t)
    ensures cookingTimer <= 0.0 ==> q == 0.0
    ensures MaxQuality <= cookingTimer * Coefficient(t) ==> q == MaxQuality
  {
    var qualityPercentage := cookingTimer / ReferenceCookTime;
    match t
    case Anchovy => Clamp(qualityPercentage * 5.0 * 0.33, 0.0, MaxQuality)
    case Tuna => Clamp(qualityPercentage * 5.0 * 0.66, 0.0, MaxQuality)
    case Salmon => Clamp(qualityPercentage * 5.0, 0.0, MaxQuality)
  }

  /** A Salmon cooked for exactly the reference time reaches 5 exactly. */
  lemma SalmonAtReferenceTime()
    ensures Quality(ReferenceCookTime, Salmon) == MaxQuality
  {
  }

  /** Longer cooking never lowers the quality. */
  lemma QualityMonotone(a: real, b: real, t: FishType)
    requires a <= b
    ensures Quality(a, t) <= Quality(b, t)
  {
  }

  /** For the same cooking time, Anchovy <= Tuna <= Salmon. */
  lemma QualityOrderedByType(cookingTimer: real)
    ensures Quality(cookingTimer, Anchovy) <= Quality(cookingTimer, Tuna) <= Quality(cookingTimer, Salmon)
  {
  }

  /** The verdict bucket `Served` stores in `judgeNum`, used as an emote index. */
  function JudgeNum(foodQuality: real): (n: int)
    ensures 0 <= n <= 2
    ensures n == EmoteMad <==> foodQuality < 2.0
    ensures n == EmoteMeh <==> 2.0 <= foodQuality < 4.0
    ensures n == EmoteHappy <==> 4.0 <= foodQuality
  {
    if foodQuality < 2.0 then EmoteMad
    else if foodQuality >= 2.0 && foodQuality < 4.0 then EmoteMeh
    else EmoteHappy
  }

  /** An Anchovy can only delight a customer after about 12 seconds of cooking,
      a Salmon after 4. */
  lemma HappyVerdictNeedsCooking(cookingTimer: real, t: FishType)
    requires JudgeNum(Quality(cookingTimer, t)) == EmoteHappy
    ensures cookingTimer * Coefficient(t) >= 4.0
    ensures t == Anchovy ==> cookingTimer >= 12.0
    ensures t == Salmon ==> cookingTimer >= 4.0
  {
  }

  // ---------------------------------------------------------------------
  // The fish

  /** The part of a fish that the setter and its entry actions can change:
      the state and the coroutines. */
  datatype Mood = Mood(
    state: FishState,
    hungerActive: bool,
    hungerWait: real,
    feedingActive: bool,
    feedingStoppable: bool,
    departurePending: bool)

  /** The setter called with LeavingHangry: a no-op if the fish already is. */
  ghost function LeftHangry(m: Mood): Mood
  {
    if m.state == LeavingHangry then m else m.(state := LeavingHangry, departurePending := true)
  }

  /** `StartCoroutine(FeedingTimer())` run up to its first yield, for a fish
      with the given pause flag and countdown. When the loop condition already
      fails, the coroutine ends at once and, unless paused, sends the fish
      away. Only a timer started by `Hungry` is kept in `feedingTimeCoroutine`,
      where `Served` can stop it; one started by `ResumeTimers` is not. */
  ghost predicate FeedingStarted(before: Mood, isPaused: bool, remaining: real, byResume: bool, after: Mood)
  {
    if !isPaused && remaining > 0.0 then
      after == before.(feedingActive := true, feedingStoppable := !byResume)
    else
      var b := if byResume then before else before.(feedingStoppable := false);
      after == if isPaused then b else LeftHangry(b)
  }

  /** The setter's switch to `value` followed by that state's entry action. */
  ghost predicate Entered(before: Mood, isPaused: bool, remaining: real, value: FishState, after: Mood)
  {
    match value
    case Chilling =>
      if isPaused then after == before.(state := Chilling)
      else
        && after == before.(state := Chilling, hungerActive := true, hungerWait := after.hungerWait)
        && HungerWaitMin <= after.hungerWait <= HungerWaitMax
    case Hungry => FeedingStarted(before.(state := Hungry), isPaused, remaining, false, after)
    case Cooking => after == before.(state := Cooking)
    case Served => after == before.(state := Served)
    case LeavingHangry => after == before.(state := LeavingHangry, departurePending := true)
  }

  /** The notifications one setter call emits: none when the value is the
      current state; otherwise the new state, then LeavingHangry if the entry
      action itself sent the fish away. */
  ghost function Emitted(before: FishState, value: FishState, after: FishState): seq<FishState>
  {
    if before == value then [] else [value] + (if after != value then [after] else [])
  }

  /** A real change notifies once with the new state; a second notification
      can only follow from the Hungry entry action, which sends a fish
      without time left away, and it then carries LeavingHangry. */
  lemma NotificationCarriesNewState(before: Mood, isPaused: bool, remaining: real, value: FishState, after: Mood)
    requires before.state != value
    requires Entered(before, isPaused, remaining, value, after)
    ensures var e := Emitted(before.state, value, after.state);
      && 1 <= |e| <= 2 && e[0] == value
      && (|e| == 2 ==> value == Hungry && e[1] == LeavingHangry && after.departurePending)
  {
  }

  /** A fish that becomes Hungry with no feeding time left, while not paused,
      leaves at once. */
  lemma UnfedHungryFishLeaves(before: Mood, remaining: real, after: Mood)
    requires remaining <= 0.0
    requires Entered(before, false, remaining, Hungry, after)
    ensures after.state == LeavingHangry && after.departurePending
  {
  }

  /** While paused, entering a state other than LeavingHangry keeps that
      state and starts no departure. */
  lemma PausedEntryStays(before: Mood, remaining: real, value: FishState, after: Mood)
    requires value != LeavingHangry
    requires Entered(before, true, remaining, value, after)
    ensures after.state == value && after.departurePending == before.departurePending
  {
  }

  /** The end of a hunger wait: the setter is called with Hungry, and the
      loop goes on with a fresh wait in [15, 30] exactly when the fish is not
      paused. */
  ghost predicate HungerRanOut(before: Mood, isPaused: bool, remaining: real, after: Mood)
  {
    var entered := after.(hungerActive := true, hungerWait := before.hungerWait);
    && (if before.state == Hungry then entered == before
        else Entered(before, isPaused, remaining, Hungry, entered))
    && after.hungerActive == !isPaused
    && (!isPaused ==> HungerWaitMin <= after.hungerWait <= HungerWaitMax)
  }

  class Fish {
    const fishType: FishType
    /** The scheduler whose `currentFishNum` this fish decrements when it leaves. */
    const spawner: Managers.FishSpawner

    var state: FishState
    var remainingFeedingTime: real
    var pausedTime: real
    var isPaused: bool
    var isJudging: bool
    var judgeNum: int
    // The fields of the cookable base that the fish reads and writes.
    var cookingTimer: real
    var foodQuality: real
    var canCook: bool
    var isCooking: bool
    // The coroutines, one instance per kind.
    var hungerActive: bool
    /** What is left of the hunger loop's current wait. */
    var hungerWait: real
    var feedingActive: bool
    var feedingStoppable: bool
    var departurePending: bool
    /** The qualities of the dishes whose judgement is pending, oldest first. */
    var pendingJudgements: seq<real>
    var destroyed: bool
    /** Every value passed to `OnStateChanged` so far. */
    ghost var events: seq<FishState>

    ghost function CurrentMood(): Mood
      reads this
    {
      Mood(state, hungerActive, hungerWait, feedingActive, feedingStoppable, departurePending)
    }

    ghost predicate Valid()
      reads this
    {
      && 0 <= judgeNum <= 2
      && remainingFeedingTime <= FeedingDuration
      && 0.0 <= foodQuality <= MaxQuality
      && (hungerActive ==> hungerWait <= HungerWaitMax)
      && (feedingStoppable ==> feedingActive)
      && (destroyed ==> !hungerActive && !feedingActive && !departurePending && pendingJudgements == [])
    }

    /** No coroutine of the fish is running. */
    ghost predicate Idle()
      reads this
    {
      !hungerActive && !feedingActive && !feedingStoppable && !departurePending && pendingJudgements == []
    }

    /** The field initialisers and `Start`: the fish starts Chilling (the
        setter finds it already Chilling and does nothing) and then starts
        its hunger countdown. */
    constructor (fishType: FishType, spawner: Managers.FishSpawner)
      ensures Valid() && this.fishType == fishType && this.spawner == spawner
      ensures state == Chilling && events == []
      ensures remainingFeedingTime == FeedingDuration && !isPaused && !isJudging && !destroyed
      ensures hungerActive && HungerWaitMin <= hungerWait <= HungerWaitMax
      ensures !feedingActive && !departurePending && pendingJudgements == []
    {
      this.fishType := fishType;
      this.spawner := spawner;
      state := Chilling;
      remainingFeedingTime := FeedingDuration;
      pausedTime := 0.0;
      isPaused := false;
      isJudging := false;
      judgeNum := 0;
      cookingTimer := 0.0;
      foodQuality := 0.0;
      canCook := true;
      isCooking := false;
      feedingActive := false;
      feedingStoppable := false;
      departurePending := false;
      pendingJudgements := [];
      destroyed := false;
      events := [];
      var wait := Range(HungerWaitMin, HungerWaitMax);
      hungerActive := true;
      hungerWait := wait;
    }

    /** The `CurrentState` setter (also reached through `ChangeState`). */
    method SetCurrentState(value: FishState)
      requires Valid() && !destroyed
      modifies this`state, this`hungerActive, this`hungerWait, this`feedingActive,
        this`feedingStoppable, this`departurePending, this`events
      decreases if value == LeavingHangry then 1 else 4
      ensures Valid()
      ensures old(state) == value ==> CurrentMood() == old(CurrentMood()) && events == old(events)
      ensures old(state) != value ==> Entered(old(CurrentMood()), isPaused, remainingFeedingTime, value, CurrentMood())
      ensures events == old(events) + Emitted(old(state), value, state)
    {
      if state != value {
        state := value;
        events := events + [value];
        RunEntryAction();
      }
    }

    /** The switch at the end of the setter, on the state just set. */
    method RunEntryAction()
      requires Valid() && !destroyed
      modifies this`state, this`hungerActive, this`hungerWait, this`feedingActive,
        this`feedingStoppable, this`departurePending, this`events
      decreases if state == LeavingHangry then 0 else 3
      ensures Valid()
      ensures Entered(old(CurrentMood()), isPaused, remainingFeedingTime, old(state), CurrentMood())
      ensures events == old(events) + (if state != old(state) then [state] else [])
    {
      match state {
        case Chilling =>
          StartChilling();
        case Hungry =>
          StartFeedingTimer(false);
        case Cooking =>
        case Served =>
        case LeavingHangry =>
          departurePending := true;
      }
    }

    /** `StartChilling`: starts the hunger loop, which draws its first wait
        unless the fish is paused. */
    method StartChilling()
      requires Valid() && !destroyed
      modifies this`hungerActive, this`hungerWait
      ensures Valid()
      ensures old(isPaused) ==> hungerActive == old(hungerActive) && hungerWait == old(hungerWait)
      ensures !old(isPaused) ==> hungerActive && HungerWaitMin <= hungerWait <= HungerWaitMax
    {
      if !isPaused {
        var wait := Range(HungerWaitMin, HungerWaitMax);
        hungerActive := true;
        hungerWait := wait;
      }
    }

    /** `StartCoroutine(FeedingTimer())`, from `Hungry` or, with `byResume`,
        from `ResumeTimers`. */
    method StartFeedingTimer(byResume: bool)
      requires Valid() && !destroyed
      modifies this`state, this`hungerActive, this`hungerWait, this`feedingActive,
        this`feedingStoppable, this`departurePending, this`events
      decreases 2
      ensures Valid()
      ensures FeedingStarted(old(CurrentMood()), isPaused, remainingFeedingTime, byResume, CurrentMood())
      ensures events == old(events) + (if state != old(state) then [LeavingHangry] else [])
    {
      if !isPaused && remainingFeedingTime > 0.0 {
        feedingActive := true;
        feedingStoppable := !byResume;
      } else {
        if !byResume {
          feedingStoppable := false;
        }
        if !isPaused {
          SetCurrentState(LeavingHangry);
        }
      }
    }

    /** One frame of the hunger loop's `WaitForSeconds`: the wait shrinks by
        the frame time, and once it has run out the hunger step follows. */
    method HungerTick(dt: real)
      requires Valid() && 0.0 <= dt
      modifies this`state, this`hungerActive, this`hungerWait, this`feedingActive,
        this`feedingStoppable, this`departurePending, this`events
      ensures Valid()
      ensures !old(hungerActive) ==> CurrentMood() == old(CurrentMood()) && events == old(events)
      ensures old(hungerActive) && dt < old(hungerWait) ==>
        CurrentMood() == old(CurrentMood()).(hungerWait := old(hungerWait) - dt) && events == old(events)
      ensures old(hungerActive) && old(hungerWait) <= dt ==>
        && HungerRanOut(old(CurrentMood()).(hungerWait := old(hungerWait) - dt), isPaused, remainingFeedingTime, CurrentMood())
        && events == old(events) + Emitted(old(state), Hungry, state)
      ensures state != old(state) ==> old(hungerActive) && old(hungerWait) <= dt
    {
      if hungerActive {
        hungerWait := hungerWait - dt;
        if hungerWait <= 0.0 {
          HungerElapsed();
        }
      }
    }

    /** The wait of the hunger loop has run out: the fish becomes Hungry, and
        the loop draws a new wait unless the fish is paused. */
    method HungerElapsed()
      requires Valid() && hungerActive && hungerWait <= 0.0
      modifies this`state, this`hungerActive, this`hungerWait, this`feedingActive,
        this`feedingStoppable, this`departurePending, this`events
      ensures Valid()
      ensures HungerRanOut(old(CurrentMood()), isPaused, remainingFeedingTime, CurrentMood())
      ensures events == old(events) + Emitted(old(state), Hungry, state)
    {
      SetCurrentState(Hungry);
      if isPaused {
        hungerActive := false;
      } else {
        var wait := Range(HungerWaitMin, HungerWaitMax);
        hungerWait := wait;
      }
    }

    /** One resumption of `FeedingTimer` after its yield: the countdown drops by
        the frame time, then the loop ends if the fish is paused or the time
        is used up, and in the latter case the fish leaves hangry. */
    method FeedingTick(dt: real)
      requires Valid() && 0.0 <= dt
      modifies this`remainingFeedingTime, this`state, this`hungerActive, this`hungerWait,
        this`feedingActive, this`feedingStoppable, this`departurePending, this`events
      ensures Valid()
      ensures remainingFeedingTime <= old(remainingFeedingTime)
      ensures !old(feedingActive) ==>
        remainingFeedingTime == old(remainingFeedingTime) && CurrentMood() == old(CurrentMood()) && events == old(events)
      ensures old(feedingActive) ==> remainingFeedingTime == old(remainingFeedingTime) - dt
      ensures old(feedingActive) ==>
        if !isPaused && remainingFeedingTime > 0.0 then CurrentMood() == old(CurrentMood())
        else
          var stopped := old(CurrentMood()).(feedingActive := false, feedingStoppable := false);
          CurrentMood() == if isPaused then stopped else LeftHangry(stopped)
      ensures state != old(state) ==> state == LeavingHangry && !isPaused && remainingFeedingTime <= 0.0
      ensures events == old(events) + (if state != old(state) then [LeavingHangry] else [])
    {
      if feedingActive {
        remainingFeedingTime := remainingFeedingTime - dt;
        if isPaused || remainingFeedingTime <= 0.0 {
          feedingActive := false;
          feedingStoppable := false;
          if !isPaused {
            SetCurrentState(LeavingHangry);
          }
        }
      }
    }

    /** `Served`: a dish of the given quality reaches the fish. The feeding
        timer is stopped if it is the one `Hungry` started. */
    method Served(dishQuality: real)
      requires Valid() && !destroyed
      modifies this`feedingActive, this`feedingStoppable, this`isJudging, this`judgeNum, this`pendingJudgements
      ensures Valid()
      ensures isJudging && judgeNum == JudgeNum(dishQuality)
      ensures pendingJudgements == old(pendingJudgements) + [dishQuality]
      ensures feedingActive == (old(feedingActive) && !old(feedingStoppable)) && !feedingStoppable
    {
      if feedingStoppable {
        feedingActive := false;
        feedingStoppable := false;
      }
      isJudging := true;
      judgeNum := JudgeNum(dishQuality);
      pendingJudgements := pendingJudgements + [dishQuality];
    }

    /** The delay of `JudgementTime` is over: the fish rates the dish, leaves
        the count and is destroyed. Returns the rating, if a judgement was pending. */
    method JudgementElapsed() returns (rating: Option<real>)
      requires Valid()
      modifies this`hungerActive, this`feedingActive, this`feedingStoppable, this`departurePending,
        this`pendingJudgements, this`destroyed, spawner`currentFishNum, spawner`removed
      ensures Valid()
      ensures old(pendingJudgements) == [] ==>
        && rating == None && unchanged(this) && unchanged(spawner)
      ensures old(pendingJudgements) != [] ==>
        && rating == Some(old(pendingJudgements)[0])
        && spawner.currentFishNum == old(spawner.currentFishNum) - 1
        && spawner.removed == old(spawner.removed) + 1
        && destroyed && Idle()
      ensures old(spawner.Valid()) ==> spawner.Valid()
    {
      rating := None;
      if pendingJudgements != [] {
        rating := Some(pendingJudgements[0]);
        spawner.currentFishNum := spawner.currentFishNum - 1;
        spawner.removed := spawner.removed + 1;
        Destroy();
      }
    }

    /** The delay of `HangryCoroutine` is over: the fish leaves the count,
        gives a rating drawn from [0, 0.99] and is destroyed. */
    method DepartureElapsed() returns (rating: Option<real>)
      requires Valid()
      modifies this`hungerActive, this`feedingActive, this`feedingStoppable, this`departurePending,
        this`pendingJudgements, this`destroyed, spawner`currentFishNum, spawner`removed
      ensures Valid()
      ensures !old(departurePending) ==>
        && rating == None && unchanged(this) && unchanged(spawner)
      ensures old(departurePending) ==>
        && rating.Some? && 0.0 <= rating.value <= HangryRatingMax
        && spawner.currentFishNum == old(spawner.currentFishNum) - 1
        && spawner.removed == old(spawner.removed) + 1
        && destroyed && Idle()
      ensures old(spawner.Valid()) ==> spawner.Valid()
    {
      rating := None;
      if departurePending {
        spawner.currentFishNum := spawner.currentFishNum - 1;
        var r := Range(0.0, HangryRatingMax);
        rating := Some(r);
        spawner.removed := spawner.removed + 1;
        Destroy();
      }
    }

    /** `Destroy(gameObject)`: the fish is gone, and its coroutines with it. */
    method Destroy()
      requires Valid()
      modifies this`hungerActive, this`feedingActive, this`feedingStoppable, this`departurePending,
        this`pendingJudgements, this`destroyed
      ensures Valid() && destroyed && Idle()
    {
      StopAllCoroutines();
      destroyed := true;
    }

    method StopAllCoroutines()
      requires Valid()
      modifies this`hungerActive, this`feedingActive, this`feedingStoppable, this`departurePending,
        this`pendingJudgements
      ensures Valid() && Idle()
    {
      hungerActive := false;
      feedingActive := false;
      feedingStoppable := false;
      departurePending := false;
      pendingJudgements := [];
    }

    /** `StartCooking`: the fish itself goes into the pan, which switches it
        to Cooking and cancels every countdown it had running. */
    method StartCooking()
      requires Valid() && !destroyed
      modifies this`state, this`hungerActive, this`hungerWait, this`feedingActive,
        this`feedingStoppable, this`departurePending, this`pendingJudgements, this`events
      ensures Valid()
      ensures state == Cooking && Idle() && hungerWait == old(hungerWait)
      ensures events == old(events) + (if old(state) != Cooking then [Cooking] else [])
    {
      SetCurrentState(Cooking);
      StopAllCoroutines();
    }

    /** `DetermineQuality`: cooking is over and the quality is fixed. */
    method DetermineQuality()
      requires Valid()
      modifies this`foodQuality, this`isCooking
      ensures Valid()
      ensures foodQuality == Quality(cookingTimer, fishType) && !isCooking
    {
      foodQuality := Quality(cookingTimer, fishType);
      isCooking := false;
    }

    /** The `OnMouseDrag` guard: dragging goes through except for a served fish. */
    method OnMouseDrag() returns (dragAllowed: bool)
      ensures dragAllowed <==> state != FishState.Served
    {
      dragAllowed := state != FishState.Served;
    }

    /** `PauseTimers` at time `now`. */
    method PauseTimers(now: real)
      requires Valid()
      modifies this`isPaused, this`pausedTime
      ensures Valid()
      ensures isPaused && pausedTime == now
    {
      isPaused := true;
      pausedTime := now;
    }

    /** `ResumeTimers` at time `now`: the pause's length comes off the feeding
        countdown and a new feeding timer starts. The clock never runs
        backwards, so `now` is not earlier than the time of the pause. */
    method ResumeTimers(now: real)
      requires Valid() && !destroyed
      requires isPaused ==> pausedTime <= now
      modifies this`isPaused, this`remainingFeedingTime, this`state, this`hungerActive, this`hungerWait,
        this`feedingActive, this`feedingStoppable, this`departurePending, this`events
      ensures Valid()
      ensures !old(isPaused) ==>
        && !isPaused && remainingFeedingTime == old(remainingFeedingTime)
        && CurrentMood() == old(CurrentMood()) && events == old(events)
      ensures old(isPaused) ==>
        && !isPaused
        && remainingFeedingTime == old(remainingFeedingTime) - (now - old(pausedTime))
        && FeedingStarted(old(CurrentMood()), false, remainingFeedingTime, true, CurrentMood())
      ensures events == old(events) + (if state != old(state) then [LeavingHangry] else [])
    {
      if isPaused {
        isPaused := false;
        var pauseDuration := now - pausedTime;
        remainingFeedingTime := remainingFeedingTime - pauseDuration;
        StartFeedingTimer(true);
      }
    }
  }
}
