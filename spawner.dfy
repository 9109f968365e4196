/** The spawn scheduler of Managers/FishSpawner.cs: a per-frame `Update`
    that advances the session clock, spawns fish under a population cap,
    tightens the spawn interval as the session goes on, shows the remaining
    time and picks an ending from the average rating. */
module Managers {
  import opened Engine

  const MaxFishNum: int := 40
  const TimeToStopSpawning: real := 300.0
  const GameTime: real := 390.0
  const TimeBetweenAdjustments: real := 120.0
  /** `Update` only considers adjusting the interval from this elapsed time on. */
  const AdjustFrom: real := 120.0
  /** `AdjustSpawnInterval` re-rolls into the additional range from here on ... */
  const FirstPhase: real := 240.0
  /** ... and into [1, 5] from here on. */
  const SecondPhase: real := 480.0
  const InitialSpawnIntervalMin: real := 5.0
  const InitialSpawnIntervalMax: real := 15.0
  const AdditionalSpawnIntervalMin: real := 1.0
  const InitialAdditionalSpawnIntervalMax: real := 8.0
  const MaxIntervalStep: real := 3.0
  const MinXBound: real := -12.2
  const MaxXBound: real := 7.2
  const MinZBound: real := 5.0
  const MaxZBound: real := 10.0

  datatype Vec3 = Vec3(x: real, y: real, z: real)

  /** One `Instantiate` call: which prefab, and where. */
  datatype Spawn = Spawn(prefab: nat, position: Vec3)

  /** The text of the on-screen timer, as three numbers. */
  datatype Clock = Clock(hours: int, minutes: int, seconds: int)

  // ---------------------------------------------------------------------
  // Weighted archetype selection

  /** The weight `SpawnFish` gives prefab slot `i`. */
  function Weight(i: nat): (w: real)
    ensures 0.0 < w
  {
    if i == 0 then 0.6 else if i == 1 then 0.3 else 0.1
  }

  /** The sum of the weights of the first `n` slots: `cumulativeWeights[n - 1]`
      once the filling loop has run, and `totalWeight` for `n` prefabs. */
  function WeightSum(n: nat): real
  {
    if n == 0 then 0.0 else WeightSum(n - 1) + Weight(n - 1)
  }

  /** The cumulative weights are 0.6, 0.9, 1.0, 1.1, ... */
  lemma {:induction false} WeightSumClosedForm(n: nat)
    ensures WeightSum(n) == if n == 0 then 0.0 else if n == 1 then 0.6 else 0.7 + 0.1 * n as real
  {
    if n > 1 {
      WeightSumClosedForm(n - 1);
    }
  }

  /** Every further slot raises the cumulative weight. */
  lemma {:induction false} WeightSumStrictlyIncreasing(i: nat, j: nat)
    requires i < j
    ensures WeightSum(i) < WeightSum(j)
  {
    if i < j - 1 {
      WeightSumStrictlyIncreasing(i, j - 1);
    }
  }

  /** Fills the `cumulativeWeights` array the way `SpawnFish` does:
      slot `i` holds the weight of slots 0..i, and `totalWeight` that of all. */
  method CumulativeWeights(n: nat) returns (cumulativeWeights: array<real>, totalWeight: real)
    ensures cumulativeWeights.Length == n
    ensures forall i :: 0 <= i < n ==> cumulativeWeights[i] == WeightSum(i + 1)
    ensures totalWeight == WeightSum(n)
  {
    cumulativeWeights := new real[n];
    totalWeight := 0.0;
    var i := 0;
    while i < n
      invariant 0 <= i <= n
      invariant totalWeight == WeightSum(i)
      invariant forall k :: 0 <= k < i ==> cumulativeWeights[k] == WeightSum(k + 1)
    {
      if i == 0 {
        totalWeight := totalWeight + 0.6;
      } else if i == 1 {
        totalWeight := totalWeight + 0.3;
      } else {
        totalWeight := totalWeight + 0.1;
      }
      cumulativeWeights[i] := totalWeight;
      i := i + 1;
    }
  }

  /** The selection scan of `SpawnFish`: the first slot whose cumulative
      weight reaches the draw, or none when no slot does. */
  method SelectSlot(cumulativeWeights: array<real>, randomValue: real) returns (selected: Option<nat>)
    ensures selected.Some? ==> selected.value < cumulativeWeights.Length
    ensures selected.Some? ==> randomValue <= cumulativeWeights[selected.value]
    ensures selected.Some? ==> forall j :: 0 <= j < selected.value ==> cumulativeWeights[j] < randomValue
    ensures selected.None? ==> forall j :: 0 <= j < cumulativeWeights.Length ==> cumulativeWeights[j] < randomValue
  {
    selected := None;
    var i := 0;
    while i < cumulativeWeights.Length
      invariant 0 <= i <= cumulativeWeights.Length
      invariant forall j :: 0 <= j < i ==> cumulativeWeights[j] < randomValue
    {
      if randomValue <= cumulativeWeights[i] {
        selected := Some(i);
        return;
      }
      i := i + 1;
    }
  }

  /** A draw in [0, totalWeight] over at least one prefab always lands in some
      slot: there is a first slot `i` whose cumulative weight reaches it, and
      the draw then lies in that slot's own share (WeightSum(i), WeightSum(i + 1)]
      (or [0, 0.6] for the first slot). */
  lemma {:induction false} DrawHitsSlot(n: nat, randomValue: real) returns (i: nat)
    requires 0 < n
    requires 0.0 <= randomValue <= WeightSum(n)
    ensures i < n && randomValue <= WeightSum(i + 1)
    ensures forall j :: 1 <= j <= i ==> WeightSum(j) < randomValue
    ensures i == 0 || WeightSum(i) < randomValue
  {
    if n == 1 || randomValue <= WeightSum(n - 1) {
      if n == 1 {
        i := 0;
      } else {
        i := DrawHitsSlot(n - 1, randomValue);
      }
    } else {
      i := n - 1;
      forall j | 1 <= j <= i
        ensures WeightSum(j) < randomValue
      {
        if j < n - 1 {
          WeightSumStrictlyIncreasing(j, n - 1);
        }
      }
    }
  }

  /** `GetRandomSpawnPosition`: a point of the spawn rectangle on the floor. */
  method RandomSpawnPosition() returns (p: Vec3)
    ensures MinXBound <= p.x <= MaxXBound && p.y == 0.0 && MinZBound <= p.z <= MaxZBound
  {
    var x := Range(MinXBound, MaxXBound);
    var z := Range(MinZBound, MaxZBound);
    p := Vec3(x, 0.0, z);
  }

  predicate InSpawnArea(p: Vec3)
  {
    MinXBound <= p.x <= MaxXBound && p.y == 0.0 && MinZBound <= p.z <= MaxZBound
  }

  /** The placement step of `SpawnFish`: one candidate, and a single re-roll
      when it is near a table. The re-rolled point is taken unchecked.
      `overlapsTable` stands for the `Physics.OverlapSphere` query. */
  method PlaceFish(overlapsTable: Vec3 -> bool) returns (first: Vec3, p: Vec3)
    ensures InSpawnArea(first) && InSpawnArea(p)
    ensures !overlapsTable(first) ==> p == first
  {
    first := RandomSpawnPosition();
    p := first;
    if overlapsTable(first) {
      p := RandomSpawnPosition();
    }
  }

  // ---------------------------------------------------------------------
  // Remaining time

  /** `Mathf.Max(0, gameTime - totalTimeElapsed)`. */
  function RemainingTime(totalTimeElapsed: real): (r: real)
    ensures 0.0 <= r <= Max(0.0, GameTime - totalTimeElapsed)
    ensures totalTimeElapsed <= GameTime ==> r == GameTime - totalTimeElapsed
    ensures GameTime <= totalTimeElapsed ==> r == 0.0
  {
    Max(0.0, GameTime - totalTimeElapsed)
  }

  /** Dividing by a whole number and rounding down commutes with rounding down first. */
  lemma FloorOfQuotient(x: real, k: int)
    requires 0.0 <= x && 0 < k
    ensures (x / k as real).Floor == x.Floor / k
  {
    var f := x.Floor;
    var q, s := f / k, f % k;
    assert f == k * q + s && 0 <= s < k;
    assert (k * q) as real == k as real * q as real;
    assert k as real * q as real <= x;
    assert x < k as real * q as real + k as real;
    DivBounds(x, k as real, q as real);
  }

  /** For a non-negative time, the float remainder by a whole number rounds
      down to the integer remainder of the rounded-down time. */
  lemma FloorOfRemainder(x: real, k: int)
    requires 0.0 <= x && 0 < k
    ensures FloatMod(x, k as real).Floor == x.Floor % k
  {
    FloorOfQuotient(x, k);
    var q := (x / k as real).Floor;
    assert FloatMod(x, k as real) == x - (k * q) as real;
  }

  /** The h:m:s shown by `Update` for the elapsed time. */
  function TimerDisplay(totalTimeElapsed: real): (c: Clock)
    ensures c.hours >= 0 && 0 <= c.minutes <= 59 && 0 <= c.seconds <= 59
    ensures c.hours * 3600 + c.minutes * 60 + c.seconds == RemainingTime(totalTimeElapsed).Floor
    ensures 0.0 <= totalTimeElapsed ==> c.hours == 0
  {
    var remainingTime := RemainingTime(totalTimeElapsed);
    var hours := (remainingTime / 3600.0).Floor;
    var minutes := (FloatMod(remainingTime, 3600.0) / 60.0).Floor;
    var seconds := FloatMod(remainingTime, 60.0).Floor;
    ClockDecomposes(remainingTime);
    Clock(hours, minutes, seconds)
  }

  lemma ClockDecomposes(r: real)
    requires 0.0 <= r
    ensures var f := r.Floor;
      && (r / 3600.0).Floor == f / 3600
      && (FloatMod(r, 3600.0) / 60.0).Floor == (f % 3600) / 60
      && FloatMod(r, 60.0).Floor == f % 60
      && (f / 3600) * 3600 + ((f % 3600) / 60) * 60 + f % 60 == f
  {
    FloorOfQuotient(r, 3600);
    FloorOfRemainder(r, 3600);
    FloorOfRemainder(r, 60);
    FloorOfQuotient(FloatMod(r, 3600.0), 60);
    WholeSecondsDecompose(r.Floor);
  }

  /** Whole seconds split into hours, minutes of the hour and seconds of the minute. */
  lemma WholeSecondsDecompose(f: int)
    requires 0 <= f
    ensures (f / 3600) * 3600 + ((f % 3600) / 60) * 60 + f % 60 == f
  {
    var a, b := f / 3600, f % 3600;
    var c, d := b / 60, b % 60;
    var n := 60 * a + c;
    assert f == 60 * n + d;
    assert f % 60 == d;
  }

  // ---------------------------------------------------------------------
  // Ending

  /** The ending `GameEnd` activates for an average rating: dialogue and
      jingle `k` of 0..4, or none for a rating outside [0, 5]. */
  function EndingBucket(averageRating: real): (ending: Option<nat>)
    ensures ending.Some? <==> 0.0 <= averageRating <= 5.0
    ensures ending.Some? ==>
      ending.value == if averageRating == 4.0 then 3
                      else if averageRating == 5.0 then 4
                      else averageRating.Floor
  {
    if 0.0 <= averageRating < 1.0 then Some(0)
    else if 1.0 <= averageRating < 2.0 then Some(1)
    else if 2.0 <= averageRating < 3.0 then Some(2)
    else if 3.0 <= averageRating <= 4.0 then Some(3)
    else if 4.0 <= averageRating <= 5.0 then Some(4)
    else None
  }

  /** A better average never picks a worse ending. */
  lemma EndingMonotone(a: real, b: real)
    requires 0.0 <= a <= b <= 5.0
    ensures EndingBucket(a).value <= EndingBucket(b).value
  {
  }

  // ---------------------------------------------------------------------
  // The scheduler

  /** The scan for a cookable fish once spawning has stopped (`anyFishCanBeCooked`),
      over the `canCook` flags of the fish present in the scene. */
  method AnyFishCanBeCooked(canCookFlags: seq<bool>) returns (any: bool)
    ensures any <==> exists i :: 0 <= i < |canCookFlags| && canCookFlags[i]
  {
    any := false;
    var i := 0;
    while i < |canCookFlags|
      invariant 0 <= i <= |canCookFlags|
      invariant forall j :: 0 <= j < i ==> !canCookFlags[j]
    {
      if canCookFlags[i] {
        any := true;
        return;
      }
      i := i + 1;
    }
  }

  /** The condition under which one `Update` spawns a fish, on the state
      before the frame and the frame's delta. */
  predicate SpawnDue(fishNum: int, spawnTimer: real, spawnInterval: real, elapsed: real, dt: real)
  {
    && elapsed <= GameTime
    && fishNum < MaxFishNum
    && spawnTimer + dt >= spawnInterval
    && elapsed + dt < TimeToStopSpawning
  }

  /** The condition under which one `Update`, below the cap, calls
      `AdjustSpawnInterval`: at least `AdjustFrom` and less than
      `TimeToStopSpawning` elapsed (after this frame's advance), and the
      interval different from the current maximum. */
  predicate AdjustDue(fishNum: int, elapsed: real, interval: real, maxInterval: real)
  {
    && fishNum < MaxFishNum
    && AdjustFrom <= elapsed < TimeToStopSpawning
    && interval != maxInterval
  }

  /** What one `AdjustSpawnInterval` call at `elapsed` with frame time `dt`
      makes of the interval, its maximum and the adjustment accumulator. */
  predicate IntervalAdjusted(elapsed: real, dt: real,
    interval: real, maxInterval: real, sinceLast: real,
    interval': real, maxInterval': real, sinceLast': real)
  {
    && (elapsed < FirstPhase ==> interval' == interval)
    && (FirstPhase <= elapsed < SecondPhase ==>
          if interval != maxInterval then AdditionalSpawnIntervalMin <= interval' <= maxInterval
          else interval' == interval)
    && (SecondPhase <= elapsed ==> 1.0 <= interval' <= 5.0)
    && (sinceLast + dt >= TimeBetweenAdjustments ==>
          sinceLast' == 0.0 && maxInterval' == Max(maxInterval - MaxIntervalStep, AdditionalSpawnIntervalMin))
    && (sinceLast + dt < TimeBetweenAdjustments ==>
          sinceLast' == sinceLast + dt && maxInterval' == maxInterval)
  }

  class FishSpawner {
    /** `fishPrefabs.Length`. */
    const prefabCount: nat
    /** The shared population counter; every fish holds this scheduler and
        decrements it when it leaves. */
    var currentFishNum: int
    var spawnTimer: real
    var totalTimeElapsed: real
    var currentSpawnInterval: real
    var additionalSpawnIntervalMax: real
    var timeSinceLastAdjustment: real
    /** Every `Instantiate` so far. */
    ghost var spawned: seq<Spawn>
    /** Every decrement of `currentFishNum` by a leaving fish so far. */
    ghost var removed: nat

    ghost predicate Valid()
      reads this
    {
      && currentFishNum <= MaxFishNum
      && currentFishNum == |spawned| - removed
      && AdditionalSpawnIntervalMin <= additionalSpawnIntervalMax <= InitialAdditionalSpawnIntervalMax
      && AdditionalSpawnIntervalMin <= currentSpawnInterval <= InitialSpawnIntervalMax
      && 0.0 <= totalTimeElapsed && 0.0 <= spawnTimer && 0.0 <= timeSinceLastAdjustment
      && forall k :: 0 <= k < |spawned| ==> spawned[k].prefab < prefabCount && InSpawnArea(spawned[k].position)
    }

    /** The field initialisers together with `Start`. */
    constructor (prefabCount: nat)
      ensures Valid() && this.prefabCount == prefabCount
      ensures currentFishNum == 0 && spawned == [] && removed == 0
      ensures spawnTimer == 0.0 && totalTimeElapsed == 0.0 && timeSinceLastAdjustment == 0.0
      ensures additionalSpawnIntervalMax == InitialAdditionalSpawnIntervalMax
      ensures InitialSpawnIntervalMin <= currentSpawnInterval <= InitialSpawnIntervalMax
    {
      this.prefabCount := prefabCount;
      currentFishNum := 0;
      spawnTimer := 0.0;
      totalTimeElapsed := 0.0;
      additionalSpawnIntervalMax := InitialAdditionalSpawnIntervalMax;
      timeSinceLastAdjustment := 0.0;
      spawned := [];
      removed := 0;
      var interval := Range(InitialSpawnIntervalMin, InitialSpawnIntervalMax);
      currentSpawnInterval := interval;
    }

    /** Picks a prefab by cumulative weight and instantiates it, counting it.
        Returns the draw and the slot it selected. */
    method SpawnFish(overlapsTable: Vec3 -> bool) returns (randomValue: real, selected: Option<nat>)
      requires Valid() && currentFishNum < MaxFishNum
      modifies this`currentFishNum, this`spawned
      ensures Valid()
      ensures 0.0 <= randomValue <= WeightSum(prefabCount)
      ensures selected.Some? <==> prefabCount > 0
      ensures selected.Some? ==> selected.value < prefabCount && randomValue <= WeightSum(selected.value + 1)
      ensures selected.Some? ==> forall j :: 1 <= j <= selected.value ==> WeightSum(j) < randomValue
      ensures selected.None? ==> currentFishNum == old(currentFishNum) && spawned == old(spawned)
      ensures selected.Some? ==> currentFishNum == old(currentFishNum) + 1
      ensures selected.Some? ==> |spawned| == |old(spawned)| + 1 && spawned[..|old(spawned)|] == old(spawned)
      ensures selected.Some? ==> spawned[|old(spawned)|].prefab == selected.value
    {
      var cumulativeWeights, totalWeight := CumulativeWeights(prefabCount);
      if 0 < prefabCount {
        WeightSumStrictlyIncreasing(0, prefabCount);
        assert cumulativeWeights[prefabCount - 1] == totalWeight;
      }
      randomValue := Range(0.0, totalWeight);
      selected := SelectSlot(cumulativeWeights, randomValue);
      if selected.Some? {
        forall j | 1 <= j <= selected.value
          ensures WeightSum(j) < randomValue
        {
          assert cumulativeWeights[j - 1] == WeightSum(j);
        }
        var first, spawnPosition := PlaceFish(overlapsTable);
        spawned := spawned + [Spawn(selected.value, spawnPosition)];
        currentFishNum := currentFishNum + 1;
      }
    }

    /** Tightens the spawn interval: re-rolls it by phase and, every
        `TimeBetweenAdjustments` of accumulated frame time, lowers the upper
        bound of the additional range by 3, never below its lower bound. */
    method AdjustSpawnInterval(dt: real)
      requires Valid() && 0.0 <= dt
      modifies this`currentSpawnInterval, this`additionalSpawnIntervalMax, this`timeSinceLastAdjustment
      ensures Valid()
      ensures IntervalAdjusted(totalTimeElapsed, dt,
        old(currentSpawnInterval), old(additionalSpawnIntervalMax), old(timeSinceLastAdjustment),
        currentSpawnInterval, additionalSpawnIntervalMax, timeSinceLastAdjustment)
    {
      if totalTimeElapsed >= FirstPhase && currentSpawnInterval != additionalSpawnIntervalMax {
        currentSpawnInterval := Range(AdditionalSpawnIntervalMin, additionalSpawnIntervalMax);
      }
      if totalTimeElapsed >= SecondPhase && currentSpawnInterval != 5.0 {
        currentSpawnInterval := Range(1.0, 5.0);
      }
      timeSinceLastAdjustment := timeSinceLastAdjustment + dt;
      if timeSinceLastAdjustment >= TimeBetweenAdjustments {
        additionalSpawnIntervalMax := additionalSpawnIntervalMax - MaxIntervalStep;
        timeSinceLastAdjustment := 0.0;
      }
      if additionalSpawnIntervalMax < AdditionalSpawnIntervalMin {
        additionalSpawnIntervalMax := AdditionalSpawnIntervalMin;
      }
    }

    /** The spawning part of a frame, run once the elapsed time has been
        advanced: below the cap the spawn timer runs, a fish is spawned when
        it reaches the interval before `TimeToStopSpawning`, and the interval
        is adjusted from `AdjustFrom` on. */
    method SpawnStep(dt: real, overlapsTable: Vec3 -> bool)
      requires Valid() && 0.0 <= dt
      modifies this`currentFishNum, this`spawned, this`spawnTimer,
        this`currentSpawnInterval, this`additionalSpawnIntervalMax, this`timeSinceLastAdjustment
      ensures Valid()
      ensures MaxFishNum <= old(currentFishNum) ==> unchanged(this)
      ensures (&& old(currentFishNum) < MaxFishNum && old(spawnTimer) + dt >= old(currentSpawnInterval)
               && totalTimeElapsed < TimeToStopSpawning) ==>
        && spawnTimer == 0.0
        && currentFishNum == old(currentFishNum) + (if prefabCount > 0 then 1 else 0)
        && |spawned| == |old(spawned)| + (if prefabCount > 0 then 1 else 0)
      ensures !(&& old(currentFishNum) < MaxFishNum && old(spawnTimer) + dt >= old(currentSpawnInterval)
                && totalTimeElapsed < TimeToStopSpawning) ==>
        && currentFishNum == old(currentFishNum) && spawned == old(spawned)
        && (old(currentFishNum) < MaxFishNum ==> spawnTimer == old(spawnTimer) + dt)
      ensures AdjustDue(old(currentFishNum), totalTimeElapsed, old(currentSpawnInterval), old(additionalSpawnIntervalMax)) ==>
        IntervalAdjusted(totalTimeElapsed, dt,
          old(currentSpawnInterval), old(additionalSpawnIntervalMax), old(timeSinceLastAdjustment),
          currentSpawnInterval, additionalSpawnIntervalMax, timeSinceLastAdjustment)
      ensures !AdjustDue(old(currentFishNum), totalTimeElapsed, old(currentSpawnInterval), old(additionalSpawnIntervalMax)) ==>
        && currentSpawnInterval == old(currentSpawnInterval)
        && additionalSpawnIntervalMax == old(additionalSpawnIntervalMax)
        && timeSinceLastAdjustment == old(timeSinceLastAdjustment)
    {
      if currentFishNum < MaxFishNum {
        spawnTimer := spawnTimer + dt;
        if spawnTimer >= currentSpawnInterval && totalTimeElapsed < TimeToStopSpawning {
          var randomValue, selected := SpawnFish(overlapsTable);
          spawnTimer := 0.0;
        }
        if totalTimeElapsed >= AdjustFrom && currentSpawnInterval != additionalSpawnIntervalMax
          && totalTimeElapsed < TimeToStopSpawning
        {
          AdjustSpawnInterval(dt);
        }
      }
    }

    /** One frame. `inGame` is whether the game manager is in its GAME state,
        `canCookFlags` the `canCook` flags of the fish in the scene and
        `averageRating` the rating tracker's average. Returns the timer text
        shown this frame, if any, and the ending chosen by each `GameEnd`
        call made this frame (`GameEnd` also stops the music and destroys the
        fish left in the scene, engine calls outside the model). */
    method Update(dt: real, inGame: bool, canCookFlags: seq<bool>, averageRating: real, overlapsTable: Vec3 -> bool)
      returns (clock: Option<Clock>, endings: seq<Option<nat>>)
      requires Valid() && 0.0 <= dt
      modifies this`currentFishNum, this`spawned, this`spawnTimer, this`totalTimeElapsed,
        this`currentSpawnInterval, this`additionalSpawnIntervalMax, this`timeSinceLastAdjustment
      ensures Valid()
      ensures !inGame ==> unchanged(this) && clock == None && endings == []
      ensures inGame && old(totalTimeElapsed) <= GameTime ==>
        totalTimeElapsed == old(totalTimeElapsed) + dt && clock == Some(TimerDisplay(totalTimeElapsed))
      ensures inGame && GameTime < old(totalTimeElapsed) ==>
        unchanged(this) && clock == None && endings == [EndingBucket(averageRating)]
      ensures inGame && SpawnDue(old(currentFishNum), old(spawnTimer), old(currentSpawnInterval), old(totalTimeElapsed), dt) ==>
        && spawnTimer == 0.0
        && currentFishNum == old(currentFishNum) + (if prefabCount > 0 then 1 else 0)
        && |spawned| == |old(spawned)| + (if prefabCount > 0 then 1 else 0)
      ensures !(inGame && SpawnDue(old(currentFishNum), old(spawnTimer), old(currentSpawnInterval), old(totalTimeElapsed), dt)) ==>
        currentFishNum == old(currentFishNum) && spawned == old(spawned)
      ensures (&& inGame && old(totalTimeElapsed) <= GameTime && old(currentFishNum) < MaxFishNum
               && !SpawnDue(old(currentFishNum), old(spawnTimer), old(currentSpawnInterval), old(totalTimeElapsed), dt)) ==>
        spawnTimer == old(spawnTimer) + dt
      ensures inGame && old(totalTimeElapsed) <= GameTime && MaxFishNum <= old(currentFishNum) ==>
        spawnTimer == old(spawnTimer) && currentSpawnInterval == old(currentSpawnInterval)
      ensures (&& inGame && old(totalTimeElapsed) <= GameTime
               && AdjustDue(old(currentFishNum), totalTimeElapsed, old(currentSpawnInterval), old(additionalSpawnIntervalMax))) ==>
        IntervalAdjusted(totalTimeElapsed, dt,
          old(currentSpawnInterval), old(additionalSpawnIntervalMax), old(timeSinceLastAdjustment),
          currentSpawnInterval, additionalSpawnIntervalMax, timeSinceLastAdjustment)
      ensures !(&& inGame && old(totalTimeElapsed) <= GameTime
                && AdjustDue(old(currentFishNum), totalTimeElapsed, old(currentSpawnInterval), old(additionalSpawnIntervalMax))) ==>
        && currentSpawnInterval == old(currentSpawnInterval)
        && additionalSpawnIntervalMax == old(additionalSpawnIntervalMax)
        && timeSinceLastAdjustment == old(timeSinceLastAdjustment)
      ensures forall k :: 0 <= k < |endings| ==> endings[k] == EndingBucket(averageRating)
      ensures inGame && old(totalTimeElapsed) <= GameTime ==>
        |endings| ==
          (if TimeToStopSpawning < totalTimeElapsed && !exists i :: 0 <= i < |canCookFlags| && canCookFlags[i] then 1 else 0)
          + (if GameTime <= totalTimeElapsed then 1 else 0)
    {
      clock, endings := None, [];
      if !inGame {
        return;
      }
      if totalTimeElapsed <= GameTime {
        totalTimeElapsed := totalTimeElapsed + dt;
        SpawnStep(dt, overlapsTable);
        clock := Some(TimerDisplay(totalTimeElapsed));
        if totalTimeElapsed > TimeToStopSpawning {
          var anyFishCanBeCooked := AnyFishCanBeCooked(canCookFlags);
          if !anyFishCanBeCooked {
            endings := endings + [EndingBucket(averageRating)];
          }
        }
      }
      if totalTimeElapsed >= GameTime {
        endings := endings + [EndingBucket(averageRating)];
      }
    }

  }
}
