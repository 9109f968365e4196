# Labinac's Cuisine: the fish and the spawn scheduler

A Dafny model of the two gameplay cores of the Unity cooking game Labinac's Cuisine.

- **The fish** (`Food.Fish`, fish.dfy) models `Assets/Scripts/Food/Fish.cs`.
  - Its mood goes from Chilling to Hungry, and then either to LeavingHangry or, after cooking, to Served.
  - A fed fish judges the dish it was served. It contributes a rating and leaves.
  - An unfed fish leaves in anger.
  - The state setter is equality guarded. Every real change is recorded in a ghost sequence `events`, standing for `OnStateChanged`.
  - Each Unity coroutine becomes a flag. The hunger loop's random wait and the feeding countdown are counted down by per-frame tick methods; the fixed 3 s waits end in one step each.
  - The pure part is the quality formula and the verdict buckets.
- **The spawn scheduler** (`Managers.FishSpawner`, spawner.dfy) models `Assets/Scripts/Managers/FishSpawner.cs`.
  - It is the per-frame `Update`, which covers the population cap of 40, the stop after 300 s and the end at 390 s.
  - It covers weighted prefab selection and placement with a single re-roll.
  - It covers the tightening of the spawn interval.
  - It covers the h:m:s countdown and the choice of the ending from the average rating.
  - `currentFishNum` is the shared fish counter. Every fish holds a reference to the scheduler and decrements the counter when it leaves. Ghost `spawned` and `removed` let `Valid()` state that the counter equals instantiations minus departures.
- **Engine** (engine.dfy) holds `Random.Range`, `Mathf.Clamp`, `Mathf.Max` and C#'s float remainder, stated on reals.
  - Random values are a nondeterministic choice from the closed range.

Time, quality and ratings are `real`. Engine inputs are parameters:

| engine input | parameter |
|---|---|
| `Time.deltaTime` | `dt` |
| `Time.time` | `now` |
| the GAME state | `inGame` |
| `canCook` of the fish in the scene | `canCookFlags` |
| `Physics.OverlapSphere` near a table | `overlapsTable` |
| the average rating | `averageRating` |

## Model

| member | source | states |
|---|---|---|
| Engine.Range | Assets/Scripts/Managers/FishSpawner.cs:52 | `Random.Range` on floats returns a value of the closed interval |
| Engine.Clamp | Assets/Scripts/Food/Fish.cs:211 | the result lies in [lo, hi], is x inside it, and is the bound crossed outside it |
| Engine.FloatMod | Assets/Scripts/Managers/FishSpawner.cs:84-85 | the remainder differs from the dividend by a whole multiple of the divisor, has the dividend's sign and is smaller than the divisor in magnitude |
| Engine.FloatModUnique | Assets/Scripts/Managers/FishSpawner.cs:84-85 | for a non-negative dividend, the remainder is the only value of [0, m) that differs from it by a whole multiple of m |
| Engine.Max | Assets/Scripts/Managers/FishSpawner.cs:81 | `Mathf.Max` is at least both arguments and is one of them |
| Engine.Truncate | Assets/Scripts/Managers/FishSpawner.cs:84-85 | the quotient of C#'s float remainder is rounded toward zero: the floor for non-negative values, within one above a negative value |
| Managers.Weight | Assets/Scripts/Managers/FishSpawner.cs:158-163 | every slot weight is positive |
| Managers.WeightSumClosedForm | Assets/Scripts/Managers/FishSpawner.cs:155-166 | the cumulative weights are 0.6, 0.9, 1.0, 1.1, … (0.7 + 0.1·n from the second slot on) |
| Managers.WeightSumStrictlyIncreasing | Assets/Scripts/Managers/FishSpawner.cs:155-166 | the cumulative weights strictly increase |
| Managers.CumulativeWeights | Assets/Scripts/Managers/FishSpawner.cs:154-166 | slot i of the array holds the weight of slots 0..i, and the total is the weight of all slots |
| Managers.SelectSlot | Assets/Scripts/Managers/FishSpawner.cs:168-177 | the selected slot is the first whose cumulative weight reaches the draw; no slot is selected only when every cumulative weight is below the draw |
| Managers.DrawHitsSlot | Assets/Scripts/Managers/FishSpawner.cs:168-177 | a draw in [0, total] over at least one prefab hits a slot, and lies in that slot's own share |
| Managers.RandomSpawnPosition | Assets/Scripts/Managers/FishSpawner.cs:226-232 | x in [-12.2, 7.2], y = 0, z in [5, 10] |
| Managers.PlaceFish | Assets/Scripts/Managers/FishSpawner.cs:181-190 | both candidates lie in the spawn area; a first candidate clear of tables is kept; the re-roll is taken unchecked |
| Managers.RemainingTime | Assets/Scripts/Managers/FishSpawner.cs:81 | the remaining time is 390 minus the elapsed time, and 0 once that is past |
| Managers.FloorOfQuotient | Assets/Scripts/Managers/FishSpawner.cs:83-84 | flooring a quotient by a whole number equals integer division of the floor |
| Managers.FloorOfRemainder | Assets/Scripts/Managers/FishSpawner.cs:84-85 | flooring a non-negative float remainder equals the integer remainder of the floor |
| Managers.ClockDecomposes | Assets/Scripts/Managers/FishSpawner.cs:83-85 | the three displayed fields are the integer h:m:s decomposition of the floored remaining time |
| Managers.WholeSecondsDecompose | Assets/Scripts/Managers/FishSpawner.cs:83-85 | a whole number of seconds is hours·3600 + minutes·60 + seconds of its integer decomposition |
| Managers.TimerDisplay | Assets/Scripts/Managers/FishSpawner.cs:81-85 | minutes and seconds lie in [0, 59], hours·3600 + minutes·60 + seconds is the floored remaining time, and hours is 0 during a game |
| Managers.EndingBucket | Assets/Scripts/Managers/FishSpawner.cs:123-149 | an ending exists exactly for ratings in [0, 5]; it is the floor of the rating, except that 4.0 maps to 3 and 5.0 to 4 |
| Managers.EndingMonotone | Assets/Scripts/Managers/FishSpawner.cs:125-149 | a higher average never selects a worse ending |
| Managers.AnyFishCanBeCooked | Assets/Scripts/Managers/FishSpawner.cs:92-103 | the scan's result is true exactly when some fish in the scene can still be cooked |
| Managers.FishSpawner.constructor | Assets/Scripts/Managers/FishSpawner.cs:50-54 | counters start at 0; the first interval lies in [5, 15]; the additional maximum starts at 8 |
| Managers.FishSpawner.SpawnFish | Assets/Scripts/Managers/FishSpawner.cs:152-195 | the draw lies in [0, total]; a slot is selected iff there is a prefab, and it is the first whose share holds the draw; only a selection instantiates, adding exactly one to the count and one spawn record with that prefab |
| Managers.FishSpawner.AdjustSpawnInterval | Assets/Scripts/Managers/FishSpawner.cs:198-224 | before 240 s the interval is kept; from 240 s it is re-rolled into [1, old maximum] when it differs from the maximum; from 480 s it lies in [1, 5]; at 120 s of accumulated frame time the maximum drops by 3 (floored at 1) and the accumulator resets, otherwise it accumulates and the maximum is kept; the invariant keeps the maximum in [1, 8] |
| Managers.FishSpawner.SpawnStep | Assets/Scripts/Managers/FishSpawner.cs:63-77 | at the cap nothing changes; below it the spawn timer runs, and a fish is spawned (timer reset, count +1 when prefabs exist) exactly when the timer reaches the interval before 300 s; the interval, its maximum and the accumulator are as `AdjustSpawnInterval` leaves them when elapsed ≥ 120, elapsed < 300 and the interval differs from the maximum, and unchanged otherwise |
| Managers.FishSpawner.Update | Assets/Scripts/Managers/FishSpawner.cs:56-114 | outside the GAME state nothing changes; elapsed time advances only while at most 390; a fish is spawned (timer reset, count +1 when prefabs exist) exactly when the count is below 40, the spawn timer reaches the interval and the elapsed time is below 300; the count never exceeds 40; the interval fields change exactly as `SpawnStep` states; the timer shown is `TimerDisplay`; `GameEnd` runs once per end condition met, with the ending of `EndingBucket` |
| Food.Coefficient | Assets/Scripts/Food/Fish.cs:208-218 | the per-type coefficient lies in (0, 1] |
| Food.Quality | Assets/Scripts/Food/Fish.cs:204-222 | quality lies in [0, 5]; inside the clamp it is cooking time times the type's coefficient; no cooking gives 0 |
| Food.SalmonAtReferenceTime | Assets/Scripts/Food/Fish.cs:216-217 | a Salmon cooked for 5 s reaches exactly 5 |
| Food.QualityMonotone | Assets/Scripts/Food/Fish.cs:204-222 | longer cooking never lowers the quality |
| Food.QualityOrderedByType | Assets/Scripts/Food/Fish.cs:208-218 | for equal cooking time, Anchovy ≤ Tuna ≤ Salmon |
| Food.JudgeNum | Assets/Scripts/Food/Fish.cs:127-147 | verdict 1 iff quality < 2, 2 iff 2 ≤ quality < 4, 0 iff quality ≥ 4: the three buckets partition all qualities |
| Food.HappyVerdictNeedsCooking | Assets/Scripts/Food/Fish.cs:127-147 | a happy verdict needs cooking time × coefficient ≥ 4: at least 12 s for an Anchovy, 4 s for a Salmon |
| Food.NotificationCarriesNewState | Assets/Scripts/Food/Fish.cs:42-61 | a real change notifies first with the new state; a second notification arises only from the Hungry entry action, and it is LeavingHangry with the departure started |
| Food.UnfedHungryFishLeaves | Assets/Scripts/Food/Fish.cs:102-120 | a fish that becomes Hungry with no feeding time left, while not paused, leaves at once |
| Food.PausedEntryStays | Assets/Scripts/Food/Fish.cs:47-61 | while paused, entering a state other than LeavingHangry keeps that state and starts no departure |
| Food.Fish.constructor | Assets/Scripts/Food/Fish.cs:70-79 | a new fish is Chilling with 60 s of feeding time, no notification, and the hunger countdown running |
| Food.Fish.SetCurrentState | Assets/Scripts/Food/Fish.cs:37-68 | setting the current value changes nothing and notifies no one; a different value is set, notified once before its entry action, and followed by the entry action |
| Food.Fish.RunEntryAction | Assets/Scripts/Food/Fish.cs:47-61 | Chilling starts the hunger countdown, Hungry the feeding timer, LeavingHangry the departure; Cooking and Served do nothing |
| Food.Fish.StartChilling | Assets/Scripts/Food/Fish.cs:86-100 | unless paused, the hunger countdown runs with a wait in [15, 30] |
| Food.Fish.StartFeedingTimer | Assets/Scripts/Food/Fish.cs:102-120 | a timer starts when not paused and time is left; otherwise the fish leaves hangry unless paused; only a timer started by `Hungry` can be stopped by `Served` |
| Food.Fish.HungerTick | Assets/Scripts/Food/Fish.cs:94-98 | an active wait shrinks by exactly dt and changes nothing else until it has run out; only then does the fish become Hungry, so its state never changes before the wait is over |
| Food.Fish.HungerElapsed | Assets/Scripts/Food/Fish.cs:94-99 | a wait that has run out makes the fish Hungry; the loop goes on with a new wait in [15, 30] exactly when not paused |
| Food.Fish.FeedingTick | Assets/Scripts/Food/Fish.cs:110-120 | the countdown never increases and drops by exactly dt while the timer runs; the timer stops when paused or out of time, and only an unpaused fish out of time leaves hangry |
| Food.Fish.Served | Assets/Scripts/Food/Fish.cs:122-149 | the Hungry feeding timer is stopped, `isJudging` holds, `judgeNum` is the dish's verdict bucket and a judgement is pending |
| Food.Fish.JudgementElapsed | Assets/Scripts/Food/Fish.cs:187-201 | with a judgement pending, the rating is the dish's quality, the shared count drops by exactly one and the fish is destroyed; otherwise nothing changes; the scheduler's invariant is kept |
| Food.Fish.DepartureElapsed | Assets/Scripts/Food/Fish.cs:151-165 | with a departure pending, the rating lies in [0, 0.99], the shared count drops by exactly one and the fish is destroyed; otherwise nothing changes; the scheduler's invariant is kept |
| Food.Fish.Destroy | Assets/Scripts/Food/Fish.cs:164 | a destroyed fish has no coroutine left |
| Food.Fish.StopAllCoroutines | Assets/Scripts/Food/Fish.cs:172 | afterwards no coroutine of the fish runs: no hunger wait, feeding timer, departure or pending judgement |
| Food.Fish.StartCooking | Assets/Scripts/Food/Fish.cs:167-174 | the fish is Cooking, notified once if that is a change, and every countdown is cancelled |
| Food.Fish.DetermineQuality | Assets/Scripts/Food/Fish.cs:204-226 | the stored quality is `Quality` of the cooking time and type, so it lies in [0, 5], and `isCooking` is false |
| Food.Fish.OnMouseDrag | Assets/Scripts/Food/Fish.cs:228-231 | dragging is passed on exactly when the fish is not Served |
| Food.Fish.PauseTimers | Assets/Scripts/Food/Fish.cs:281-285 | the fish is paused and the pause time is recorded |
| Food.Fish.ResumeTimers | Assets/Scripts/Food/Fish.cs:287-296 | without a pause nothing changes, so a second resume is a no-op; after a pause, the pause is cleared, exactly the pause's length comes off the feeding countdown, and a feeding timer starts that `Served` cannot stop |

## Left out

- Animation, emote sprites and bubbles, audio clips, `AudioSource` control, `Debug.Log` and the timer text formatting are presentation only and are not modelled.
- `Fish.Update` and the `Cookables` base class are not part of this model. The base class's own `StartCooking`, `StopCooking` and `OnMouseDrag` are not modelled; `Food.Fish.OnMouseDrag` returns whether the call is passed on. Its fields `cookingTimer`, `foodQuality`, `canCook` and `isCooking` are modelled with assumed initial values 0, 0, true and false.
- The order in which the fish enum is declared is not shown; the model assumes its default value is Chilling, so the setter call in `Start` is a no-op and `StartChilling` runs once.
- Unity's coroutine scheduler is replaced by step methods. Each coroutine kind has at most one running instance: starting a second hunger loop or feeding timer replaces the first instead of running beside it. The fixed 3 s waits are one "delay elapsed" step each.
- Food.Fish.JudgementElapsed: rates with the dish quality captured at serving time. The source reads `nomNoms.foodQuality` only when the delay is over, and the dish object is not modelled.
- `Time.time` is a parameter. `Food.Fish.ResumeTimers` requires that it has not gone back since the pause, as Unity's clock never does.
- `GameEnd` also stops the level music and destroys every fish in the scene without decrementing `currentFishNum`. These engine calls are not modelled; `Update` returns only the chosen endings.
- `AdjustSpawnInterval`'s branch for 480 s and later is modelled and proved, but `Update` calls the adjustment only while under 300 s, so that branch never runs in the game.
- IEEE single-precision floats are modelled as exact reals. Rounding, NaN (which the verdict chain would sort into the happy bucket) and infinities are not captured.
- The distribution of `Random.Range` is not modelled, only its range.
- Fish objects are not linked to the scheduler's spawn records. `Valid()` proves the count equals spawns minus departures, but "never negative" holds only for fish the scheduler itself created, which the source does not enforce either.
- `Awake`'s singleton registration and `GameManager.ChangeRating` are not modelled; the removal step methods return the rating instead.
- `Assets/Scripts/UI/CanvasManager.cs` (menus, scene loading, audio mixer) is not part of this model.
- `ResumeTimers` subtracts the whole pause (`Time.time - pausedTime`) from `remainingFeedingTime`, so a fish loses the paused time from its feeding countdown; the model does the same.
