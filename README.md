# Ad-session gate (libs-adsession)

A Dafny model of the ad-session gate of the `libs-adsession` Android library.
The gate decides when an "ad" should run. It tracks the time since the last
ad and the number of user events. Each cycle draws four thresholds at random
from calibration ranges: a minimum time, a maximum time, a minimum event count
and a maximum event count. An ad fires when the maximum time has passed. It
also fires when the minimum time has passed and the minimum event count has
been reached. After a fire, the count is zeroed, the run time is stamped and
the thresholds are redrawn. The state lives in one record that is saved under
the key `ad_mob_session`.

Modules, one per source class (plus shared value types):

- `JvmInt`: Kotlin `Long` and `Int` as bounded integers, with
  two's-complement wrap-around on addition and subtraction.
- `SessionRecord`: the five-field record of `AdSessionModel` as a value, and
  its trigger conditions.
- `Preferences`: the key-value store, a map from key to `Blank`, an encoded
  record, or `Unparsable` text.
- `SessionModel`: the class `AdSessionModel`, the mutable record.
- `SessionConfigure`: the class `AdSessionConfigure`. This module holds the
  range checks, the inclusive random draws, `recalc` and `resetSession`.
- `TriggerPolicy`: the fire rule and the countdown arithmetic as functions,
  and the lemmas about them.
- `SessionManager`: the class `AdMobSessionManager`.
- `CountdownTracker`: the class `AdSessionCountdownTracker`. It models one
  iteration of the polling loop and the `start`/`stop` job replacement.
- `SharedViewModel`: the class `AdMobSharedViewModel`. It models the UI state
  and the collector that turns a raised trigger flag into `ShowAd`.
- `Scenarios`: concrete client runs, proved from the contracts alone.

Inputs the JVM would supply are parameters:

- The clock is a `now: Long` per operation. Every `currentTimeMillis()` call
  inside one operation reads the same instant.
- `Random.nextLong(from, until)` and `Random.nextInt(from, until)` take an
  arbitrary `sample: nat`. The draw is `from + sample % (until - from)`, and
  every value of the interval is reachable.
- Callbacks are out-parameters. `runAdAndReset` returns what the ad callback
  saw, or `None` when no callback is set. A tick returns the ordered list of
  callbacks it invoked.

## Behaviour of the code as written

- A new manager is unconfigured (`sessionConfigure == null`). Its all-zero
  default configure would fail the configure's own range check.
- The configure's constructor needs the two maximum-event bounds, and the
  manager never passes them. `ConfigureSession` takes all eight bounds.
  `InitSession` supplies 12-14 as the maximum-event range, the values of
  `app/src/main/java/com/rzrasel/usagesapplication/libs/AdMobInitializer.kt:13-14`.
- A construction error is a `ConfigError` result, not an exception. An upper
  bound equal to its type's maximum is an error too: `high + 1` wraps around,
  so the draw's interval is empty.
- `configureSession` draws three thresholds from the previous configure. The
  new configure's `init` then redraws all four from its own ranges. Only the
  second draw is kept, so the model has no first draw.
- The configure's constructor gives the inner record the passed count and run
  time. The configure's own count is 0 and its own run time is the current
  one.
- `AdSessionModel` has no `maxEventCount` field.
  - `recalc` writes the other fields into the record.
  - `loadPreferences` keeps the configure's own `maxEventCount`.
  - The code's `isMaxEventCountReached` reads the record's `maxEventCount`,
    which does not exist. The model compares the record's count with the
    configure's own `maxEventCount` instead.
- `addEvent(c)` and `incrementEventCount(c)` overwrite their own counts with
  `c`, while the record adds `c`. The evaluation that follows reloads the
  saved record, so afterwards the configure's count is the cumulative one,
  unless the evaluation fires and zeroes it.
  `setTotalEventCount(c)` adds `c` to the record, because it forwards to the
  record's cumulative update.
- The trigger predicates read the inner record. The remaining-time and
  remaining-event queries read the configure's own vars. After an evaluation
  that does not fire, the two agree (`SessionManager.SettledAligns`). After a
  fire they agree only under the single-instant clock: in the code the
  record's run time comes from one clock reading and the configure's from a
  later one, so the countdown and the trigger can differ by the gap between
  them until the next reload. Directly after
  `configureSession` with a non-zero count they differ:
  `Scenarios.ConfiguredCountNotCountedDown` shows 8 events remaining on the
  countdown while the trigger sees the minimum reached.
- The drawn minimum time can be at or above the drawn maximum time. Then the
  maximum time alone decides.
- Once the collector has seen `ReadyForAdTriggers`, it stays inside the
  collection of the trigger flag, which never completes. From then on, a
  raised flag is acted on in every UI state until the view model is cleared.
  Before that, a raised flag is never acted on.

## Model

| member | source | states |
|---|---|---|
| JvmInt.LongSub | libs-adsession/src/main/java/com/rzrasel/adsession/model/AdSessionModel.kt:75 | Kotlin `Long` subtraction: the mathematical difference when it fits, otherwise shifted by 2^64 |
| JvmInt.AtLeastZero | libs-adsession/src/main/java/com/rzrasel/adsession/manager/AdMobSessionManager.kt:181 | `coerceAtLeast(0)`: never negative, never below its input, identity on non-negative input, zero exactly for non-positive input |
| JvmInt.LongAdd | libs-adsession/src/main/java/com/rzrasel/adsession/manager/AdMobSessionManager.kt:180 | Kotlin `Long` addition: the mathematical sum when it fits, otherwise shifted by 2^64 |
| JvmInt.IntAdd | libs-adsession/src/main/java/com/rzrasel/adsession/model/AdSessionModel.kt:34 | Kotlin `Int` addition: the mathematical sum when it fits, otherwise shifted by 2^32 |
| JvmInt.IntSub | libs-adsession/src/main/java/com/rzrasel/adsession/manager/AdMobSessionManager.kt:195 | Kotlin `Int` subtraction: the mathematical difference when it fits, otherwise shifted by 2^32 |
| SessionRecord.MinEventCountReached | libs-adsession/src/main/java/com/rzrasel/adsession/model/AdSessionModel.kt:82-84 | holds exactly when no events remain before the minimum |
| SessionRecord.MinTimePassed | libs-adsession/src/main/java/com/rzrasel/adsession/model/AdSessionModel.kt:74-76 | without overflow, holds exactly when `now - lastRunTime >= minTime` |
| SessionRecord.MaxTimePassed | libs-adsession/src/main/java/com/rzrasel/adsession/model/AdSessionModel.kt:78-80 | without overflow, holds exactly when `now - lastRunTime >= maxTime` |
| SessionRecord.ElapsedWrapsWhenClockFarAhead | libs-adsession/src/main/java/com/rzrasel/adsession/model/AdSessionModel.kt:74-76 | a clock more than `Long.MAX_VALUE` past the last run makes the elapsed time wrap negative, so the minimum time reads as not passed |
| SessionRecord.WithAddedEvents | libs-adsession/src/main/java/com/rzrasel/adsession/model/AdSessionModel.kt:33-34 | the count grows by `count` (exactly, without overflow) and the other four fields are kept |
| Preferences.AppAdPreferences.Get | libs-adsession/src/main/java/com/rzrasel/adsession/model/AdSessionModel.kt:45 | an absent key reads as blank; a present key reads its entry |
| Preferences.AppAdPreferences.Put | libs-adsession/src/main/java/com/rzrasel/adsession/model/AdSessionModel.kt:40 | only the given key changes, and it then reads the written value |
| SessionModel.Restored | libs-adsession/src/main/java/com/rzrasel/adsession/model/AdSessionModel.kt:44-65 | the stored record when one decodes; otherwise the current record |
| SessionModel.SaveThenLoadRestores | libs-adsession/src/main/java/com/rzrasel/adsession/model/AdSessionModel.kt:38-60 | after a save, a load restores all five saved fields, whatever the record held in between |
| SessionModel.LoadWithoutRecordKeeps | libs-adsession/src/main/java/com/rzrasel/adsession/model/AdSessionModel.kt:44-65 | a blank or unparsable entry leaves the record unchanged |
| SessionModel.AdSessionModel.constructor | libs-adsession/src/main/java/com/rzrasel/adsession/model/AdSessionModel.kt:10-21 | the new record holds exactly the five given fields |
| SessionModel.AdSessionModel.UpdateLastRunTime | libs-adsession/src/main/java/com/rzrasel/adsession/model/AdSessionModel.kt:29-31 | only `lastRunTime` changes, and the store is not written |
| SessionModel.AdSessionModel.UpdateTotalEventCount | libs-adsession/src/main/java/com/rzrasel/adsession/model/AdSessionModel.kt:33-36 | the count grows by `count`, the other fields are kept, and the new record is written under the one key |
| SessionModel.AdSessionModel.SavePreferences | libs-adsession/src/main/java/com/rzrasel/adsession/model/AdSessionModel.kt:38-42 | the one key is overwritten with the record; the rest of the store is untouched |
| SessionModel.AdSessionModel.LoadPreferences | libs-adsession/src/main/java/com/rzrasel/adsession/model/AdSessionModel.kt:44-65 | returns this same object; copies a decodable stored record, and otherwise leaves every field unchanged without failing |
| SessionModel.AdSessionModel.IsMinTimePassed | libs-adsession/src/main/java/com/rzrasel/adsession/model/AdSessionModel.kt:74-76 | without overflow, holds exactly when `currentTime - lastRunTime >= minTime` on the object's fields |
| SessionModel.AdSessionModel.IsMaxTimePassed | libs-adsession/src/main/java/com/rzrasel/adsession/model/AdSessionModel.kt:78-80 | without overflow, holds exactly when `currentTime - lastRunTime >= maxTime` on the object's fields |
| SessionModel.AdSessionModel.IsMinEventCountReached | libs-adsession/src/main/java/com/rzrasel/adsession/model/AdSessionModel.kt:82-84 | holds exactly when `totalEventCount >= minEventCount` |
| SessionConfigure.NextLong | libs-adsession/src/main/java/com/rzrasel/adsession/manager/AdSessionConfigure.kt:41-42 | a value exists exactly when `from < until`, and then lies in `[from, until)` |
| SessionConfigure.NextInt | libs-adsession/src/main/java/com/rzrasel/adsession/manager/AdSessionConfigure.kt:43-44 | a value exists exactly when `from < until`, and then lies in `[from, until)` |
| SessionConfigure.NextLongReachesEvery | libs-adsession/src/main/java/com/rzrasel/adsession/manager/AdSessionConfigure.kt:41-42 | every value of `[from, until)` is drawn by some sample |
| SessionConfigure.NextIntReachesEvery | libs-adsession/src/main/java/com/rzrasel/adsession/manager/AdSessionConfigure.kt:43-44 | every value of `[from, until)` is drawn by some sample |
| SessionConfigure.ConstructionError | libs-adsession/src/main/java/com/rzrasel/adsession/manager/AdSessionConfigure.kt:33-44 | no error exactly when the four strict inequalities hold and no upper bound is its type's maximum; each of the five errors holds exactly when its requirement is the first to fail, the empty draw coming after the four inequalities |
| SessionConfigure.RandomMinTime | libs-adsession/src/main/java/com/rzrasel/adsession/manager/AdSessionConfigure.kt:41 | the draw lies in the closed interval `[minTime1, minTime2]` |
| SessionConfigure.RandomMaxTime | libs-adsession/src/main/java/com/rzrasel/adsession/manager/AdSessionConfigure.kt:42 | the draw lies in the closed interval `[maxTime1, maxTime2]` |
| SessionConfigure.RandomMinEventCount | libs-adsession/src/main/java/com/rzrasel/adsession/manager/AdSessionConfigure.kt:43 | the draw lies in the closed interval `[minEventCount1, minEventCount2]` |
| SessionConfigure.RandomMaxEventCount | libs-adsession/src/main/java/com/rzrasel/adsession/manager/AdSessionConfigure.kt:44 | the draw lies in the closed interval `[maxEventCount1, maxEventCount2]` |
| SessionConfigure.Draw | libs-adsession/src/main/java/com/rzrasel/adsession/manager/AdSessionConfigure.kt:46-50 | all four drawn thresholds lie within their ranges |
| SessionConfigure.DrawReachesEvery | libs-adsession/src/main/java/com/rzrasel/adsession/manager/AdSessionConfigure.kt:46-50 | every in-range set of four thresholds is the outcome of some draw |
| SessionConfigure.AdSessionConfigure.constructor | libs-adsession/src/main/java/com/rzrasel/adsession/manager/AdSessionConfigure.kt:9-38 | accepted ranges fixed for good; drawn thresholds; the configure's own count 0 and run time now; a new record with the given count and run time |
| SessionConfigure.AdSessionConfigure.Recalc | libs-adsession/src/main/java/com/rzrasel/adsession/manager/AdSessionConfigure.kt:46-59 | fresh in-range thresholds; a new record holding them with the configure's own count and run time |
| SessionConfigure.AdSessionConfigure.ResetSession | libs-adsession/src/main/java/com/rzrasel/adsession/manager/AdSessionConfigure.kt:61-65 | redrawn thresholds, the configure's count 0 and run time now; the new record keeps the pre-reset count and run time |
| SessionConfigure.AdSessionConfigure.UpdateLastRunTime | libs-adsession/src/main/java/com/rzrasel/adsession/manager/AdSessionConfigure.kt:67-69 | only the record's `lastRunTime` changes |
| SessionConfigure.AdSessionConfigure.UpdateTotalEventCount | libs-adsession/src/main/java/com/rzrasel/adsession/manager/AdSessionConfigure.kt:71-73 | the record's count grows by `count` and the record is saved |
| SessionConfigure.AdSessionConfigure.IncrementEventCount | libs-adsession/src/main/java/com/rzrasel/adsession/manager/AdSessionConfigure.kt:75-78 | the configure's count becomes `count` (overwrite) while the record's grows by `count` and is saved |
| SessionConfigure.AdSessionConfigure.IsMinTimePassed | libs-adsession/src/main/java/com/rzrasel/adsession/manager/AdSessionConfigure.kt:80-82 | evaluated on the inner record's `lastRunTime` and `minTime`, not the configure's own |
| SessionConfigure.AdSessionConfigure.IsMaxTimePassed | libs-adsession/src/main/java/com/rzrasel/adsession/manager/AdSessionConfigure.kt:84-86 | evaluated on the inner record's `lastRunTime` and `maxTime` |
| SessionConfigure.AdSessionConfigure.IsMinEventCountReached | libs-adsession/src/main/java/com/rzrasel/adsession/manager/AdSessionConfigure.kt:88-90 | evaluated on the inner record's count and minimum |
| SessionConfigure.AdSessionConfigure.SavePreferences | libs-adsession/src/main/java/com/rzrasel/adsession/manager/AdSessionConfigure.kt:102-104 | the inner record overwrites the one key |
| SessionConfigure.AdSessionConfigure.LoadPreferences | libs-adsession/src/main/java/com/rzrasel/adsession/manager/AdSessionConfigure.kt:106-116 | returns this same object; the record is restored from the store and its thresholds, count and run time are copied onto the configure |
| TriggerPolicy.Decide | libs-adsession/src/main/java/com/rzrasel/adsession/manager/AdMobSessionManager.kt:138-151 | fires on the maximum time exactly when it has passed; fires on the joint case exactly when the maximum time has not passed but the minimum time and the minimum count have |
| TriggerPolicy.ShouldFire | libs-adsession/src/main/java/com/rzrasel/adsession/manager/AdMobSessionManager.kt:138-151 | without overflow, fires exactly when `now - lastRunTime >= maxTime`, or `now - lastRunTime >= minTime` and `totalEventCount >= minEventCount` |
| TriggerPolicy.DecideMatchesTrackerCondition | libs-adsession/src/main/java/com/rzrasel/adsession/tracker/AdSessionCountdownTracker.kt:72-78 | the manager's two-case rule agrees with the tracker's `isMaxTime \|\| (isMinTime && isMinEvents)` |
| TriggerPolicy.MaxTimeOverridesEvents | libs-adsession/src/main/java/com/rzrasel/adsession/manager/AdMobSessionManager.kt:138-143 | once the maximum time has passed, the rule fires on it whatever the count |
| TriggerPolicy.MinTimeAloneNeverFires | libs-adsession/src/main/java/com/rzrasel/adsession/manager/AdMobSessionManager.kt:145-151 | before the maximum time, the minimum time without the minimum count does not fire |
| TriggerPolicy.EventsAloneNeverFire | libs-adsession/src/main/java/com/rzrasel/adsession/manager/AdMobSessionManager.kt:145-151 | before the minimum and maximum times, no count fires |
| TriggerPolicy.JointConditionDecides | libs-adsession/src/main/java/com/rzrasel/adsession/manager/AdMobSessionManager.kt:145-151 | between the minimum and maximum times, the rule fires exactly when the count reaches the minimum, and on that case |
| TriggerPolicy.FireStaysDueLater | libs-adsession/src/main/java/com/rzrasel/adsession/manager/AdMobSessionManager.kt:138-151 | a due fire stays due as the clock advances, while the elapsed time does not overflow |
| TriggerPolicy.FireStaysDueWithMoreEvents | libs-adsession/src/main/java/com/rzrasel/adsession/manager/AdMobSessionManager.kt:138-151 | a due fire stays due as events accumulate |
| TriggerPolicy.MinTimeAtOrAboveMaxTime | libs-adsession/src/main/java/com/rzrasel/adsession/manager/AdSessionConfigure.kt:46-50 | when the drawn minimum time is not below the maximum, the rule fires exactly when the maximum time has passed |
| TriggerPolicy.RemainingTime | libs-adsession/src/main/java/com/rzrasel/adsession/manager/AdMobSessionManager.kt:177-190 | never negative; without overflow, `max(0, lastRunTime + threshold - now)` |
| TriggerPolicy.RemainingEvents | libs-adsession/src/main/java/com/rzrasel/adsession/manager/AdMobSessionManager.kt:193-197 | never negative; without overflow, `max(0, minEventCount - totalEventCount)` |
| TriggerPolicy.RemainingTimeZeroIffPassed | libs-adsession/src/main/java/com/rzrasel/adsession/manager/AdMobSessionManager.kt:177-190 | without overflow, the remaining minimum (maximum) time is zero exactly when the minimum (maximum) time has passed |
| TriggerPolicy.RemainingEventsZeroIffReached | libs-adsession/src/main/java/com/rzrasel/adsession/manager/AdMobSessionManager.kt:193-197 | without overflow, no events remain exactly when the minimum count is reached |
| SessionManager.DefaultRangesAccepted | libs-adsession/src/main/java/com/rzrasel/adsession/manager/AdMobSessionManager.kt:18-23 | the manager's default ranges pass the configure's checks |
| SessionManager.CountdownMatchesTrigger | libs-adsession/src/main/java/com/rzrasel/adsession/manager/AdMobSessionManager.kt:177-197 | where the configure's vars agree with its record, each countdown is zero exactly when its trigger condition holds |
| SessionManager.SettledAligns | libs-adsession/src/main/java/com/rzrasel/adsession/manager/AdMobSessionManager.kt:125-165 | after any evaluation, the configure's own vars equal its record's fields (after a fire, under the single-instant clock) |
| SessionManager.CountdownMatchesTriggerAfterEvaluation | libs-adsession/src/main/java/com/rzrasel/adsession/manager/AdMobSessionManager.kt:177-197 | after any evaluation and without overflow, each countdown is zero exactly when its trigger condition holds (after a fire, under the single-instant clock) |
| SessionManager.AdMobSessionManager.constructor | libs-adsession/src/main/java/com/rzrasel/adsession/manager/AdMobSessionManager.kt:6-28 | unconfigured, count 0, run time now, no callback |
| SessionManager.AdMobSessionManager.SetAdCallback | libs-adsession/src/main/java/com/rzrasel/adsession/manager/AdMobSessionManager.kt:74-76 | a callback is set; nothing else changes |
| SessionManager.AdMobSessionManager.ConfigureSession | libs-adsession/src/main/java/com/rzrasel/adsession/manager/AdMobSessionManager.kt:36-71 | on bad ranges, the error and no change; otherwise a new configure over the new ranges with thresholds drawn from them, marked configured |
| SessionManager.AdMobSessionManager.RunAdAndReset | libs-adsession/src/main/java/com/rzrasel/adsession/manager/AdMobSessionManager.kt:154-165 | the callback, if set, sees the pre-reset record exactly once; then the count is 0 and the run time now in configure and record, the thresholds are redrawn, and the record is saved |
| SessionManager.AdMobSessionManager.ProcessEventTrigger | libs-adsession/src/main/java/com/rzrasel/adsession/manager/AdMobSessionManager.kt:125-151 | reloads the stored record; fires at most once, exactly when the rule holds on the loaded record; resets and saves on a fire; otherwise leaves the store untouched |
| SessionManager.AdMobSessionManager.SaveSession | libs-adsession/src/main/java/com/rzrasel/adsession/manager/AdMobSessionManager.kt:171-174 | the current record overwrites the one key |
| SessionManager.AdMobSessionManager.SetTotalEventCount | libs-adsession/src/main/java/com/rzrasel/adsession/manager/AdMobSessionManager.kt:102-107 | the manager's count becomes `count`; the record grows by `count`; the rule is then decided on the grown record, and the result is saved |
| SessionManager.AdMobSessionManager.AddEvent | libs-adsession/src/main/java/com/rzrasel/adsession/manager/AdMobSessionManager.kt:110-119 | the manager's count becomes `count` (overwrite); the record grows by `count`; the rule is then decided on the grown record, and the result is saved |
| SessionManager.AdMobSessionManager.InitSession | libs-adsession/src/main/java/com/rzrasel/adsession/manager/AdMobSessionManager.kt:78-99 | the default ranges apply only when never configured; a blank entry is seeded with the record without firing; otherwise the rule is decided on the stored record |
| SessionManager.AdMobSessionManager.GetRemainingMinTime | libs-adsession/src/main/java/com/rzrasel/adsession/manager/AdMobSessionManager.kt:177-182 | never negative; without overflow, `max(0, lastRunTime + minTime - now)` on the configure's own vars |
| SessionManager.AdMobSessionManager.GetRemainingMaxTime | libs-adsession/src/main/java/com/rzrasel/adsession/manager/AdMobSessionManager.kt:185-190 | never negative; without overflow, `max(0, lastRunTime + maxTime - now)` on the configure's own vars |
| SessionManager.AdMobSessionManager.GetRemainingEventCount | libs-adsession/src/main/java/com/rzrasel/adsession/manager/AdMobSessionManager.kt:193-197 | never negative; without overflow, `max(0, minEventCount - totalEventCount)` on the configure's own vars |
| CountdownTracker.AdSessionCountdownTracker.constructor | libs-adsession/src/main/java/com/rzrasel/adsession/tracker/AdSessionCountdownTracker.kt:16-44 | the three published values start at 0 and no job is running |
| CountdownTracker.AdSessionCountdownTracker.Stop | libs-adsession/src/main/java/com/rzrasel/adsession/tracker/AdSessionCountdownTracker.kt:85-87 | every job launched so far is cancelled |
| CountdownTracker.AdSessionCountdownTracker.Start | libs-adsession/src/main/java/com/rzrasel/adsession/tracker/AdSessionCountdownTracker.kt:46-49 | all earlier jobs are cancelled and exactly one new job runs |
| CountdownTracker.AdSessionCountdownTracker.Tick | libs-adsession/src/main/java/com/rzrasel/adsession/tracker/AdSessionCountdownTracker.kt:52-78 | publishes the three remaining queries, all non-negative; calls the per-tick callback, if set, first and once; then calls the fire callback exactly when the rule holds; changes no session state |
| SharedViewModel.OnUiState | libs-adsession/src/main/java/com/rzrasel/adsession/viewmodel/AdMobSharedViewModel.kt:31-33 | the collector changes only when waiting and the state is Ready, and then starts collecting the flag |
| SharedViewModel.OnTriggerFlag | libs-adsession/src/main/java/com/rzrasel/adsession/viewmodel/AdMobSharedViewModel.kt:34-39 | a raised flag seen while collecting gives `ShowAd` and a cleared flag; anything else changes nothing |
| SharedViewModel.FlagIgnoredUntilReady | libs-adsession/src/main/java/com/rzrasel/adsession/viewmodel/AdMobSharedViewModel.kt:31-45 | before the state has been Ready once, a raised flag is never acted on |
| SharedViewModel.FlagActedOnceReadySeen | libs-adsession/src/main/java/com/rzrasel/adsession/viewmodel/AdMobSharedViewModel.kt:31-45 | over any history in which the state has been Ready, the collector is on the flag and a raised flag is acted on in every UI state |
| SharedViewModel.AdMobSharedViewModel.constructor | libs-adsession/src/main/java/com/rzrasel/adsession/viewmodel/AdMobSharedViewModel.kt:19-20 | the UI state starts as `NotInitialized` and the collector waits for Ready; the flag keeps whatever value it already has, since an earlier `initSession` or `configureSession` may have raised it |
| SharedViewModel.AdMobSharedViewModel.MarkReadyForAdTriggers | libs-adsession/src/main/java/com/rzrasel/adsession/viewmodel/AdMobSharedViewModel.kt:52-55 | from any state, the state becomes `ReadyForAdTriggers` |
| SharedViewModel.AdMobSharedViewModel.TriggerAd | libs-adsession/src/main/java/com/rzrasel/adsession/viewmodel/AdMobSharedViewModel.kt:67-70 | from any state, the state becomes `ShowAd` |
| SharedViewModel.AdMobSharedViewModel.OnAdShown | libs-adsession/src/main/java/com/rzrasel/adsession/viewmodel/AdMobSharedViewModel.kt:73-76 | from any state, the state becomes `ReadyForAdTriggers` |
| SharedViewModel.AdMobSharedViewModel.OnCleared | libs-adsession/src/main/java/com/rzrasel/adsession/viewmodel/AdMobSharedViewModel.kt:84-88 | from any state, the state becomes `NotInitialized`, and the collector stops |
| SharedViewModel.AdMobSharedViewModel.CollectUiState | libs-adsession/src/main/java/com/rzrasel/adsession/viewmodel/AdMobSharedViewModel.kt:31-33 | the outer collector steps as `OnUiState` on the current state |
| SharedViewModel.AdMobSharedViewModel.CollectTriggerFlag | libs-adsession/src/main/java/com/rzrasel/adsession/viewmodel/AdMobSharedViewModel.kt:34-39 | the inner collector steps as `OnTriggerFlag` on the current state and flag |
| SharedViewModel.AdMobSharedViewModel.OnEventAction | libs-adsession/src/main/java/com/rzrasel/adsession/viewmodel/AdMobSharedViewModel.kt:57-64 | exactly one event is added to the session; a fire with a callback set raises the flag; the UI state is untouched |
| Scenarios.MinTimeAndEventsFire | libs-adsession/src/main/java/com/rzrasel/adsession/tracker/AdSessionCountdownTracker.kt:72-78 | nine events and a tick past the minimum time call only the fire callback |
| Scenarios.MaxTimeForcesFire | libs-adsession/src/main/java/com/rzrasel/adsession/tracker/AdSessionCountdownTracker.kt:72-78 | with no events, a tick past the maximum time calls the fire callback |
| Scenarios.EventsBeforeMinTimeDoNotFire | libs-adsession/src/main/java/com/rzrasel/adsession/manager/AdMobSessionManager.kt:145-151 | twenty events before the minimum time do not fire, and the countdowns show 60 s and 180 s |
| Scenarios.FireResetsCycle | libs-adsession/src/main/java/com/rzrasel/adsession/manager/AdMobSessionManager.kt:154-165 | a fire stores the redrawn thresholds with count 0 and the fire time |
| Scenarios.AddEventAccumulates | libs-adsession/src/main/java/com/rzrasel/adsession/manager/AdMobSessionManager.kt:110-119 | two single events leave 2 in the record, 1 in the manager's own field, and 6 events to go |
| Scenarios.ConfiguredCountNotCountedDown | libs-adsession/src/main/java/com/rzrasel/adsession/manager/AdMobSessionManager.kt:57-69 | a count passed to `configureSession` reaches the trigger but not the countdown |
| Scenarios.SaveThenLoadUndoesUpdate | libs-adsession/src/main/java/com/rzrasel/adsession/model/AdSessionModel.kt:29-65 | save, update of the run time, then load: the object holds the saved record again, and the store holds it too |

## Left out

- Coroutines and scheduling: `viewModelScope.launch`, `Dispatchers.Default`, `delay(1000)`, `isActive`, StateFlow collection and LiveData `postValue`. The tracker's loop is one `Tick` method, and its job is a list of statuses. The shared view model's collector is two explicit steps.
- The asynchrony of the flag: the manager's callback raises the flag directly in `OnEventAction`. Interleavings of collector steps with other calls are not modelled.
- The LiveData mirrors of the three published values in the tracker: they receive the same values asynchronously through `postValue` and are not modelled.
- `System.currentTimeMillis()` and `kotlin.random.Random`: they are parameters, `now` and `Samples`.
- JSON encoding with Gson and kotlinx.serialization, including `toJson`: a stored entry is an abstract record, `Blank` or `Unparsable`.
- `AppAdPreferences` is not part of this model beyond `get` and `put` on one map.
- `android.util.Log` and every `log*` method are diagnostics only.
- `AdSessionViewModel` and `AdSessionTrackerViewModel`: they forward to the manager and toggle a flag. The shared view model talks to the manager directly. Its `init` call to `configureSession` with the app's configuration model is not modelled.
- `AdSessionConfigModel`: a bare data holder.
- `AdUiState`: replicated as a datatype.
- The build configuration.
- SessionConfigure.AdSessionConfigure.constructor: it does not take the initial `minTime`, `maxTime` and `minEventCount` values, because `init` overwrites them before they are read.
- SessionConfigure.AdSessionConfigure.IsMaxEventCountReached: it carries no contract of its own, because the source never calls it.
- SessionConfigure.AdSessionConfigure.LoadPreferencesJson: it carries no contract of its own, because it only reads the store's entry.
- SessionManager.AdMobSessionManager.RunAdAndReset: one `now` stamps both run times. The code reads the clock more than once: the record gets the reading at `libs-adsession/src/main/java/com/rzrasel/adsession/manager/AdMobSessionManager.kt:157`, copied in by `recalc`. The configure gets a later reading at `libs-adsession/src/main/java/com/rzrasel/adsession/manager/AdSessionConfigure.kt:64`, taken after the store write and the four draws.
- SessionManager.SettledAligns: after a fire, its equal-run-time conclusion holds only under the single-instant clock. In the code the configure's run time (`AdSessionConfigure.kt:64`) can be later than the record's (`AdMobSessionManager.kt:157`).
- SessionManager.CountdownMatchesTriggerAfterEvaluation: after a fire, it holds only under the single-instant clock. In the code the countdowns start from the configure's later reading (`AdSessionConfigure.kt:64`), while the trigger reads the record's earlier one (`AdMobSessionManager.kt:157`).
- SessionManager.AdMobSessionManager.RunAdAndReset: it takes no configure parameter. Every caller passes the object `loadPreferences` returns, which is the manager's own configure.
- SessionManager.AdMobSessionManager.InitSession: the draws made by the default `configureSession` and by a fire are two separate parameters. They model two separate calls of the random source.
