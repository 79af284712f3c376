# Physically, modelled in Dafny

Physically is an iOS app that keeps chosen apps behind a Screen Time shield
until the user earns time with exercise. A camera-driven classifier counts
squats or push-ups; the rep that reaches the session target lifts the shield
for 15 minutes. Reps can also be banked as minutes and spent later, a
15-minute "emergency" debt can be taken once a day, and typing a
"walk of shame" sentence buys a 15-minute unlock.

This project models the app's core logic and proves what it promises:

- `pose.dfy`, `joint_smoother.dfy`: the joint vocabulary, the right-then-left
  limb fallback, and the per-joint moving-average filter (`JointSmoother`),
  an in-place bounded FIFO per joint.
- `squat_manager.dfy`, `pushup_manager.dfy`: the two hysteresis classifiers as
  pure step functions on a snapshot of their state, the classes that update
  those fields in place, and lemmas over runs of frames (count bounds, exactly
  one unlock, the push-up displacement guard).
- `shared_model.dfy`, `blocking_manager.dfy`, `monitor_extension.dfy`: the
  saved selection in the app-group defaults, the shield store, the activity
  centre, the `BlockingManager` session logic and the monitor extension that
  re-locks at the end of the interval.
- `user_stats.dfy`, `content_view.dfy`, `settings_view.dfy`, `redeem_view.dfy`,
  `squat_view.dfy`, `pushup_view.dfy`, `walk_of_shame.dfy`: the persisted
  record, the minute ledger (spend, debt, earnings) and the screens that
  change it, including Swift's `Int(String)` parse of the typed minutes and
  the walk-of-shame countdown.

Outside inputs are parameters: the trigonometric part of the angle
(`Bearing`), the clock (`now`), the calendar's day of a date (`Calendar`),
the random boss-mode draw, whether the OS accepts a monitoring schedule
(`accepted`), and the token decoded from a notification.

## Model

| member | source | states |
|---|---|---|
| Pose.PreferRight | Physically/SquatManager.swift:66-79 | the right limb is used whenever its three joints are present, the left only as fallback, and nothing iff neither side is complete |
| JointSmoothing.SumXBounded | Physically/JointSmoother.swift:36-37 | the left-fold sum of x coordinates lies between count times the lower and count times the upper x bound |
| JointSmoothing.SumYBounded | Physically/JointSmoother.swift:36-37 | the left-fold sum of y coordinates lies between count times the lower and count times the upper y bound |
| JointSmoothing.MeanXBounded | Physically/JointSmoother.swift:33-41 | the x coordinate of the mean of a non-empty history lies within the range of its points' x coordinates |
| JointSmoothing.MeanYBounded | Physically/JointSmoother.swift:33-41 | the y coordinate of the mean of a non-empty history lies within the range of its points' y coordinates |
| JointSmoothing.AverageWithinBounds | Physically/JointSmoother.swift:33-41 | each coordinate of the mean lies within the range of the retained points' coordinates |
| JointSmoothing.AverageOfRepeated | Physically/JointSmoother.swift:33-41 | the mean of a history of one repeated point is that point |
| JointSmoothing.Average | Physically/JointSmoother.swift:33-41 | defines `calculateAverage`: the coordinate-wise mean of the points, the origin for none; its bounds are the Mean and AverageWithinBounds lemmas |
| JointSmoothing.Pushed | Physically/JointSmoother.swift:20-24 | defines one history update: append the point, then drop the oldest one when the history exceeds the window |
| JointSmoothing.Recent | Physically/JointSmoother.swift:20-24 | the retained window is the stream's suffix of length `window`, or the whole stream when it is shorter |
| JointSmoothing.PushedKeepsRecent | Physically/JointSmoother.swift:20-24 | append-then-evict applied to the last `window` points gives the last `window` points of the extended stream |
| JointSmoothing.FedIsRecent | Physically/JointSmoother.swift:20-24 | after any stream of points a history is the newest `window` points in arrival order, oldest evicted first |
| JointSmoothing.FedFromEmpty | Physically/JointSmoother.swift:15-24 | from an empty history, feeding a stream leaves exactly its last `window` points |
| JointSmoothing.NextHistories | Physically/JointSmoother.swift:15-24 | defines the histories after one `smooth` call: each frame joint's history, empty when absent, gets its point pushed; other histories are kept |
| JointSmoothing.SmoothedFrame | Physically/JointSmoother.swift:13-30 | defines `smooth`'s result: each frame joint mapped to the mean of its updated history |
| JointSmoothing.NextHistoriesStep | Physically/JointSmoother.swift:15-27 | handling one more joint of the frame updates that joint's history only |
| JointSmoothing.SmoothedFrameStep | Physically/JointSmoother.swift:26-27 | handling one more joint adds exactly that joint's mean to the output |
| JointSmoothing.SmoothStep | Physically/JointSmoother.swift:15-27 | handling one more joint updates only that joint's history and adds that joint's mean of its new history to the output |
| JointSmoothing.NextHistoriesWithinWindow | Physically/JointSmoother.swift:20-24 | after a `smooth` call every history is at most `windowSize` long |
| JointSmoothing.SmoothedFrameKeys | Physically/JointSmoother.swift:13-30 | the output holds exactly the input frame's joints |
| JointSmoothing.NextHistoriesFrame | Physically/JointSmoother.swift:15-28 | no history is dropped, and histories of joints absent from the frame are unchanged |
| JointSmoothing.NoEmptyAverage | Physically/JointSmoother.swift:26-34 | with a window of at least one, no reported joint is averaged over an empty history |
| JointSmoothing.JointSmoother.constructor | Physically/JointSmoother.swift:8-10 | the smoother starts with no history and the given window |
| JointSmoothing.JointSmoother.Smooth | Physically/JointSmoother.swift:12-31 | the histories become the per-joint append-and-evict update of the old ones and the result is each frame joint's mean |
| JointSmoothing.JointSmoother.Record | Physically/JointSmoother.swift:15-27 | one joint's history gets the point appended and its oldest point evicted beyond the window; the mean of the new history is returned |
| SharedModel.DecodedCases | Physically/SharedModel.swift:12-16 | a saved selection reads back as written; a missing or undecodable value reads as the empty selection |
| SharedModel.Decoded | Physically/SharedModel.swift:12-16 | defines the `appSelection` getter: the stored selection, or the empty one when the key is missing or undecodable |
| SharedModel.SharedDefaults.AppSelection | Physically/SharedModel.swift:11-16 | the getter on the app group's stored value |
| SharedModel.SharedDefaults.SaveAppSelection | Physically/SharedModel.swift:17-22 | the setter stores the selection so that the getter returns it |
| SharedModel.LockedShieldsSelection | Physically/BlockingManager.swift:32-33 | under the full lock exactly the selected apps and categories are shielded and web domains are untouched |
| SharedModel.Locked | Physically/BlockingManager.swift:32-33 | defines the full lock: applications and categories shielded to the selection, web domains untouched |
| SharedModel.LockedIdempotent | Physically/BlockingManager.swift:24-34 | applying the full lock twice is the same as once |
| SharedModel.ActivityCenter.StopMonitoring | Physically/BlockingManager.swift:72 | the named activities are no longer monitored, all others are kept |
| SharedModel.ActivityCenter.StartMonitoring | Physically/BlockingManager.swift:89-95 | an accepted schedule replaces the activity's entry; a rejected one changes nothing |
| Blocking.CeilMinutes | Physically/BlockingManager.swift:125-127 | the whole minutes cover the duration and one minute fewer would not: `minutes*60 >= duration > (minutes-1)*60` |
| Blocking.CeilMinutesOfWhole | Physically/BlockingManager.swift:125-127 | a duration of whole minutes rounds to exactly those minutes |
| Blocking.DefaultIsFifteenMinutes | Physically/BlockingManager.swift:125-127 | the default 900 seconds is 15 minutes |
| Blocking.SessionExemptsOnlyToken | Physically/BlockingManager.swift:53-63 | with a token, an app is shielded iff it is selected and not the token, categories are shielded iff selected, web domains cleared |
| Blocking.GlobalSessionShieldsNothing | Physically/BlockingManager.swift:64-68 | without a token no app, category or web domain is shielded |
| Blocking.SessionSchedule | Physically/BlockingManager.swift:78-86 | defines the schedule `startSession` registers: from 5 seconds before now to `minutes` after now, repeating |
| Blocking.SessionActiveNow | Physically/BlockingManager.swift:74-86 | for a non-negative length the interval has already begun when it is registered and runs through now, it ends at the backup timer's deadline `now + minutes * 60`, and it repeats |
| Blocking.SessionShield | Physically/BlockingManager.swift:53-68 | defines the session shield: with a token every other selected app and the selected categories (nil when empty), without one nothing; web domains cleared |
| Blocking.BlockingManager.constructor | Physically/BlockingManager.swift:20-22 | the manager starts from the selection saved in the shared defaults |
| Blocking.BlockingManager.UpdateShield | Physically/BlockingManager.swift:24-39 | the selection is saved and the app and category shields become exactly the selection |
| Blocking.BlockingManager.StartSession | Physically/BlockingManager.swift:45-118 | the selection is unchanged and saved, the store holds the session shield, the session schedule replaces the old one when accepted, and one backup timer is armed |
| Blocking.BlockingManager.BackupTimerFired | Physically/BlockingManager.swift:106-117 | the fired timer is consumed and the full saved selection is shielded again |
| Blocking.BlockingManager.StopSession | Physically/BlockingManager.swift:120-123 | the session is no longer monitored and the full selection is saved and shielded |
| Blocking.BlockingManager.UnblockTemporarily | Physically/BlockingManager.swift:125-128 | starts a session of the duration rounded up to whole minutes |
| Monitor.DeviceActivityMonitorExtension.IntervalDidStart | PhysicallyMonitor/DeviceActivityMonitorExtension.swift:24-30 | the interval's start changes neither the shield nor the saved selection |
| Monitor.DeviceActivityMonitorExtension.IntervalDidEnd | PhysicallyMonitor/DeviceActivityMonitorExtension.swift:33-45 | the end of "sessionTimer" shields exactly the saved apps and categories, web domains untouched; any other activity changes nothing |
| Monitor.DeviceActivityMonitorExtension.constructor | PhysicallyMonitor/DeviceActivityMonitorExtension.swift:17-19 | the extension works on the shared shield store and the app group's saved selection |
| Stats.GrantDebtEffect | Physically/ContentView.swift:231-238 | an allowed grant adds 15 to balance and debt and stamps the date; a refused one changes nothing |
| Stats.DebtAllowed | Physically/ContentView.swift:226-229 | defines `canTakeDebt`: no earlier debt, or the last one not taken on the same calendar day |
| Stats.GrantDebt | Physically/ContentView.swift:231-235 | defines `handleDebtRequest`'s ledger update: 15 minutes added to balance and debt and today stamped when allowed, otherwise nothing |
| Stats.OneDebtPerDay | Physically/ContentView.swift:226-238 | a second request on the same day changes nothing, and after any request debt is refused for the rest of that day |
| Stats.Spend | Physically/ContentView.swift:216-217 | a spend succeeds iff the balance covers it, and then lowers the balance by exactly the amount |
| Stats.SpendKeepsBalanceNonNegative | Physically/RedeemView.swift:72-75 | a non-negative balance stays non-negative after a spend |
| Stats.EarnedBounds | Physically/SquatView.swift:105-107 | zero reps earn zero minutes, earnings are non-negative with a positive rate, and earned times rate is five times the count |
| Stats.Earned | Physically/SquatView.swift:105-106 | defines the minutes a session earns, count / rate * 5 |
| Stats.UserStats.constructor | Physically/UserStats.swift:17-27 | a new record has zero counters and balance, rates of 10 and no dates |
| Stats.UserStats.SetLedger | Physically/ContentView.swift:216-217 | the record's balance, debt and last debt date become the given ledger and no other field changes |
| Squats.NormalizeAngle | Physically/SquatManager.swift:170-175 | every raw difference in (-360, 360) maps into [0, 180], and angles already in [0, 180] are kept |
| Squats.NormalizeSymmetric | Physically/SquatManager.swift:169-173 | negating the raw difference, which is what swapping the outer joints does to it, does not change the angle |
| Squats.StepKeepsReadyIffLow | Physically/SquatManager.swift:89-134 | `repReady` holds exactly in the bottom and ascending phases after every frame, so the "should not happen" branch is unreachable |
| Squats.HysteresisBand | Physically/SquatManager.swift:90-98 | at rest an angle in [150, 160] changes nothing |
| Squats.DescendingExits | Physically/SquatManager.swift:100-109 | a descent above 160 returns to idle without counting; below 100 it reaches the bottom with `repReady` set |
| Squats.StepCount | Physically/SquatManager.swift:111-134 | a frame adds one to the count iff it is an ascending frame above 160 with `repReady`, ending in the completed phase |
| Squats.RunCountBounds | Physically/SquatManager.swift:133 | over any frames the count never decreases and grows by at most one per frame |
| Squats.UnlockExactlyOnce | Physically/SquatManager.swift:158-162 | the unlock is requested on exactly one frame iff the count crosses the target, else never |
| Squats.OneSquat | Physically/SquatManager.swift:89-134 | the angles 170, 140, 90, 130, 170 give one rep and end in the completed phase |
| Squats.ShallowDip | Physically/SquatManager.swift:90-98 | a dip only to 155 counts nothing and stays idle |
| Squats.Step | Physically/SquatManager.swift:89-128 | defines one frame of the `checkSquat` switch on the classifier's phase, readiness, count and feedback |
| Squats.CompletedRep | Physically/SquatManager.swift:131-162 | defines `completeRep`'s effect on the classifier: completed, count plus one, not ready, "UNLOCKED!" on the target rep and "Good rep!" otherwise |
| Squats.SquatManager.constructor | Physically/SquatManager.swift:29-36 | a draw below 0.05 chooses boss mode with target 10, otherwise target 5; the classifier starts idle with no rep ready |
| Squats.SquatManager.SetContext | Physically/SquatManager.swift:38-57 | the stored record is used, or a fresh one is created when there is none |
| Squats.SquatManager.Process | Physically/SquatManager.swift:59-80 | the frame is smoothed and the preferred leg's knee angle is classified; with no complete leg the classifier is unchanged |
| Squats.SquatManager.CheckSquat | Physically/SquatManager.swift:82-129 | the fields move exactly as the step function says, the rep effects follow, and `repReady` stays in step with the phase |
| Squats.SquatManager.CompleteRep | Physically/SquatManager.swift:131-163 | the count grows by one, `totalSquats` by one, `squatsBanked` only beyond the target, and the target rep starts a 15-minute global session |
| Pushups.NormalizeAngle | Physically/PushupManager.swift:147-152 | every raw difference in [-360, 360] maps into [0, 180] |
| Pushups.NormalizationsAgree | Physically/PushupManager.swift:147-150 | on (-360, 360) the push-up normalisation equals the squat one |
| Pushups.UpExits | Physically/PushupManager.swift:83-91 | up becomes down iff the angle is below 90, and on entry the baseline and the lowest point are the current shoulder y |
| Pushups.StepKeepsBelowBaseline | Physically/PushupManager.swift:93-97 | while down the lowest point is the running maximum of shoulder y, so it never lies above the baseline |
| Pushups.DownRelease | Physically/PushupManager.swift:99-110 | above 160 while down always returns to up, counting a rep iff the shoulder travelled more than 0.05, else "Go lower!" |
| Pushups.DownHolds | Physically/PushupManager.swift:111-113 | down at 160 or below stays down and counts nothing |
| Pushups.StepCount | Physically/PushupManager.swift:99-110 | a frame adds one to the count iff it completes a rep, else nothing |
| Pushups.RunCountBounds | Physically/PushupManager.swift:117-118 | over any frames the count never decreases and grows by at most one per frame |
| Pushups.UnlockExactlyOnce | Physically/PushupManager.swift:136-140 | the unlock is requested on exactly one frame iff the count crosses the target, else never |
| Pushups.DisplacementGuard | Physically/PushupManager.swift:99-110 | the same motion with 0.02 of shoulder travel is rejected with "Go lower!" and with 0.10 is counted |
| Pushups.Step | Physically/PushupManager.swift:82-114 | defines one frame of the `checkPushup` switch on phase, baseline, lowest point, count and feedback |
| Pushups.CompletedRep | Physically/PushupManager.swift:117-140 | defines `completeRep`'s effect on the classifier: count plus one, "UNLOCKED!" on the target rep and "Good pushup!" otherwise |
| Pushups.PushupManager.constructor | Physically/PushupManager.swift:7-21 | the classifier starts up with no reps and target 5 |
| Pushups.PushupManager.SetContext | Physically/PushupManager.swift:28-47 | the stored record is used, or a fresh one is created when there is none |
| Pushups.PushupManager.Process | Physically/PushupManager.swift:49-67 | the frame is smoothed and the preferred arm's elbow angle and shoulder y are classified; with no complete arm nothing changes |
| Pushups.PushupManager.CheckPushup | Physically/PushupManager.swift:69-115 | the fields move exactly as the step function says, the rep effects follow, and the lowest point stays at or below the baseline |
| Pushups.PushupManager.CompleteRep | Physically/PushupManager.swift:117-141 | the count and `totalSquats` grow by one, and the fifth rep starts a 15-minute global session |
| Content.ParseInt | Physically/ContentView.swift:214 | an accepted text is a sign and digits with a 64-bit value, and a positive result has no minus sign |
| Content.DecimalValue | Physically/ContentView.swift:214 | a decimal rendering has the value it renders |
| Content.ParseDecimal | Physically/ContentView.swift:214 | every 64-bit decimal, unsigned or with '+' or '-', parses back to its value |
| Content.ParseRejects | Physically/ContentView.swift:214 | empty text, a bare sign and text with spaces are rejected |
| Content.BankedUnlock | Physically/ContentView.swift:213-224 | text that is not a positive integer is ignored, an amount above the balance is refused, otherwise exactly that amount is spent |
| Content.BankedUnlockKeepsBalance | Physically/ContentView.swift:216-217 | a successful redemption keeps a non-negative balance non-negative, lowers it, and leaves the debt alone |
| Content.NoRecordNeverRedeems | Physically/ContentView.swift:25-31 | with no stored record the throwaway balance is zero, so nothing can be redeemed |
| Content.ContentView.constructor | Physically/ContentView.swift:208-211 | the input is empty, no alert is up and no token is pending |
| Content.ContentView.CanTakeDebt | Physically/ContentView.swift:226-229 | debt is allowed with no record or no earlier debt, otherwise iff the last debt was not taken today (never called in the app) |
| Content.ContentView.OnBankedUnlockRequest | Physically/ContentView.swift:182-189 | the decoded token becomes pending and the minutes prompt is shown |
| Content.ContentView.TypeMinutes | Physically/ContentView.swift:191 | the typed text becomes the input |
| Content.ContentView.SelectionChanged | Physically/ContentView.swift:133-136 | the manager holds the picked selection; a different one is saved and shielded at once, an equal one changes nothing else |
| Content.ContentView.ProcessBankedUnlock | Physically/ContentView.swift:213-224 | ignored input changes nothing; a short balance only raises the alert; a redemption spends the minutes, starts a session of that many minutes for the pending token, and clears input and token |
| Content.ContentView.HandleDebtRequest | Physically/ContentView.swift:231-238 | when allowed the ledger gets the grant and a 15-minute global session starts; otherwise nothing changes (never called in the app) |
| Settings.RateLabel | Physically/SettingsView.swift:97 | the label is the rate divided by 60, truncated toward zero |
| Settings.GridLabels | Physically/SettingsView.swift:97-111 | on the sliders' grids the label is exact and runs over 1 to 10 (squats) or 1 to 5 (push-ups) minutes |
| Settings.DefaultRateLabel | Physically/SettingsView.swift:97-111 | the record's default rate 10 is off the slider grid and labelled 0 |
| Settings.SettingsView.constructor | Physically/SettingsView.swift:6 | the view edits the given record |
| Settings.SettingsView.CanTakeDebt | Physically/SettingsView.swift:182-185 | debt is allowed with no earlier debt, otherwise iff the last one was not taken today |
| Settings.SettingsView.ToggleIsOn | Physically/SettingsView.swift:44-45 | the toggle reads on iff a debt was already taken today |
| Settings.SettingsView.HandleDebtRequest | Physically/SettingsView.swift:187-194 | the ledger gets the once-a-day grant, with no unlock and no other field changed |
| Settings.SettingsView.ToggleSet | Physically/SettingsView.swift:46-50 | switching on grants when allowed and leaves the toggle on; switching off changes nothing |
| Settings.SettingsView.SetSquatRate | Physically/SettingsView.swift:108-111 | the squat rate becomes the slider value, a multiple of 60 in 60...600; the push-up rate, the ledger, the rep counters and the streak keep their values |
| Settings.SettingsView.SetPushupRate | Physically/SettingsView.swift:155-158 | the push-up rate becomes the slider value, a multiple of 60 in 60...300; the squat rate, the ledger, the rep counters and the streak keep their values |
| Redeem.SliderUpper | Physically/RedeemView.swift:42 | the slider's upper end is never below 1 or below the balance, and is one of them |
| Redeem.SliderStaysAffordable | Physically/RedeemView.swift:42 | with at least one banked minute every slider position is affordable |
| Redeem.RedeemView.constructor | Physically/RedeemView.swift:11-13 | the amount starts at 15 minutes |
| Redeem.RedeemView.Slide | Physically/RedeemView.swift:42 | the slider writes a whole number of minutes within its range |
| Redeem.RedeemView.RedeemMinutes | Physically/RedeemView.swift:71-81 | a short balance changes nothing; otherwise the balance drops by exactly the amount, an unblock of amount times 60 seconds for the tapped app (or all) is requested and the view dismisses |
| SquatScreen.SquatView.FinishSession | Physically/SquatView.swift:103-110 | the balance grows by exactly squats / rate * 5 when a record exists, never shrinks for a positive rate, and the view always dismisses |
| SquatScreen.SquatView.constructor | Physically/SquatView.swift:5-14 | the view starts with the query's current record and its own manager, not dismissed |
| SquatScreen.SquatView.Appear | Physically/SquatView.swift:86-89 | after `onAppear` the view's record is the manager's: the stored one, or a fresh record inserted when there was none |
| PushupScreen.PushupView.FinishSession | Physically/PushupView.swift:97-104 | the balance grows by exactly push-ups / rate * 5 when a record exists, never shrinks for a positive rate, and the view always dismisses |
| PushupScreen.PushupView.constructor | Physically/PushupView.swift:5-14 | the view starts with the query's current record and its own manager, not dismissed |
| PushupScreen.PushupView.Appear | Physically/PushupView.swift:80-83 | after `onAppear` the view's record is the manager's: the stored one, or a fresh record inserted when there was none |
| Shame.TickBounds | Physically/WalkOfShameView.swift:64-75 | a tick lowers the count by at most one and never below zero, stops a running countdown at zero, and leaves a stopped one alone |
| Shame.TicksFrom | Physically/WalkOfShameView.swift:64-75 | from r seconds, n ticks leave r - n seconds while n is at most r, then the countdown stops at zero |
| Shame.StoppedStaysStopped | Physically/WalkOfShameView.swift:65 | a stopped countdown never changes |
| Shame.FullCountdown | Physically/WalkOfShameView.swift:64-87 | a started countdown reaches zero after 15 ticks and stops on the 16th |
| Shame.Tick | Physically/WalkOfShameView.swift:64-75 | defines one timer tick: a running countdown loses a second, or stops at zero; a stopped one is kept |
| Shame.Ticks | Physically/WalkOfShameView.swift:64-75 | defines `n` successive ticks |
| Shame.WalkOfShameView.constructor | Physically/WalkOfShameView.swift:6-9 | empty input, 15 seconds, not running, no alert |
| Shame.WalkOfShameView.StartTimer | Physically/WalkOfShameView.swift:83-87 | the countdown restarts at 15 seconds, running, with empty input |
| Shame.WalkOfShameView.OnTick | Physically/WalkOfShameView.swift:64-75 | the countdown advances by one tick and nothing else changes |
| Shame.WalkOfShameView.Type | Physically/WalkOfShameView.swift:32 | the typed text becomes the input |
| Shame.WalkOfShameView.ValidateInput | Physically/WalkOfShameView.swift:89-96 | the exact challenge sentence starts a 15-minute global session and dismisses, whatever the countdown; any other text raises the failure alert and unlocks nothing |

## Left out

- The trigonometry of `calculateAngle` (`atan2` and the radian conversion) is a parameter `Bearing`; only the normalisation tails are modelled.
- All arithmetic is on exact reals and unbounded integers: floating-point rounding, infinities and NaN are not modelled, and Swift's trap on integer overflow (for example in `minutes * 60`) is not modelled; only `Int(String)`'s 64-bit range is.
- SquatScreen.SquatView.FinishSession: requires a non-zero squat rate, because with a rate of 0 the source divides by zero in floating point (infinity or NaN), which reals cannot express.
- PushupScreen.PushupView.FinishSession: requires a non-zero push-up rate, for the same reason.
- Shame.WalkOfShameView.ValidateInput: compares the text character by character; Swift's comparison of `String` by Unicode canonical equivalence is not modelled.
- Camera capture and Vision pose detection: a frame is given as a map of joints; the detector's confidence filter and coordinate flip are not modelled.
- The `currentAngle` mirror, `isSquatting`/`isPushing`, audio, haptics, flash animations and all view layout are UI and are left out.
- `DispatchQueue.main.async` in `startSession` is applied synchronously; its ordering against other main-queue work is not modelled.
- Blocking.BlockingManager.BackupTimerFired: may be called for any armed deadline; that it fires only once the clock passes the deadline is not modelled, and `beginBackgroundTask` is left out.
- The activity schedule holds absolute times in seconds; the source passes only hour, minute and second components, so schedules that cross midnight or a day are not modelled.
- Whether the OS accepts `startMonitoring` is the parameter `accepted`; its error is only logged by the source.
- SharedModel.SharedDefaults.SaveAppSelection: treats the property-list encoding as always succeeding; when it fails the source keeps the old data.
- Squats.SquatManager.SetContext: the fetch-error path, where the record stays unset, is not modelled.
- Pushups.PushupManager.SetContext: the fetch-error path, where the record stays unset, is not modelled.
- The home screen's `canTakeDebt` and `handleDebtRequest` (Physically/ContentView.swift:226-238) are private and never called, so that debt path is unreachable in the app. They are modelled as written, but the live debt path is the settings toggle (Physically/SettingsView.swift:45-54).
- `activeSessions` and `cancelSession`, used by the home screen, are not defined in `BlockingManager`; they are not modelled.
- `unblockApps(for:token:)`, called by the redeem screen, is not defined in `BlockingManager`; the call is recorded as a value, not interpreted.
- The decoding of the notification's token data is outside the model; the decoded token is a parameter.
- Navigation triggers (showing the squat, push-up, settings and exercise-choice screens) and the deep-link and shield-action plumbing are left out.
- The slider setters require on-grid values: the slider itself only delivers those.
- The joint smoother's window is a natural number; a negative `windowSize`, which no caller uses, is not modelled.
- The calendar is the abstract function `Calendar` from a date to its day; the random boss draw is a constructor parameter.
