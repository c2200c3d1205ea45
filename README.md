# GlowMine client logic in Dafny

GlowMine is a Telegram mini app. A user starts a mining session. When the
session has run for `miningDuration` seconds, `miningDuration * miningRate`
points are credited and the session goes back to idle. Users also earn points
from bounty tasks. Some tasks are timed: they must be started, counted down and
then claimed. Points can be paid out through a withdrawal dialog. A hidden admin
dashboard, opened by eight taps and a PIN, edits the economy and the task list.
The backend's answers are merged into local state by replacing values, never by
adding to them.

This project models that client logic as transitions on the records of
`types.ts`, and proves properties of them:

- `Types`: the records, their start-up values, `Deployment` and `Backend`.
  `Deployment` holds the two places a backend URL can be set: the run-time
  `window._ENV_.BACKEND_URL` and the build-time `VITE_BACKEND_URL`. The app
  reads both (App.tsx:16), and the payout dialog reads only the first
  (WithdrawModal.tsx:6). `Backend` is a Telegram id plus one of those URLs,
  which is the `tgId && BACKEND_URL` test before each request.
- `Mining`: the session engine. This covers the start and the once-a-second
  poll. It also covers what a series of polls credits, and the requests those
  polls send.
- `Ledger`: the `setUser`/`setConfig` updaters. These merge backend answers,
  complete tasks, credit points directly, and compute the referral total.
- `AdminAccess`: the eight-tap counter and the PIN check.
- `MiningView`: the countdown the mining screen shows, and its `h:mm:ss` text.
- `TasksView`: the start / countdown / claim gate of timed tasks, as a class,
  plus the button each task row shows.
- `Withdraw`: the validity predicate and the request of the payout dialog, and
  the dialog's steps, as a class.
- `Admin`: the dashboard's conversions, its number parsing with fallbacks, and
  its edits of the task list. Its local state is a class.
- `AppComponent`: the `App` component as a class. Each handler applies one of
  the transition functions above. Requests the app would send are returned, and
  backend answers are passed in.
- `Text`, `Numbers` and `Wrappers`: `Option`, `Math.max`, and the JavaScript
  built-ins used on text.
  These are `trim` (the ECMAScript white-space set), `length` in UTF-16 code
  units, `parseInt` (white space,
  sign, `0x` hexadecimal, the longest digit prefix), `parseFloat` (digits,
  fraction, exponent) and `String(n)`.

Modelling conventions:

- Points, rates and referral earnings are `real`. Durations, rewards, timers and
  millisecond timestamps are `int`.
- JavaScript truthiness is written out. A start time, a Telegram id or a task
  timer of `0` counts as absent, and so does an empty string.
- A JSON field that is absent or of the wrong type is `None`, as the
  `typeof` and `Array.isArray` tests of the code read it. `NaN` is `None`. The
  `Number(...)` conversions of App.tsx:114 and :231 read more than that; see
  "Left out".

Four behaviours one might expect of such an app are absent from the code, and
the model does not add them:

- Starting a session has no guard in `handleStartMining`. Only the disabled
  button (MiningView.tsx:167) prevents a restart.
- There is no "resolving" state, no retry, and no de-duplication of credits.
  Completing a task twice credits it twice.
- Credits are not rounded.
- A withdrawal is rejected only by the `isValid` boolean. There are no typed
  rejection reasons.

Some behaviour of the code is modelled as written even where it looks
unintended:

- After a mining credit, a backend balance of 0 is ignored, because
  `me.points || prev.points` treats 0 as missing (App.tsx:231).
- The second start-up sync calls `.json()` on an already-parsed value
  (App.tsx:154). Its updater (App.tsx:157-161) is therefore never reached; it
  is modelled on its own.
- The payout dialog computes its own `BACKEND_URL` from `window._ENV_` only
  (WithdrawModal.tsx:6), without the app's fallback to `VITE_BACKEND_URL`
  (App.tsx:16). A deployment that sets only the Vite variable therefore sends
  the app's `/api/earn` requests, but every payout ends on the error step
  without a request being sent (`Withdraw.ViteOnlyDeploymentCannotWithdraw`).
- The dashboard labels the rate as GP per minute. Duration is stored in seconds,
  and App.tsx:221 multiplies seconds by rate. The model keeps that product.

## Model

| member | source | states |
|---|---|---|
| Mining.Tick | App.tsx:215-236 | A poll leaves the user's name, referrals and tasks alone. It adds `miningDuration * miningRate` to the points exactly when the running session has lasted the duration, and then makes the session idle. Otherwise it changes nothing. It keeps `isActive` ⇔ start time present. |
| Mining.StartMining | App.tsx:240-245 | Starting makes the session active with start time `now`, keeps it consistent, and changes no other field. This holds even if the session was already active. |
| Mining.CompletionEarnRequest | App.tsx:224-229 | An `/api/earn` request is sent exactly when the poll credits the session and the client is linked. It carries the credited amount and the reason "mining". |
| Mining.TickBeforeDurationIsNoop | App.tsx:219-220 | A poll before the duration has passed leaves the state unchanged. |
| Mining.CreditIndependentOfLateness | App.tsx:220-222 | Any two completing polls produce the same state, however late they come. |
| Mining.NoCreditAfterCompletion | App.tsx:216-222 | After the completing poll, later polls change nothing. |
| Mining.RunCreditsAtMostOnce | App.tsx:215-238 | A series of polls ends credited once if some poll reached the duration, and unchanged otherwise. |
| Mining.PointsAfterRun | App.tsx:221-222 | After any series of polls the balance has grown by 0 or by one session reward. |
| Mining.IdleSendsNothing | App.tsx:216 | Polls of a session that is not running send no request. |
| Mining.AtMostOneEarnRequest | App.tsx:223-233 | A series of polls sends at most one `/api/earn` request, and for the session reward. |
| Mining.RestartForfeitsDueCredit | App.tsx:240-245 | Restarting while active moves the start time. A poll that would have credited the old session then credits nothing. |
| Mining.ExampleSixtySeconds | App.tsx:219-222 | Rate 10 for 60 seconds: nothing at 59.999 s, 600 at 60 s, and nothing more afterwards. |
| Ledger.MergeConfigIdempotent | App.tsx:85 | Merging a configuration answer twice is the same as merging it once. An empty answer keeps everything. |
| Ledger.MergeFullPatchReplaces | App.tsx:85 | An answer carrying every field replaces the configuration, whatever it was. |
| Ledger.MergeConfig | App.tsx:85 | No contract of its own. It is the object spread, field by field. `MergeConfigFieldwise`, `MergeConfigIdempotent` and `MergeFullPatchReplaces` state its properties. |
| Ledger.MergeConfigFieldwise | App.tsx:85 | For each of the nine fields, a value present in the answer overrides the local one, and an absent one keeps its previous value. |
| Ledger.ApplyConfigResponse | App.tsx:83-86 | The configuration changes only on an `ok` answer that carries a configuration, and then by that merge. |
| Ledger.MergeMeOnLoad | App.tsx:111-116 | On load, the name is the Telegram name. The points and referrals are the backend's, or 0 and empty when missing. Tasks and session are kept. |
| Ledger.MergeMeConfig | App.tsx:118-120 | A `/api/me` answer without a configuration leaves the configuration as it was. One with a configuration merges it by the same spread as `/api/config`. |
| Ledger.MergeMeSync | App.tsx:155-161 | A number replaces the balance and an array replaces the referrals. Otherwise the local value stays. A null answer changes nothing. |
| Ledger.MergeMeAfterEarn | App.tsx:231 | A non-zero backend balance replaces the local one. A zero or missing one leaves it. Referrals are replaced when the answer has an array. |
| Ledger.ReconcileReplacesNotAdds | App.tsx:114 | In all three merges, two local states end with the same balance: the backend's. It is never added to the local balance. |
| Ledger.ZeroBalanceIgnoredAfterEarn | App.tsx:231 | A backend balance of 0 is dropped after a credit, though it is taken on load. |
| Ledger.GuestFallback | App.tsx:98-101 | Without Telegram or a backend, only the placeholder name changes, and it becomes "Guest". |
| Ledger.FindTask | App.tsx:252 | `None` exactly when no task has the id. Otherwise the result is the first task with that id. |
| Ledger.MarkCompleted | App.tsx:256 | Length and order are kept. Tasks with the id become completed and are otherwise unchanged. All other tasks are untouched. |
| Ledger.CompleteTask | App.tsx:251-258 | An unknown id changes nothing. A known id marks its tasks completed and adds the first match's reward. Name, referrals and session are kept. |
| Ledger.CompleteTaskUniqueId | App.tsx:254-258 | For a task whose id is unique, only that task changes, and the points grow by its reward. |
| Ledger.FindAfterMark | App.tsx:252-256 | After marking, the first task with the id is the same task, now completed. |
| Ledger.CompleteTaskTwiceCreditsTwice | App.tsx:251-258 | There is no `isCompleted` guard, so completing a task twice adds its reward twice. |
| Ledger.TaskEarnRequest | App.tsx:260-266 | An `/api/earn` request is sent exactly for a known id on a linked client. It carries the reward and the reason `task:<id>`. |
| Ledger.UpdatePoints | App.tsx:247-249 | The points grow by exactly `amount`, and nothing else changes. |
| Ledger.TotalEarned | App.tsx:315 | No contract of its own. It is the `reduce` sum of the `earned` fields, from the left. `TotalEarnedAppend` and `TotalEarnedBounds` state its properties. |
| Ledger.TotalEarnedAppend | App.tsx:315 | The referral total of two lists joined is the sum of their totals. |
| Ledger.TotalEarnedBounds | App.tsx:315 | With non-negative earnings, the total is non-negative and at least each single earning. |
| AdminAccess.AdminTap | App.tsx:176-187 | The counter stays below 8. A tap opens the PIN dialog exactly when it is the eighth, and otherwise adds one. |
| AdminAccess.TapsFromCount | App.tsx:178-182 | After `k` quick taps the counter is `(count + k) mod 8`. The dialog has opened `(count + k) div 8` times. |
| AdminAccess.EighthTapOpens | App.tsx:179-181 | Seven taps do not open the dialog; the eighth does and resets the counter. |
| AdminAccess.PinSubmit | App.tsx:189-198 | The input is cleared either way. The dashboard opens exactly on the key "2025", which also closes the dialog. A wrong key changes no flag. |
| AdminAccess.WrongPinsIndistinguishable | App.tsx:194-197 | Any two wrong keys end in the same state. |
| MiningView.Remaining | components/MiningView.tsx:27-28 | The remaining time is never negative. It is at most the duration once the session has started. It is 0 exactly when the whole seconds elapsed reach the duration. |
| MiningView.RemainingNonIncreasing | components/MiningView.tsx:26-28 | The countdown never goes up as time passes. |
| MiningView.DisplayZeroIffEngineCompletes | components/MiningView.tsx:27-28 | The floored display reaches 0 exactly when the engine's unfloored test credits the session. |
| MiningView.TimeLeft | components/MiningView.tsx:23-37 | An inactive session, or one without a truthy start time, shows 0. A running one shows the remaining time. |
| MiningView.HandleStart | components/MiningView.tsx:165-167 | The disabled button means an active session is never restarted from this screen. |
| MiningView.Field | components/MiningView.tsx:63 | A field is all digits and reads back as its number. A padded field under 100 has two digits. |
| MiningView.ClockText | components/MiningView.tsx:63 | No contract of its own. It is the template string for given hours, minutes and seconds. `ClockTextFields` and `ClockTextRoundTrip` state its properties. |
| MiningView.FormatTime | components/MiningView.tsx:59-64 | No contract of its own. It splits the seconds as the code does and renders them with `ClockText`. `FormatTimeRoundTrip`, `FormatTimeShape` and `FormatTimeExamples` state its properties. |
| MiningView.ClockDecomposition | components/MiningView.tsx:60-62 | The hours, minutes and seconds `formatTime` takes make up the given seconds, with minutes and seconds below 60. |
| MiningView.ClockTextFields | components/MiningView.tsx:63 | The text splits at ':' into hours (only when there is at least an hour), then minutes (padded only after hours), then padded seconds. |
| MiningView.ClockTextRoundTrip | components/MiningView.tsx:63 | Reading the fields of the text for `h`, `m`, `s` back as base 60 gives `(h*60 + m)*60 + s`. |
| MiningView.FormatTimeRoundTrip | components/MiningView.tsx:59-64 | Reading the fields back as base 60 gives the seconds that were formatted: `h*3600 + m*60 + s`. |
| MiningView.FormatTimeShape | components/MiningView.tsx:63 | The text always ends in ':' followed by two digits. It has three fields exactly from one hour on, and the minutes field then has two digits. |
| MiningView.FormatTimeExamples | components/MiningView.tsx:59-64 | 59 s shows "0:59", and 3725 s shows "1:02:05". |
| TasksView.NextCountdown | components/TasksView.tsx:37-43 | A tick never makes the countdown negative. It subtracts one from a positive countdown and gives 0 from 1 or less. |
| TasksView.CountdownAfterValue | components/TasksView.tsx:36-44 | After `k > 0` ticks the countdown is `max(0, c - k)`. |
| TasksView.CountdownDoneIff | components/TasksView.tsx:36-44 | From a timer `t >= 1`, the countdown is 0 exactly from the `t`-th tick on. |
| TasksView.CanClaim | components/TasksView.tsx:72-73 | No contract of its own. A task can be claimed when it is the one being verified and its countdown is 0. `TaskButton` and `TwentySecondTimer` state its use. |
| TasksView.TaskButton | components/TasksView.tsx:95-116 | A completed task shows the check exactly. The task being verified shows the claim button, which is enabled (with "Claim") exactly when `canClaim` holds and otherwise shows the seconds left. Any other task shows "Start". |
| TasksView.TwentySecondTimer | components/TasksView.tsx:72-73 | With a 20-second timer, claim is disabled after 19 ticks and enabled after 20. |
| TasksView.CompletedTaskShowsCheck | components/TasksView.tsx:95-96 | After the app completes a task, its row shows the check under any verification state. It can be neither started nor claimed. |
| TasksView.HasTimer | components/TasksView.tsx:33 | No contract of its own. `if (task.timer)`: a timer is present and not 0. `TaskGate.StartTask` states its use. |
| TasksView.TaskGate.constructor | components/TasksView.tsx:11-12 | The screen starts with no task being verified and a countdown of 0. |
| TasksView.TaskGate.StartTask | components/TasksView.tsx:15-49 | A completed task changes nothing. A task with a truthy timer becomes the one being verified, with the timer as countdown. Any other task is reported complete at once. |
| TasksView.TaskGate.TickCountdown | components/TasksView.tsx:37-43 | One tick applies `NextCountdown` and changes nothing else. |
| TasksView.TaskGate.ClaimReward | components/TasksView.tsx:51-55 | Claiming reports the id once and clears the verification and the countdown. |
| Withdraw.IsValid | components/WithdrawModal.tsx:23 | Accepted input implies a balance at least the minimum and a trimmed address of at least six characters. The lemmas below give the exact conditions. |
| Withdraw.BalanceBelowMinimumNeverValid | components/WithdrawModal.tsx:23 | With a balance below the minimum, no amount is accepted. |
| Withdraw.NotANumberRejected | components/WithdrawModal.tsx:23 | Text that parses to `NaN` is never accepted. |
| Withdraw.AddressPaddingIgnored | components/WithdrawModal.tsx:23 | White space around the address does not change validity. |
| Withdraw.WholeAmountValid | components/WithdrawModal.tsx:23 | A typed whole amount is accepted exactly when minimum ≤ amount ≤ balance and the trimmed address is more than 10 UTF-16 code units long. |
| Withdraw.WideCharactersCountTwice | components/WithdrawModal.tsx:23 | An address of six characters above U+FFFF (six emoji) is long enough, because JavaScript counts each of them as two code units. |
| Withdraw.SendWithdrawRequest | components/WithdrawModal.tsx:25-40 | A request is sent exactly when there is a truthy Telegram id and the dialog's own URL (`ModalUrl`) is non-empty. It carries the id, the parsed amount and the address. The result is ok exactly when the backend answered ok; a throw is a failure. |
| Withdraw.ViteOnlyDeploymentCannotWithdraw | components/WithdrawModal.tsx:6 | With only `VITE_BACKEND_URL` set, the app is linked for `/api/earn` (App.tsx:16) but the dialog sends no payout request and reports failure, whatever the backend would answer. |
| Withdraw.WithdrawForm.constructor | components/WithdrawModal.tsx:17-21 | The dialog opens on the form step with an empty address and amount, no submission running and no result pending, and takes its balance and minimum from the props. |
| Withdraw.WithdrawForm.PropsChanged | App.tsx:339 | A re-render sets the balance and the minimum to the app's current `user.points` and `config.minWithdraw`, and nothing else changes. |
| Withdraw.WithdrawForm.BeginSubmit | components/WithdrawModal.tsx:42-46 | Input that is invalid against the current props sends nothing and changes nothing. Valid input sets `isSubmitting`, sends the request and keeps its result pending for the timeout. |
| Withdraw.WithdrawForm.SetAddress | components/WithdrawModal.tsx:84 | The address becomes the typed text, and nothing else changes. |
| Withdraw.WithdrawForm.SetAmount | components/WithdrawModal.tsx:102 | The amount becomes the typed text, and nothing else changes. |
| Withdraw.WithdrawForm.SubmitEnabled | components/WithdrawModal.tsx:117 | An enabled button means no submission is running, the current balance reaches the current minimum and the trimmed address has at least six characters. By its definition it is enabled exactly when the input is valid against the current props and nothing is submitting; `ValidityFollowsProps` states this across a re-render. |
| Withdraw.WithdrawForm.FinishSubmit | components/WithdrawModal.tsx:47-50 | Only after a request was begun: the step becomes success exactly when that request's result was ok and error otherwise. `isSubmitting` is cleared and nothing is left pending. |
| Withdraw.WithdrawForm.Retry | components/WithdrawModal.tsx:173 | Retry returns to the form and touches only the step, so address and amount are kept. |
| Withdraw.CreditMakesAmountValid | components/WithdrawModal.tsx:23 | A whole amount refused while the balance was below it is accepted once the balance reaches it. |
| Withdraw.ValidityFollowsProps | components/WithdrawModal.tsx:23 | On the dialog itself, the button is enabled before and after a re-render exactly as `IsValid` judges the same input against the props of that moment. |
| Admin.MinutesDisplay | components/AdminDashboard.tsx:35 | The shown minutes are at least 1 and within half a minute of the stored seconds. Under 90 seconds they show as 1. |
| Admin.StoreMinutes | components/AdminDashboard.tsx:53 | The stored duration is at least 60 seconds and a multiple of 60. It is exactly `mins * 60` for `mins >= 1`. |
| Admin.MinutesRoundTrip | components/AdminDashboard.tsx:24 | Storing minutes and showing them again gives `max(1, mins)`. |
| Admin.ApplyMinutesInput | components/AdminDashboard.tsx:48-55 | A number sets only the duration, to `max(1, mins) * 60`. Text that is not a number leaves the configuration as it was. |
| Admin.MinutesTextRoundTrip | components/AdminDashboard.tsx:48-55 | Typing a whole number of minutes and reopening the dashboard shows that number again, or 1 for 0. |
| Admin.ApplyRateInput | components/AdminDashboard.tsx:39-46 | A finite number becomes the rate and nothing else changes. Anything else leaves the configuration as it was. |
| Admin.WholeRateStored | components/AdminDashboard.tsx:41-44 | A typed whole rate is stored as that number. |
| Admin.IntOrZero | components/AdminDashboard.tsx:144 | Text that is not a number gives 0. A number gives itself. |
| Admin.SetIntField | components/AdminDashboard.tsx:144-146 | Exactly the named whole-number field is set. No other field changes. |
| Admin.IntFieldTyped | components/AdminDashboard.tsx:234-235 | A typed whole number is stored as that number. |
| Admin.SetTextField | components/AdminDashboard.tsx:221-222 | The bot token or the chat id becomes the typed text, and nothing else changes. |
| Admin.NewTask | components/AdminDashboard.tsx:67-76 | The new task's id is "task_" followed by the time. It is not completed, is a link task, and has reward 1000 and timer 30. |
| Admin.AddTask | components/AdminDashboard.tsx:77 | Exactly one task is appended and the existing tasks keep their order. |
| Admin.RemoveId | components/AdminDashboard.tsx:82 | No task with the id remains, and the list does not grow. |
| Admin.RemoveIdKeepsOthers | components/AdminDashboard.tsx:82 | Every task with another id remains, and nothing new appears. |
| Admin.RemoveIdAppend | components/AdminDashboard.tsx:82 | Filtering works piece by piece, so the order of the rest is kept. |
| Admin.RemoveAbsentId | components/AdminDashboard.tsx:82 | Deleting an id no task has changes nothing. |
| Admin.DeleteTask | components/AdminDashboard.tsx:80-84 | Nothing is deleted unless confirmed. A confirmed deletion is the filter. |
| Admin.DeleteUndoesAdd | components/AdminDashboard.tsx:67-84 | Deleting a just-added task whose id was new restores the list. |
| Admin.ApplyEdit | components/AdminDashboard.tsx:86-88 | An edit never changes the id or the completion flag, and it sets exactly its own field. Reward and timer are the parsed number or 0. |
| Admin.UpdateTaskField | components/AdminDashboard.tsx:86-88 | Length, positions and ids are kept. Only tasks with the id get the edit. |
| Admin.EditInvisibleAfterDelete | components/AdminDashboard.tsx:80-88 | Deleting a task discards every edit made to it. |
| Admin.AdminPanel.constructor | components/AdminDashboard.tsx:15-25 | The local copies are the props, and the minutes box shows the stored duration in minutes. |
| Admin.AdminPanel.RateChanged | components/AdminDashboard.tsx:39-46 | The local configuration becomes `ApplyRateInput` of the typed text. |
| Admin.AdminPanel.IntFieldChanged | components/AdminDashboard.tsx:144-146 | The named whole-number field becomes the parsed number, or 0 when it is `NaN`, through `SetIntField`. |
| Admin.AdminPanel.TextFieldChanged | components/AdminDashboard.tsx:221-222 | The bot token or the chat id becomes the typed text, through `SetTextField`. |
| Admin.AdminPanel.AddNewTask | components/AdminDashboard.tsx:67-78 | The local list becomes `AddTask` of it, at time `now`. |
| Admin.AdminPanel.DeleteTaskRow | components/AdminDashboard.tsx:80-84 | The local list becomes `DeleteTask` of it, for the answer to the confirmation. |
| Admin.AdminPanel.EditTask | components/AdminDashboard.tsx:86-88 | The local list becomes `UpdateTaskField` of it. |
| Admin.AdminPanel.SaveConfig | components/AdminDashboard.tsx:57-60 | The configuration handed to the app is the local one. |
| Admin.AdminPanel.SaveTasks | components/AdminDashboard.tsx:62-65 | The task list handed to the app is the local one. |
| Admin.AdminPanel.MinutesChanged | components/AdminDashboard.tsx:48-55 | The box keeps the typed text, and the local configuration applies the minutes input. |
| Admin.AdminPanel.Sync | components/AdminDashboard.tsx:28-37 | New props replace the local copies, and the minutes box shows the stored duration in minutes. |
| Types.Backend.Linked | App.tsx:225 | No contract of its own. `tgId && BACKEND_URL`: a Telegram id that is present and not 0, and a non-empty URL. `CompletionEarnRequest`, `TaskEarnRequest` and `SendWithdrawRequest` state its use. |
| Types.DefaultConfig | App.tsx:18-29 | A constant: rate 0.05 per second, a 3600-second session, referral reward 500, minimum payout 10000, exchange rate 1000, 14502 members, 842 active, and empty bot token and chat id. |
| Types.DefaultTasks | App.tsx:31-35 | A constant: the tasks "v1" (video, 500, 20-second timer), "t1" (Telegram, 1000, no timer) and "l1" (link, 300, 20-second timer), none completed. |
| Types.InitialState | App.tsx:37-43 | A constant: the name "Loading...", 0 points, no referrals, `DefaultTasks` and an idle session with no start time. |
| Types.StripTrailingSlash | App.tsx:16 | One trailing '/' is cut off when there is one. Otherwise the text is kept. |
| Types.Deployment.AppUrl | App.tsx:16 | No contract of its own. It is the injected URL, else the Vite one, without a trailing '/'. |
| Types.Deployment.ModalUrl | components/WithdrawModal.tsx:6 | No contract of its own. It is the injected URL only, without a trailing '/'. |
| Types.UrlsAgreeIff | App.tsx:16 | The app's and the payout dialog's URLs agree exactly when a URL is injected at run time, or the Vite URL is empty once its trailing '/' is cut. |
| Numbers.Max | components/MiningView.tsx:28 | The result is one of the two arguments and is at least both. |
| AppComponent.LoadName | App.tsx:45-51 | The name is the username, or else the first name (or "User") followed by the last name when present. |
| AppComponent.SyncName | App.tsx:138-140 | The name is the username, or else the first name, or else "GlowUser". |
| AppComponent.NamesAgreeIff | App.tsx:49 | The two start-up effects derive the same name exactly when there is a username, or a first name and no last name. |
| AppComponent.App.constructor | App.tsx:37-43 | The first state is the initial user and the default configuration, for the given deployment. It is consistent and has the counter at 0 and both admin flags off. |
| AppComponent.App.StartMining | App.tsx:240-245 | The handler applies `Mining.StartMining` and keeps the invariant. |
| AppComponent.App.MiningTick | App.tsx:215-238 | A poll applies `Mining.Tick` and returns the request of `Mining.CompletionEarnRequest` for the app's URL (`AppUrl`), keeping the invariant. |
| AppComponent.App.EarnReconciled | App.tsx:230-231 | The follow-up `/api/me` answer is merged by `Ledger.MergeMeAfterEarn`, keeping the invariant. |
| AppComponent.App.CompleteTask | App.tsx:251-267 | The handler applies `Ledger.CompleteTask` and returns `Ledger.TaskEarnRequest` for the app's URL. |
| AppComponent.App.UpdatePoints | App.tsx:247-249 | The handler applies `Ledger.UpdatePoints`. |
| AppComponent.App.ReferralTotal | App.tsx:315 | No contract of its own. The referral screen's total is `Ledger.TotalEarned` of the user's referrals. |
| AppComponent.App.ConfigLoaded | App.tsx:83-86 | The configuration becomes `Ledger.ApplyConfigResponse` of the answer. |
| AppComponent.App.LoadWithoutBackend | App.tsx:97-101 | The handler applies `Ledger.GuestFallback`. |
| AppComponent.App.UserLoaded | App.tsx:110-120 | The load answer is merged into the user and into the configuration. |
| AppComponent.App.LoadFailed | App.tsx:121-124 | Only the name changes, to the Telegram name. |
| AppComponent.App.NameSynced | App.tsx:142-145 | With no Telegram id nothing changes. Otherwise only the name is set. |
| AppComponent.App.MeSynced | App.tsx:155-161 | The handler applies `Ledger.MergeMeSync`. |
| AppComponent.App.AdminTrigger | App.tsx:176-187 | A tap applies `AdminTap`: the counter stays below 8, and the PIN dialog opens on the eighth tap. |
| AppComponent.App.TapTimerExpired | App.tsx:183-185 | Two seconds without a tap put the counter back to 0, keeping the invariant. |
| AppComponent.App.SetPinInput | App.tsx:329 | The PIN input becomes the typed text. |
| AppComponent.App.PinSubmit | App.tsx:189-198 | The handler applies `AdminAccess.PinSubmit` to the three flags. |
| AppComponent.App.CancelPin | App.tsx:331 | Cancel closes the dialog and clears the input. |
| AppComponent.App.UpdateConfig | App.tsx:201-203 | The new configuration is taken locally, whatever the backend says. |
| AppComponent.App.UpdateTasks | App.tsx:340 | The dashboard's task list replaces the user's. |
| Text.Trim | components/WithdrawModal.tsx:23 | The result is a slice of the input with only white space cut off either side, and it neither starts nor ends with white space. |
| Text.TrimIgnoresPadding | components/WithdrawModal.tsx:23 | Trimming ignores any white-space padding. |
| Text.TrimUnpadded | components/WithdrawModal.tsx:23 | Text that neither starts nor ends with white space is its own trim. |
| Text.Utf16Length | components/WithdrawModal.tsx:23 | The length lies between the number of characters and twice that. It equals the number of characters when all of them are at most U+FFFF, and twice that when all are above. |
| Text.ParseFloat | components/WithdrawModal.tsx:23 | The result is `NaN` exactly when, after white space and a sign, there is neither a digit nor a '.' followed by a digit. |
| Text.DecimalPrefix | components/WithdrawModal.tsx:23 | There is no number exactly when the text starts with neither a digit nor a '.' followed by a digit. |
| Text.DecimalPrefixDigits | components/WithdrawModal.tsx:23 | A plain run of digits is a decimal literal with its decimal value. |
| Text.ParseFloatDigits | components/WithdrawModal.tsx:23 | `parseFloat` reads a plain run of digits as its decimal value. |
| Text.ParseFloatNatToString | components/AdminDashboard.tsx:41 | A decimal whole number parses back as itself. |
| Text.ParseInt | components/AdminDashboard.tsx:50 | The result is `NaN` when no digit follows the white space and sign, or when "0x" has no hexadecimal digit after it. A positive result had no '-' sign, and a negative one had it. |
| Text.ParseIntNatToString | components/AdminDashboard.tsx:50 | `parseInt` reads `String(n)` back as `n`. |
| Text.NatToString | components/AdminDashboard.tsx:24 | The text is all digits, with no leading zero. It is one digit exactly below 10. |
| Text.NatToStringValue | components/MiningView.tsx:63 | The digits of `String(n)` read back as `n`. |

## Left out

- Network and persistence are not modelled. This covers `fetch`, the `api`
  helper and its error texts, `localStorage` mirroring (App.tsx:167-173), and
  the saved state read at start-up (App.tsx:73-77, 90-93). Requests are returned
  as values. Answers, and whether `fetch` threw, are parameters.
- The environment is a parameter. The two URL settings are a `Deployment`,
  the Telegram id is a parameter of the handlers that send requests, and
  Telegram `WebApp` is a `TelegramUser`.
  `window.open`, `alert`, `confirm` and `console` are not modelled; the answer
  to `confirm` is a parameter.
- Timers are not modelled. Each interval tick and timeout is a method call or a
  list of times. This covers `setInterval`, `setTimeout`, React effect timing,
  the 800 ms delay before the withdrawal result, and overlapping intervals.
  One example: a second timed task leaves the first interval running.
- Floating point is not modelled: reals are exact. The model omits `toFixed`,
  `usdtValue` (App.tsx:281), the fiat estimate (WithdrawModal.tsx:110),
  overflow to `Infinity` in `parseFloat`, and the text `parseFloat` reads as
  `Infinity`. Both callers reject `Infinity` just as they reject `NaN`.
- Admin.AdminPanel: the rate box's text (`gpPerMin`, AdminDashboard.tsx:19, 33)
  is not a field, because it needs real-to-text conversion. The rate itself is
  modelled.
- Withdraw.WithdrawForm: the "Max" button (WithdrawModal.tsx:106) needs
  real-to-text conversion and is not modelled.
- Withdraw.WithdrawForm.BeginSubmit: only one pending result is kept. The button
  is disabled while a submission runs, but `handleSubmit` itself does not test
  `isSubmitting`. A second call before the timeout would schedule a second
  timeout in the source; in the model it replaces the pending result.
- Particle animation with `Math.random` is not modelled
  (MiningView.tsx:40-57), and neither is building the share link
  (App.tsx:269-279).
- Navigation, the tabs, `Navbar.tsx` and `ReferralView.tsx` are rendering only.
  The open and close flags of the withdrawal dialog and of the dashboard are
  not modelled.
- Ledger.MergeMeConfig: a configuration field of the wrong JSON type is taken
  over as it is by the spread. The model's patch can only hold values of the
  right type.
- Ledger.MergeMeOnLoad, Ledger.MergeMeAfterEarn: the backend's `points` is a
  number or absent. The code passes any JSON value through `Number(...)`
  (App.tsx:114, :231), which the model does not capture. A string "1500" would
  give 1500, where the model gives 0 on load and keeps the local balance after a
  credit. A string "abc" would give `NaN` on load, where the model gives 0. After
  a credit, the truthy string "0" would set the balance to 0, where the model
  keeps the local balance.
- Ledger.MergeConfig, Ledger.ApplyConfigResponse: as for `MergeMeConfig`, a
  field of the wrong JSON type, or `null`, is taken over as it is by the spread
  at App.tsx:85. The model's patch holds only well-typed values or absence.
- Admin.ApplyMinutesInput, Admin.IntOrZero, Admin.ApplyEdit: `parseInt` gives a
  double. The model does not capture rounding of long numerals, or overflow to
  `Infinity` past about 309 digits. AdminDashboard.tsx:51 rejects `Infinity`
  in the minutes box, and `parseInt(val) || 0` stores it in the other boxes;
  the model stores the exact whole number either way.
