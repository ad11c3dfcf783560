# Experience sampling event page, modelled in Dafny

This project models the background event page of the Chrome experience-sampling
extension. The page decides whether a participant may be sent surveys. Consent
must be granted and the setup survey completed first. It then prompts surveys,
each with a notification that expires after ten minutes, and opens the survey
page that matches the decision event. The prompts are meant to be capped at ten
a day. As written, the first prompt cancels the daily reset alarm, so the cap of
ten holds per install or update rather than per day. It also builds the wire
payload that carries a completed survey to the collector and classifies the
collector's reply.

Modules:

- `Settings`: the page's constants: the cap of 10 prompts a day, the 10-minute
  prompt timeout, the notification tag, the alarm names, the 5-minute delay and
  1440-minute period of the reset alarm, the collector URL and the 4000 ms
  request timeout.
- `Gate`: `Evaluate`, the decision table over the stored consent and setup
  statuses.
- `Dispatch`: the survey page for each event classification.
- `Submission`: the `Response` and `Survey` records, the payload built by a
  loop over the responses, the request, and the classification of the
  transport's outcome.
- `Machine`: the page as a state machine over one `State` value. It has one
  function per handler, `Step` for each host event and `Run` for a sequence of
  events.
- `Properties`: lemmas about whole runs of events.
- `Background`: the class `EventPage`. Its fields are the persisted store, the
  in-memory flags and listeners, and the notifications, alarms and opened tabs
  the browser holds for the page. Each method updates these fields in place,
  and its `ensures` ties the new `Model()` to the `Machine` function of the
  same name.

## Where the code departs from its intent

The model follows the code as written in each of these cases. The intent is
taken from the source's own comments and names.

- Each prompt is meant to lead to one survey: each prompt's click handler
  (extension/background.js:144-148) captures that prompt's element and loads its
  survey. But every
  prompt adds a new click handler to both notification events, and none is ever
  removed. A click runs every handler, so two prompts and one click open two
  survey tabs (`Properties.RepeatedPromptsDuplicateDispatch`).
- A timed-out prompt is meant to be dropped: the alarm listener at
  extension/background.js:210-211 "clears the notification state when the
  survey times out". The expiry removes the notification and the alarms but not
  the prompt's click handler. So the expired prompt's survey still opens on the
  next prompt's click (`Properties.TimedOutPromptDispatchedLater`). Only a click
  that arrives right after the expiry dispatches nothing
  (`Properties.TimeoutBeforeClick`).
- The count is meant to "reset each day" (extension/background.js:40). But
  clearing the notification cancels all alarms, and this happens on every
  prompt, on every click and on every alarm, the reset alarm included. So the
  reset alarm does not survive a prompt or its own first firing
  (`Properties.PromptCancelsDailyReset`, `Properties.ResetAlarmZeroesCount`).
  After that, only a new install or update (which re-runs the setup step)
  lowers the count again (`Properties.NoResetAfterPrompt`).
- The code uses two names it never defines: the storage key of the daily
  counter and the reset alarm's name. The only defined name is
  `surveyCountReset`. The model uses one counter field and that alarm name.
- The comment on the setup check (extension/background.js:84-88) says the page
  must listen for the setup survey's completion. But the storage listener is
  added only when consent is pending (extension/background.js:71). A page
  started with consent granted and setup pending opens the setup survey and
  does not notice when it is completed. It stays unready until the gate runs
  again at the next startup or install
  (`Properties.SetupCompletionUnobservedAfterRestart`).
- Startup and install both run the gate (extension/background.js:113-114), and
  nothing records that the consent form is already open. With consent absent,
  both events firing in one page lifetime, for example after a browser update,
  open the consent form twice (`Properties.ConsentFormOpensTwice`).
- The header comment (extension/background.js:7-8) says a participant must
  complete both consent and the setup survey before surveys begin. But the
  storage listener sets readiness as soon as the setup status becomes
  completed, without checking consent (`Properties.ReadyWithoutConsent`). A
  later refusal of consent does not clear readiness either
  (`Properties.ReadyOutlivesRejection`).

The submission request's content type is sent exactly as the code writes it,
`application/JSON`. Media types are case-insensitive (section 8.3.1 of RFC
9110), so this is not a departure.

## Model

| member | source | states |
|---|---|---|
| `Gate.Evaluate` | extension/background.js:68-97 | The gate's decision table, as an if-and-only-if per action. A consent status that is absent or pending shows the consent form; rejected uninstalls; granted with setup absent or pending shows the setup survey; granted with setup completed marks the page ready. |
| `Dispatch.SurveyPath` | extension/background.js:187-203 | SSL events open `surveys/ssl.html` and unknown events open `surveys/survey-example.html`, each if and only if. |
| `Submission.TrimZone` | extension/background.js:254-258 | A timestamp ending in "Z" loses exactly that one character; any other string is returned unchanged. |
| `Submission.TrimZoneOfZoned` | extension/background.js:256-258 | Trimming undoes appending the "Z". |
| `Submission.TrimZoneOnce` | extension/background.js:256-258 | Only one trailing "Z" is removed. |
| `Submission.TrimZoneExample` | extension/background.js:254-258 | `2024-03-01T12:00:00.000Z` becomes `2024-03-01T12:00:00.000`. |
| `Submission.BuildPayload` | extension/background.js:254-267 | The payload has the trimmed timestamp and the same participant id and survey type. Its responses match the survey's in length, order and content. |
| `Submission.SendSurvey` | extension/background.js:251-290 | The request is a POST to the collector's submit URL with the `application/JSON` content type and the 4000 ms timeout, and it carries that payload. |
| `Submission.Classify` | extension/background.js:269-283 | Status 204 on a completed load, and only that, calls the success callback with the body. Any other status on load, or a network error, calls the error callback with that status. A timeout, and only a timeout, calls the error callback with no status. A load not in ready state 4 calls nothing. |
| `Submission.ClassifyExamples` | extension/background.js:269-283 | 204 means success with the body, 500 means an error with 500, and a timeout means an error without a status. |
| `Machine.SetupState` | extension/background.js:35-44 | Install empties the pending responses, zeroes the counter, records the platform and arms the reset alarm with a 5-minute delay and a 1440-minute period. Other alarms and the rest of the state are kept. |
| `Machine.ResetSurveyCount` | extension/background.js:50-54 | The reset alarm zeroes the counter. Any other alarm changes nothing, and nothing but the counter ever changes. |
| `Machine.MayShow` | extension/background.js:137-139 | A prompt may be shown exactly when the count is below the cap of 10. |
| `Machine.GetConsentStatus` | extension/background.js:60-62 | Running the gate on the stored consent status changes only readiness, the listener flag and the effect log, and never clears readiness. On a page not yet ready, readiness results exactly when consent is granted and setup is completed. |
| `Machine.MaybeShowConsentForm` | extension/background.js:68-82 | The consent step changes only readiness, the listener flag and the effect log. It appends at most one effect and never clears readiness or the listener. |
| `Machine.MaybeShowSetupSurvey` | extension/background.js:90-97 | Setup absent or pending opens `surveys/setup.html`. Readiness becomes true exactly when it already was or setup is completed. Nothing else changes. |
| `Machine.StorageUpdated` | extension/background.js:105-110 | Readiness becomes true if and only if it was already true or the change sets the setup status to completed. It never becomes false, and nothing else changes. |
| `Machine.ClearNotifications` | extension/background.js:122-125 | The survey notification is gone and no alarm is left, the reset alarm included. Other notifications stay and the rest of the state is kept. |
| `Machine.ShowSurveyNotification` | extension/background.js:133-172 | Nothing happens when the page is not ready or the count is at the cap. Otherwise: exactly one survey notification, only the 10-minute expiry alarm left, one more click and button handler for this event, and the count plus one. A count within the cap stays within the cap. |
| `Machine.LoadSurvey` | extension/background.js:184-204 | When ready, the event's survey tab is opened; when not ready, nothing happens. Only the effect log changes. |
| `Machine.ClickHandler` | extension/background.js:144-148 | One handler opens its event's survey tab when ready, then removes the notification and every alarm. Nothing else changes. |
| `Machine.SurveyTabs` | extension/background.js:144-148 | One survey tab per handler, in handler order. |
| `Machine.RunClickHandlers` | extension/background.js:144-167 | A notification click opens one survey tab per registered handler when ready, then clears the notification and all alarms. With no handlers, nothing happens. |
| `Machine.OnAlarm` | extension/background.js:209-211 | The two alarm listeners in order: the reset alarm zeroes the count and any other alarm keeps it. Then the notification is removed and no alarm is left. Nothing else changes. |
| `Machine.Step` | extension/background.js:55-211 | The listener wiring for each host event, with three host guarantees. The statuses change only through storage changes, the effect log is only appended to, and readiness is never cleared. |
| `Properties.StepPreservesInv` | extension/background.js:133-172 | Every event keeps the invariant: count within the cap, the survey notification the only one, and never shown without its expiry alarm. |
| `Properties.RunPreservesInv` | extension/background.js:133-172 | The invariant holds after any sequence of events. |
| `Properties.RunKeepsReady` | extension/background.js:90-110 | Readiness, once set, lasts for the rest of any run. |
| `Properties.PromptsCount` | extension/background.js:136-171 | On a ready page, N decision events raise the count to the smaller of old count plus N and the cap. |
| `Properties.ResetAlarmZeroesCount` | extension/background.js:50-54 | The reset alarm firing sets the count to 0 whatever it was, and leaves no alarm armed. |
| `Properties.OtherAlarmKeepsCount` | extension/background.js:50-54 | Any other alarm leaves the count alone. |
| `Properties.PromptCancelsDailyReset` | extension/background.js:122-141 | An admitted prompt leaves the reset alarm cancelled. |
| `Properties.PromptReplacesNotification` | extension/background.js:141-171 | An admitted prompt replaces the survey notification, leaves only the expiry alarm, keeps readiness and counts once. |
| `Properties.SecondPromptSupersedesFirst` | extension/background.js:141-165 | Two prompts in a row leave one notification and one expiry alarm. |
| `Properties.PromptStep` | extension/background.js:141-171 | An admitted prompt keeps readiness and the effects, adds one click handler, counts once and shows the notification. |
| `Properties.RepeatedPromptsDuplicateDispatch` | extension/background.js:144-167 | Two prompts and one click open two survey tabs: dispatch is not once per session. |
| `Properties.TimeoutBeforeClick` | extension/background.js:162-164 | The click right after the expiry dispatches nothing. |
| `Properties.ExpiryStep` | extension/background.js:209-211 | The expiry removes the notification but keeps the click handlers, the readiness flag, the effects and the count. |
| `Properties.TimedOutPromptDispatchedLater` | extension/background.js:144-167 | A prompt that expired still gets its survey opened, by the next prompt's click, together with that prompt's own survey. |
| `Properties.ClickThenButtonDispatchOnce` | extension/background.js:144-148 | With one handler, a click followed by a button click opens one survey tab: the click clears the notification, so the button click is not delivered. |
| `Properties.ReadyWithoutConsent` | extension/background.js:105-110 | A setup completion seen by the storage listener makes the page ready although consent was never given. |
| `Properties.ReadyOutlivesRejection` | extension/background.js:105-110 | A ready page stays ready when consent is later changed to rejected. |
| `Properties.CountMonotone` | extension/background.js:133-171 | Every event except an install and the reset alarm leaves the count the same or higher. |
| `Properties.StepWithoutReset` | extension/background.js:122-125 | Without the reset alarm, an event other than an install neither lowers the count nor re-arms the reset alarm. |
| `Properties.NoResetAfterPrompt` | extension/background.js:122-141 | Once the reset alarm is cancelled, no run without an install lowers the count or re-arms the reset. |
| `Properties.ClickBeforeTimeout` | extension/background.js:144-148 | A click before the expiry dispatches through the registered handlers, and leaves no alarm or notification. |
| `Properties.SetupCompletionUnobservedAfterRestart` | extension/background.js:84-97 | A page started with consent granted and setup pending opens the setup survey. A later setup completion leaves it unready, because no storage listener was added. |
| `Properties.ConsentFormOpensTwice` | extension/background.js:112-115 | With consent absent, a startup followed by an install opens the consent form twice. |
| `Properties.GetConsentStatusFollowsGate` | extension/background.js:60-97 | Running the gate on the stored statuses matches `Evaluate` case by case. Consent form: the listener is subscribed, `consent.html` opens and readiness is unchanged. Uninstall is the only effect of a rejection. Setup survey: only `surveys/setup.html` opens. Ready: only the readiness flag changes. |
| `Properties.StartupDerivesReadiness` | extension/background.js:112-114 | A freshly loaded page is ready after startup if and only if consent is granted and setup is completed. |
| `Background.EventPage.Load` | extension/background.js:11-13 | A loaded page starts not ready, with no listeners, over the persisted and browser-held state. |
| `Background.EventPage.SetupState` | extension/background.js:35-44 | In-place update matching `Machine.SetupState`, keeping the invariant. |
| `Background.EventPage.ResetSurveyCount` | extension/background.js:50-54 | In-place update matching `Machine.ResetSurveyCount`, keeping the invariant. |
| `Background.EventPage.GetConsentStatus` | extension/background.js:60-62 | In-place update matching `Machine.GetConsentStatus`, keeping the invariant. |
| `Background.EventPage.MaybeShowConsentForm` | extension/background.js:68-82 | In-place update matching `Machine.MaybeShowConsentForm`, keeping the invariant. |
| `Background.EventPage.MaybeShowSetupSurvey` | extension/background.js:90-97 | In-place update matching `Machine.MaybeShowSetupSurvey`, keeping the invariant. |
| `Background.EventPage.StorageUpdated` | extension/background.js:105-110 | In-place update matching `Machine.StorageUpdated`, keeping the invariant. |
| `Background.EventPage.ClearNotifications` | extension/background.js:122-125 | In-place update matching `Machine.ClearNotifications`, keeping the invariant. |
| `Background.EventPage.ShowSurveyNotification` | extension/background.js:133-172 | In-place update, with its early returns, matching `Machine.ShowSurveyNotification`, keeping the invariant. |
| `Background.EventPage.LoadSurvey` | extension/background.js:184-204 | In-place update matching `Machine.LoadSurvey`, keeping the invariant. |
| `Background.EventPage.RunClickHandlers` | extension/background.js:144-148 | A loop over the registered handlers, matching `Machine.RunClickHandlers`, keeping the invariant. |
| `Background.EventPage.Handle` | extension/background.js:113-211 | Delivering an event to its listeners in registration order matches `Machine.Step` and keeps the invariant. |

## Left out

- Asynchronous callback ordering and concurrency between events. Every handler runs to completion before the next event, and the storage reads and writes inside a handler happen at once.
- The browser APIs (storage, notifications, alarms, tabs, management, platform info) appear only as state fields and logged effects. Tab paths are relative to the extension root, because `chrome.extension.getURL` is not modelled.
- `Step` encodes three host guarantees: an alarm fires only while armed, a notification click arrives only while the notification exists, and the storage listener runs only after it has been added. Storage change events for keys other than the two statuses are not modelled; the listener ignores them.
- Installing the storage listener twice is recorded as one subscription. The listener only ever sets the readiness flag, so adding it twice has the same effect.
- The platform name that `getPlatformInfo` reports is a parameter of the install event.
- `constants.FindEventType` and the constants' values are not part of this model. The event classification (`Ssl` or `Unknown`) is an input, and stored status values outside the known ones are the `ConsentOther`/`SetupOther` cases. The decision argument and the prompt timestamps are dropped: the survey page never uses them.
- The notification's `eventTime`, taken from the clock, is left out.
- An undefined stored count makes the throttle check pass and the increment give NaN. The model's count is always a number, zeroed on install.
- The page being unloaded and reloaded during a session appears only as the constructor `Background.EventPage.Load`.
- The XHR transport, the timing of the 4-second timeout, `JSON.stringify`, `Date`/`toISOString` (the survey carries the ISO string) and logging are left out. The response body is modelled as a string.
- The `changes` object is never null: the host always passes a change record.
- extension/background.js does not parse as written. Lines 41, 52 and 169-170 use `{cesp.X: ...}` object keys, and the `chrome.storage.local.get(` call opened at line 136 is never closed. The model follows the evident intent: one counter key and the callback closed after it stores the count.
- The model assumes `constants.FindEventType` returns only the SSL or UNKNOWN classification. The `switch` at extension/background.js:193-201 has no default, so any other classification would leave the survey page undefined and open `surveys/undefined`.
- The form-generation tests for the phishing survey are presentation code and are not modelled.
