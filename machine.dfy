/** The event page as a state machine: the persisted statuses and counter,
    the in-memory readiness flag and listeners, and the host's notifications,
    alarms and opened tabs. One function per handler of the event page, and
    `Step` for the events the host delivers. */
module Machine {
  import opened Wrappers
  import opened Settings
  import opened Gate
  import opened Dispatch
  import opened Submission

  /** An armed alarm: its first delay and, for a periodic one, its period. */
  datatype Alarm = Alarm(delayInMinutes: nat, periodInMinutes: Option<nat>)

  /** The options a notification is created with. */
  datatype Notification = Notification(iconUrl: string, title: string, message: string,
                                       buttons: seq<string>)

  /** What the page asks of the browser outside its own state. */
  datatype Effect = OpenTab(path: string) | UninstallSelf

  /** One entry of a storage change record; `None` means the key was removed. */
  datatype Change<T> = Change(newValue: Option<T>)

  /** A storage change record, restricted to the keys the page looks at. */
  datatype Changes = Changes(consent: Option<Change<ConsentValue>>,
                             setup: Option<Change<SetupValue>>)

  datatype State = State(
    // persisted in local storage
    consent: Option<ConsentValue>,
    setup: Option<SetupValue>,
    surveysShownToday: nat,
    pendingResponses: seq<Survey>,
    // in memory, for the life of the page
    operatingSystem: string,
    ready: bool,
    storageListener: bool,
    clickListeners: seq<EventType>,
    buttonListeners: seq<EventType>,
    // held by the browser on the page's behalf, keyed by id and by name
    notifications: map<string, Notification>,
    alarms: map<string, Alarm>,
    effects: seq<Effect>)

  datatype Event =
    | Installed(os: string)
    | Startup
    | Decision(eventType: EventType)
    | AlarmFired(name: string)
    | StorageChanged(changes: Changes)
    | NotificationClicked
    | ButtonClicked

  const ConsentPage: string := "consent.html"
  const SetupPage: string := "surveys/setup.html"
  const SurveyPrompt: Notification :=
    Notification(IconFile, NotificationTitle, NotificationBody, [NotificationButton])
  const DailyReset: Alarm := Alarm(ResetDelayMinutes, Some(ResetPeriodMinutes))
  const PromptExpiry: Alarm := Alarm(NotificationTimeoutMinutes, None)

  /** What every reachable state satisfies: the counter is within the daily
      cap, the survey notification is the only notification, and it is never
      shown without its expiry alarm. */
  ghost predicate Inv(s: State)
  {
    && s.surveysShownToday <= MaxSurveysPerDay
    && s.notifications.Keys <= {NotificationTag}
    && (NotificationTag in s.notifications ==> PromptAlarmName in s.alarms)
  }

  /** The daily throttle. */
  function MayShow(count: nat): (ok: bool)
    ensures ok <==> count < MaxSurveysPerDay
  {
    !(count >= MaxSurveysPerDay)
  }

  // SETUP

  /** On install: empty the pending responses, zero the counter, record the
      platform and arm the daily reset alarm. */
  function SetupState(s: State, os: string): (s': State)
    ensures s'.surveysShownToday == 0 && s'.pendingResponses == []
    ensures s'.operatingSystem == os
    ensures ResetAlarmName in s'.alarms && s'.alarms[ResetAlarmName] == DailyReset
    ensures forall n :: n in s.alarms && n != ResetAlarmName ==> n in s'.alarms && s'.alarms[n] == s.alarms[n]
    ensures s'.alarms.Keys == s.alarms.Keys + {ResetAlarmName}
    ensures s' == s.(surveysShownToday := 0, pendingResponses := [], operatingSystem := os,
                     alarms := s'.alarms)
  {
    s.(pendingResponses := [], operatingSystem := os, surveysShownToday := 0,
       alarms := s.alarms[ResetAlarmName := DailyReset])
  }

  /** On any alarm: the reset alarm zeroes the counter, any other leaves it. */
  function ResetSurveyCount(s: State, alarmName: string): (s': State)
    ensures alarmName == ResetAlarmName ==> s'.surveysShownToday == 0
    ensures alarmName != ResetAlarmName ==> s' == s
    ensures s' == s.(surveysShownToday := s'.surveysShownToday)
  {
    if alarmName == ResetAlarmName then s.(surveysShownToday := 0) else s
  }

  /** The consent step of the gate, given what the consent lookup found. */
  function MaybeShowConsentForm(s: State, lookup: Option<ConsentValue>): (s': State)
    ensures s' == s.(ready := s'.ready, storageListener := s'.storageListener, effects := s'.effects)
    ensures s.ready ==> s'.ready
    ensures s.storageListener ==> s'.storageListener
    ensures s'.effects == s.effects || (|s'.effects| == |s.effects| + 1 && s'.effects[..|s.effects|] == s.effects)
  {
    if lookup == None || lookup == Some(ConsentPending) then
      s.(storageListener := true, effects := s.effects + [OpenTab(ConsentPage)])
    else if lookup == Some(ConsentRejected) then
      s.(effects := s.effects + [UninstallSelf])
    else if lookup == Some(ConsentGranted) then
      MaybeShowSetupSurvey(s, s.setup)
    else
      s
  }

  /** The setup step of the gate, given what the setup lookup found. */
  function MaybeShowSetupSurvey(s: State, lookup: Option<SetupValue>): (s': State)
    ensures s' == s.(ready := s'.ready, effects := s'.effects)
    ensures s'.ready <==> s.ready || lookup == Some(SetupCompleted)
    ensures s'.effects == (if lookup == None || lookup == Some(SetupPending)
                           then s.effects + [OpenTab(SetupPage)] else s.effects)
  {
    if lookup == None || lookup == Some(SetupPending) then
      s.(effects := s.effects + [OpenTab(SetupPage)])
    else if lookup == Some(SetupCompleted) then
      s.(ready := true)
    else
      s
  }

  /** On install and on startup: run the gate on the stored consent status. */
  function GetConsentStatus(s: State): (s': State)
    ensures s' == s.(ready := s'.ready, storageListener := s'.storageListener, effects := s'.effects)
    ensures s.ready ==> s'.ready
    ensures !s.ready ==> (s'.ready <==> s.consent == Some(ConsentGranted) && s.setup == Some(SetupCompleted))
  {
    MaybeShowConsentForm(s, s.consent)
  }

  /** The storage listener: readiness becomes true when, and only when, the
      change sets the setup status to completed. */
  function StorageUpdated(s: State, changes: Changes): (s': State)
    ensures s'.ready <==> s.ready || (changes.setup.Some? && changes.setup.value.newValue == Some(SetupCompleted))
    ensures s' == s.(ready := s'.ready)
  {
    if changes.setup.Some? && changes.setup.value.newValue == Some(SetupCompleted) then
      s.(ready := true)
    else
      s
  }

  /** Writes the changed statuses into storage, as the external forms do. */
  function ApplyChanges(s: State, changes: Changes): State
  {
    s.(consent := if changes.consent.Some? then changes.consent.value.newValue else s.consent,
       setup := if changes.setup.Some? then changes.setup.value.newValue else s.setup)
  }

  // SURVEY HANDLING

  /** Removes the survey notification and cancels every alarm, the daily
      reset alarm included. */
  function ClearNotifications(s: State): (s': State)
    ensures s'.notifications == s.notifications - {NotificationTag} && s'.alarms == map[]
    ensures s' == s.(notifications := s'.notifications, alarms := s'.alarms)
  {
    s.(notifications := s.notifications - {NotificationTag}, alarms := map[])
  }

  /** On a decision event: if ready and under the daily cap, supersede any
      earlier prompt with a fresh one, arm its expiry, register the click
      handlers for this event and count the prompt. */
  function ShowSurveyNotification(s: State, t: EventType): (s': State)
    ensures !s.ready || s.surveysShownToday >= MaxSurveysPerDay ==> s' == s
    ensures s.ready && s.surveysShownToday < MaxSurveysPerDay ==>
      && s'.surveysShownToday == s.surveysShownToday + 1
      && s'.notifications == s.notifications[NotificationTag := SurveyPrompt]
      && s'.alarms == map[PromptAlarmName := PromptExpiry]
      && s'.clickListeners == s.clickListeners + [t]
      && s'.buttonListeners == s.buttonListeners + [t]
      && s' == s.(surveysShownToday := s'.surveysShownToday, notifications := s'.notifications,
                  alarms := s'.alarms, clickListeners := s'.clickListeners,
                  buttonListeners := s'.buttonListeners)
    ensures s.surveysShownToday <= MaxSurveysPerDay ==> s'.surveysShownToday <= MaxSurveysPerDay
  {
    if !s.ready then s
    else if !MayShow(s.surveysShownToday) then s
    else
      var c := ClearNotifications(s);
      c.(notifications := c.notifications[NotificationTag := SurveyPrompt],
         alarms := c.alarms[PromptAlarmName := PromptExpiry],
         clickListeners := c.clickListeners + [t],
         buttonListeners := c.buttonListeners + [t],
         surveysShownToday := s.surveysShownToday + 1)
  }

  /** Opens the survey tab for an event, provided the page is ready. */
  function LoadSurvey(s: State, t: EventType): (s': State)
    ensures s'.effects == (if s.ready then s.effects + [OpenTab(SurveyPath(t))] else s.effects)
    ensures s' == s.(effects := s'.effects)
  {
    if !s.ready then s else s.(effects := s.effects + [OpenTab(SurveyPath(t))])
  }

  /** One registered click handler: load its survey, then clear. */
  function ClickHandler(s: State, t: EventType): (s': State)
    ensures s'.effects == (if s.ready then s.effects + [OpenTab(SurveyPath(t))] else s.effects)
    ensures NotificationTag !in s'.notifications && s'.alarms == map[]
    ensures s' == s.(notifications := s'.notifications, alarms := s'.alarms, effects := s'.effects)
  {
    ClearNotifications(LoadSurvey(s, t))
  }

  /** The survey tabs a list of handlers opens, in order. */
  function SurveyTabs(hs: seq<EventType>): (tabs: seq<Effect>)
    ensures |tabs| == |hs|
    ensures forall i :: 0 <= i < |hs| ==> tabs[i] == OpenTab(SurveyPath(hs[i]))
  {
    if hs == [] then [] else SurveyTabs(hs[..|hs| - 1]) + [OpenTab(SurveyPath(hs[|hs| - 1]))]
  }

  /** Runs registered click handlers in registration order. Every handler
      opens its own survey tab: nothing makes dispatch happen once. */
  function RunClickHandlers(s: State, hs: seq<EventType>): (s': State)
    ensures s'.effects == (if s.ready then s.effects + SurveyTabs(hs) else s.effects)
    ensures hs == [] ==> s' == s
    ensures hs != [] ==> s'.notifications == s.notifications - {NotificationTag} && s'.alarms == map[]
    ensures s' == s.(notifications := s'.notifications, alarms := s'.alarms, effects := s'.effects)
  {
    if hs == [] then s
    else
      var r := RunClickHandlers(s, hs[..|hs| - 1]);
      assert r.effects == (if s.ready then s.effects + SurveyTabs(hs[..|hs| - 1]) else s.effects);
      ClickHandler(r, hs[|hs| - 1])
  }

  /** The two alarm listeners, in registration order. */
  function OnAlarm(s: State, name: string): (s': State)
    ensures s'.surveysShownToday == (if name == ResetAlarmName then 0 else s.surveysShownToday)
    ensures s'.notifications == s.notifications - {NotificationTag} && s'.alarms == map[]
    ensures s' == s.(surveysShownToday := s'.surveysShownToday, notifications := s'.notifications,
                     alarms := s'.alarms)
  {
    ClearNotifications(ResetSurveyCount(s, name))
  }

  /** The page's reaction to one host event. The host fires only armed
      alarms, delivers clicks only while the survey notification exists and
      calls the storage listener only once it has been added. */
  function Step(s: State, e: Event): (s': State)
    ensures !e.StorageChanged? ==> s'.consent == s.consent && s'.setup == s.setup
    ensures |s.effects| <= |s'.effects| && s'.effects[..|s.effects|] == s.effects
    ensures s.ready ==> s'.ready
  {
    match e
    case Installed(os) => SetupState(GetConsentStatus(s), os)
    case Startup => GetConsentStatus(s)
    case Decision(t) => ShowSurveyNotification(s, t)
    case AlarmFired(name) => if name in s.alarms then OnAlarm(s, name) else s
    case StorageChanged(changes) =>
      var w := ApplyChanges(s, changes);
      if s.storageListener then StorageUpdated(w, changes) else w
    case NotificationClicked =>
      if NotificationTag in s.notifications then RunClickHandlers(s, s.clickListeners) else s
    case ButtonClicked =>
      if NotificationTag in s.notifications then RunClickHandlers(s, s.buttonListeners) else s
  }

  /** A sequence of events, delivered one after another. */
  function Run(s: State, es: seq<Event>): State
    decreases |es|
  {
    if es == [] then s else Run(Step(s, es[0]), es[1..])
  }

  /** A run of decision events of the given classifications. */
  function Decisions(ts: seq<EventType>): (es: seq<Event>)
    ensures |es| == |ts|
    ensures forall i :: 0 <= i < |ts| ==> es[i] == Decision(ts[i])
  {
    seq(|ts|, i requires 0 <= i < |ts| => Decision(ts[i]))
  }
}
