/** What the event page guarantees over whole runs of host events. */
module Properties {
  import opened Wrappers
  import opened Settings
  import opened Gate
  import opened Dispatch
  import opened Machine

  function Min(a: int, b: int): int
  {
    if a <= b then a else b
  }

  /** Two and three events in a row. */
  lemma RunPair(s: State, a: Event, b: Event)
    ensures Run(s, [a, b]) == Step(Step(s, a), b)
  {
    assert [a, b][1..] == [b];
    assert Run(Step(s, a), [b]) == Run(Step(Step(s, a), b), []);
  }

  lemma RunTriple(s: State, a: Event, b: Event, c: Event)
    ensures Run(s, [a, b, c]) == Step(Step(Step(s, a), b), c)
  {
    assert [a, b, c][1..] == [b, c];
    RunPair(Step(s, a), b, c);
  }

  lemma RunQuad(s: State, a: Event, b: Event, c: Event, d: Event)
    ensures Run(s, [a, b, c, d]) == Step(Step(Step(Step(s, a), b), c), d)
  {
    assert [a, b, c, d][1..] == [b, c, d];
    RunTriple(Step(s, a), b, c, d);
  }

  /** Every handler keeps the invariant. */
  lemma StepPreservesInv(s: State, e: Event)
    requires Inv(s)
    ensures Inv(Step(s, e))
  {
    match e
    case NotificationClicked =>
      if NotificationTag in s.notifications && s.clickListeners != [] {
        assert ClearNotifications(s).notifications.Keys <= s.notifications.Keys;
      }
    case ButtonClicked =>
      if NotificationTag in s.notifications && s.buttonListeners != [] {
        assert ClearNotifications(s).notifications.Keys <= s.notifications.Keys;
      }
    case _ =>
  }

  lemma {:induction false} RunPreservesInv(s: State, es: seq<Event>)
    requires Inv(s)
    ensures Inv(Run(s, es))
    decreases |es|
  {
    if es != [] {
      StepPreservesInv(s, es[0]);
      RunPreservesInv(Step(s, es[0]), es[1..]);
    }
  }

  /** Readiness is only ever set: once ready, ready for the rest of the run. */
  lemma {:induction false} RunKeepsReady(s: State, es: seq<Event>)
    requires s.ready
    ensures Run(s, es).ready
    decreases |es|
  {
    if es != [] {
      RunKeepsReady(Step(s, es[0]), es[1..]);
    }
  }

  /** The daily counter: each decision on a ready page counts one prompt
      until the cap is reached, and none after. */
  lemma {:induction false} PromptsCount(s: State, ts: seq<EventType>)
    requires s.ready && s.surveysShownToday <= MaxSurveysPerDay
    ensures Run(s, Decisions(ts)).surveysShownToday == Min(s.surveysShownToday + |ts|, MaxSurveysPerDay)
    decreases |ts|
  {
    if ts != [] {
      var s1 := Step(s, Decision(ts[0]));
      assert Decisions(ts)[0] == Decision(ts[0]);
      assert Decisions(ts)[1..] == Decisions(ts[1..]);
      PromptsCount(s1, ts[1..]);
    }
  }

  /** The reset alarm zeroes the counter whatever it was; it also cancels
      every alarm, itself included, so the reset does not recur. */
  lemma ResetAlarmZeroesCount(s: State)
    requires ResetAlarmName in s.alarms
    ensures Step(s, AlarmFired(ResetAlarmName)).surveysShownToday == 0
    ensures Step(s, AlarmFired(ResetAlarmName)).alarms == map[]
  {
  }

  /** Any other alarm leaves the counter alone. */
  lemma OtherAlarmKeepsCount(s: State, name: string)
    requires name != ResetAlarmName
    ensures Step(s, AlarmFired(name)).surveysShownToday == s.surveysShownToday
  {
  }

  /** A prompt cancels the daily reset alarm along with every other alarm. */
  lemma PromptCancelsDailyReset(s: State, t: EventType)
    requires s.ready && s.surveysShownToday < MaxSurveysPerDay
    ensures ResetAlarmName !in Step(s, Decision(t)).alarms
  {
  }

  /** One admitted prompt, as far as the notifications and alarms go. */
  lemma PromptReplacesNotification(s: State, t: EventType)
    requires s.ready && s.surveysShownToday < MaxSurveysPerDay
    ensures var s' := Step(s, Decision(t));
      && s'.notifications == s.notifications[NotificationTag := SurveyPrompt]
      && s'.alarms == map[PromptAlarmName := PromptExpiry]
      && s'.ready && s'.surveysShownToday == s.surveysShownToday + 1
  {
  }

  /** Setting the only possible key of a map leaves a one-entry map. */
  lemma OnlyTag(m: map<string, Notification>, n: Notification)
    requires m.Keys <= {NotificationTag}
    ensures m[NotificationTag := n] == map[NotificationTag := n]
  {
    assert m[NotificationTag := n].Keys == {NotificationTag};
  }

  /** Two prompts in a row leave exactly one notification: the second. */
  lemma SecondPromptSupersedesFirst(s: State, t1: EventType, t2: EventType)
    requires Inv(s) && s.ready && s.surveysShownToday + 2 <= MaxSurveysPerDay
    ensures Run(s, [Decision(t1), Decision(t2)]).notifications == map[NotificationTag := SurveyPrompt]
    ensures Run(s, [Decision(t1), Decision(t2)]).alarms == map[PromptAlarmName := PromptExpiry]
  {
    var s1 := Step(s, Decision(t1));
    PromptReplacesNotification(s, t1);
    OnlyTag(s.notifications, SurveyPrompt);
    PromptReplacesNotification(s1, t2);
    OnlyTag(s1.notifications, SurveyPrompt);
    RunPair(s, Decision(t1), Decision(t2));
  }

  /** What one admitted prompt changes, as far as dispatch is concerned. */
  lemma PromptStep(s: State, t: EventType)
    requires s.ready && s.surveysShownToday < MaxSurveysPerDay
    ensures var s' := Step(s, Decision(t));
      && s'.ready && s'.effects == s.effects
      && s'.clickListeners == s.clickListeners + [t]
      && s'.surveysShownToday == s.surveysShownToday + 1
      && NotificationTag in s'.notifications
  {
  }

  /** Each prompt registers its own click handler, and a click runs them
      all: two prompts and one click open two survey tabs. */
  lemma RepeatedPromptsDuplicateDispatch(s: State, t1: EventType, t2: EventType)
    requires s.ready && s.surveysShownToday + 2 <= MaxSurveysPerDay && s.clickListeners == []
    ensures Run(s, [Decision(t1), Decision(t2), NotificationClicked]).effects
         == s.effects + [OpenTab(SurveyPath(t1)), OpenTab(SurveyPath(t2))]
  {
    var s1 := Step(s, Decision(t1));
    PromptStep(s, t1);
    var s2 := Step(s1, Decision(t2));
    PromptStep(s1, t2);
    assert s2.clickListeners == [t1, t2];
    assert Step(s2, NotificationClicked) == RunClickHandlers(s2, [t1, t2]);
    assert SurveyTabs([t1, t2]) == [OpenTab(SurveyPath(t1)), OpenTab(SurveyPath(t2))];
    RunTriple(s, Decision(t1), Decision(t2), NotificationClicked);
  }

  /** An expiry right before a click: the click finds no notification and
      dispatches nothing. */
  lemma TimeoutBeforeClick(s: State)
    requires Inv(s)
    ensures Run(s, [AlarmFired(PromptAlarmName), NotificationClicked]).effects == s.effects
  {
    var s1 := Step(s, AlarmFired(PromptAlarmName));
    RunPair(s, AlarmFired(PromptAlarmName), NotificationClicked);
  }

  /** A click before the expiry: the registered handlers dispatch, and the
      expiry alarm, cancelled by the click, never fires. */
  lemma ClickBeforeTimeout(s: State)
    requires NotificationTag in s.notifications && s.clickListeners != []
    ensures var s' := Run(s, [NotificationClicked, AlarmFired(PromptAlarmName)]);
      && s'.effects == (if s.ready then s.effects + SurveyTabs(s.clickListeners) else s.effects)
      && s'.alarms == map[]
      && NotificationTag !in s'.notifications
  {
    var s1 := Step(s, NotificationClicked);
    RunPair(s, NotificationClicked, AlarmFired(PromptAlarmName));
  }

  /** What the expiry alarm changes, and what it keeps: the click handlers
      stay registered. */
  lemma ExpiryStep(s: State)
    requires Inv(s)
    ensures var s' := Step(s, AlarmFired(PromptAlarmName));
      && NotificationTag !in s'.notifications
      && s'.clickListeners == s.clickListeners && s'.ready == s.ready
      && s'.effects == s.effects && s'.surveysShownToday == s.surveysShownToday
  {
  }

  /** An expired prompt is not forgotten: its click handler stays, and the
      next prompt's click opens the expired prompt's survey as well as its own. */
  lemma TimedOutPromptDispatchedLater(s: State, t1: EventType, t2: EventType)
    requires Inv(s) && s.ready && s.surveysShownToday + 2 <= MaxSurveysPerDay && s.clickListeners == []
    ensures Run(s, [Decision(t1), AlarmFired(PromptAlarmName), Decision(t2), NotificationClicked]).effects
         == s.effects + [OpenTab(SurveyPath(t1)), OpenTab(SurveyPath(t2))]
  {
    var s1 := Step(s, Decision(t1));
    PromptStep(s, t1);
    StepPreservesInv(s, Decision(t1));
    var s2 := Step(s1, AlarmFired(PromptAlarmName));
    ExpiryStep(s1);
    var s3 := Step(s2, Decision(t2));
    PromptStep(s2, t2);
    assert s3.clickListeners == [t1, t2];
    assert Step(s3, NotificationClicked) == RunClickHandlers(s3, [t1, t2]);
    assert SurveyTabs([t1, t2]) == [OpenTab(SurveyPath(t1)), OpenTab(SurveyPath(t2))];
    RunQuad(s, Decision(t1), AlarmFired(PromptAlarmName), Decision(t2), NotificationClicked);
  }

  /** With one handler, a click and then a button click dispatch once: the
      click clears the notification, so the button click is not delivered. */
  lemma ClickThenButtonDispatchOnce(s: State, t: EventType)
    requires NotificationTag in s.notifications && s.clickListeners == [t] && s.buttonListeners == [t]
    ensures Run(s, [NotificationClicked, ButtonClicked]).effects
         == (if s.ready then s.effects + [OpenTab(SurveyPath(t))] else s.effects)
  {
    assert SurveyTabs([t]) == [OpenTab(SurveyPath(t))];
    RunPair(s, NotificationClicked, ButtonClicked);
  }

  /** The storage listener does not look at consent: a setup completion
      makes the page ready while consent was never given. */
  lemma ReadyWithoutConsent(s: State)
    requires s.consent == None && s.storageListener && !s.ready
    ensures var s' := Step(s, StorageChanged(Changes(None, Some(Change(Some(SetupCompleted))))));
      s'.ready && s'.consent != Some(ConsentGranted)
  {
  }

  /** Nor does readiness end when consent is later refused. */
  lemma ReadyOutlivesRejection(s: State)
    requires s.ready
    ensures var s' := Step(s, StorageChanged(Changes(Some(Change(Some(ConsentRejected))), None)));
      s'.ready && s'.consent == Some(ConsentRejected)
  {
  }

  /** The count is lowered only by the reset alarm and by install. */
  lemma CountMonotone(s: State, e: Event)
    requires !e.Installed? && e != AlarmFired(ResetAlarmName)
    ensures Step(s, e).surveysShownToday >= s.surveysShownToday
  {
  }

  /** Once the reset alarm is cancelled, only an install re-arms it, so
      until then nothing lowers the count again. */
  lemma StepWithoutReset(s: State, e: Event)
    requires ResetAlarmName !in s.alarms && !e.Installed?
    ensures Step(s, e).surveysShownToday >= s.surveysShownToday
    ensures ResetAlarmName !in Step(s, e).alarms
  {
    if e != AlarmFired(ResetAlarmName) {
      CountMonotone(s, e);
    }
  }

  /** After a prompt (which cancels the reset alarm) the cap of ten holds
      until the next install or update, not per day. */
  lemma {:induction false} NoResetAfterPrompt(s: State, es: seq<Event>)
    requires ResetAlarmName !in s.alarms
    requires forall i :: 0 <= i < |es| ==> !es[i].Installed?
    ensures Run(s, es).surveysShownToday >= s.surveysShownToday
    ensures ResetAlarmName !in Run(s, es).alarms
    decreases |es|
  {
    if es != [] {
      StepWithoutReset(s, es[0]);
      assert forall i :: 0 <= i < |es[1..]| ==> es[1..][i] == es[i + 1];
      NoResetAfterPrompt(Step(s, es[0]), es[1..]);
    }
  }

  /** The storage listener is added only while consent is pending, so a page
      started with consent granted and setup pending opens the setup survey
      but does not notice its completion: it stays unready until the gate
      runs again. */
  lemma SetupCompletionUnobservedAfterRestart(s: State)
    requires !s.ready && !s.storageListener
    requires s.consent == Some(ConsentGranted) && s.setup == Some(SetupPending)
    ensures var s' := Run(s, [Startup, StorageChanged(Changes(None, Some(Change(Some(SetupCompleted)))))]);
      !s'.ready && s'.setup == Some(SetupCompleted) && s'.effects == s.effects + [OpenTab(SetupPage)]
  {
    RunPair(s, Startup, StorageChanged(Changes(None, Some(Change(Some(SetupCompleted))))));
  }

  /** Startup and install both run the gate, and nothing remembers that the
      consent form is already open: with consent absent it opens twice. */
  lemma ConsentFormOpensTwice(s: State, os: string)
    requires s.consent == None
    ensures Run(s, [Startup, Installed(os)]).effects
         == s.effects + [OpenTab(ConsentPage), OpenTab(ConsentPage)]
  {
    RunPair(s, Startup, Installed(os));
  }

  /** The gate as the page runs it, case by case against the decision table. */
  lemma GetConsentStatusFollowsGate(s: State)
    ensures var s' := GetConsentStatus(s);
      match Evaluate(s.consent, s.setup)
      case ShowConsentForm => s' == s.(storageListener := true, effects := s.effects + [OpenTab(ConsentPage)])
      case Uninstall => s' == s.(effects := s.effects + [UninstallSelf])
      case ShowSetupSurvey => s' == s.(effects := s.effects + [OpenTab(SetupPage)])
      case MarkReady => s' == s.(ready := true)
      case NoAction => s' == s
  {
  }

  /** A freshly started page derives readiness from the two stored statuses. */
  lemma StartupDerivesReadiness(s: State)
    requires !s.ready
    ensures Step(s, Startup).ready <==>
      s.consent == Some(ConsentGranted) && s.setup == Some(SetupCompleted)
  {
    GetConsentStatusFollowsGate(s);
  }
}
