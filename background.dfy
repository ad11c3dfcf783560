/** The event page itself: its handlers update the persisted store, the
    in-memory flags and the browser-held notifications and alarms in place.
    `Model()` is the abstract state; every handler is specified by the
    Machine function of the same name. */
module Background {
  import opened Wrappers
  import opened Settings
  import opened Gate
  import opened Dispatch
  import opened Submission
  import M = Machine
  import P = Properties

  class EventPage {
    // persisted in local storage
    var consent: Option<ConsentValue>
    var setup: Option<SetupValue>
    var surveysShownToday: nat
    var pendingResponses: seq<Survey>
    // in memory, for the life of the page
    var operatingSystem: string
    var ready: bool
    var storageListener: bool
    var clickListeners: seq<EventType>
    var buttonListeners: seq<EventType>
    // held by the browser on the page's behalf
    var notifications: map<string, M.Notification>
    var alarms: map<string, M.Alarm>
    var effects: seq<M.Effect>

    ghost function Model(): M.State
      reads this
    {
      M.State(consent, setup, surveysShownToday, pendingResponses, operatingSystem, ready,
              storageListener, clickListeners, buttonListeners, notifications, alarms, effects)
    }

    ghost predicate Valid()
      reads this
    {
      M.Inv(Model())
    }

    /** The page as it loads: what storage and the browser kept, with the
        in-memory part starting afresh (not ready, no listeners). */
    constructor Load(consent: Option<ConsentValue>, setup: Option<SetupValue>,
                     surveysShownToday: nat, pendingResponses: seq<Survey>,
                     notifications: map<string, M.Notification>, alarms: map<string, M.Alarm>)
      requires M.Inv(M.State(consent, setup, surveysShownToday, pendingResponses, "", false,
                             false, [], [], notifications, alarms, []))
      ensures Valid()
      ensures Model() == M.State(consent, setup, surveysShownToday, pendingResponses, "", false,
                                 false, [], [], notifications, alarms, [])
    {
      this.consent := consent;
      this.setup := setup;
      this.surveysShownToday := surveysShownToday;
      this.pendingResponses := pendingResponses;
      this.operatingSystem := "";
      this.ready := false;
      this.storageListener := false;
      this.clickListeners := [];
      this.buttonListeners := [];
      this.notifications := notifications;
      this.alarms := alarms;
      this.effects := [];
    }

    method SetupState(os: string)
      requires Valid()
      modifies this
      ensures Valid()
      ensures Model() == M.SetupState(old(Model()), os)
    {
      pendingResponses := [];
      operatingSystem := os;
      surveysShownToday := 0;
      alarms := alarms[ResetAlarmName := M.DailyReset];
    }

    method ResetSurveyCount(alarmName: string)
      requires Valid()
      modifies this
      ensures Valid()
      ensures Model() == M.ResetSurveyCount(old(Model()), alarmName)
    {
      if alarmName == ResetAlarmName {
        surveysShownToday := 0;
      }
    }

    method GetConsentStatus()
      requires Valid()
      modifies this
      ensures Valid()
      ensures Model() == M.GetConsentStatus(old(Model()))
    {
      MaybeShowConsentForm(consent);
    }

    method MaybeShowConsentForm(lookup: Option<ConsentValue>)
      requires Valid()
      modifies this
      ensures Valid()
      ensures Model() == M.MaybeShowConsentForm(old(Model()), lookup)
    {
      if lookup == None || lookup == Some(ConsentPending) {
        storageListener := true;
        effects := effects + [M.OpenTab(M.ConsentPage)];
      } else if lookup == Some(ConsentRejected) {
        effects := effects + [M.UninstallSelf];
      } else if lookup == Some(ConsentGranted) {
        MaybeShowSetupSurvey(setup);
      }
    }

    method MaybeShowSetupSurvey(lookup: Option<SetupValue>)
      requires Valid()
      modifies this
      ensures Valid()
      ensures Model() == M.MaybeShowSetupSurvey(old(Model()), lookup)
    {
      if lookup == None || lookup == Some(SetupPending) {
        effects := effects + [M.OpenTab(M.SetupPage)];
      } else if lookup == Some(SetupCompleted) {
        ready := true;
      }
    }

    method StorageUpdated(changes: M.Changes)
      requires Valid()
      modifies this
      ensures Valid()
      ensures Model() == M.StorageUpdated(old(Model()), changes)
    {
      if changes.setup.Some? && changes.setup.value.newValue == Some(SetupCompleted) {
        ready := true;
      }
    }

    method ClearNotifications()
      requires Valid()
      modifies this
      ensures Valid()
      ensures Model() == M.ClearNotifications(old(Model()))
    {
      notifications := notifications - {NotificationTag};
      alarms := map[];
    }

    method ShowSurveyNotification(t: EventType)
      requires Valid()
      modifies this
      ensures Valid()
      ensures Model() == M.ShowSurveyNotification(old(Model()), t)
    {
      if !ready {
        return;
      }
      if surveysShownToday >= MaxSurveysPerDay {
        return;
      }
      ClearNotifications();
      notifications := notifications[NotificationTag := M.SurveyPrompt];
      alarms := alarms[PromptAlarmName := M.PromptExpiry];
      clickListeners := clickListeners + [t];
      buttonListeners := buttonListeners + [t];
      surveysShownToday := surveysShownToday + 1;
    }

    method LoadSurvey(t: EventType)
      requires Valid()
      modifies this
      ensures Valid()
      ensures Model() == M.LoadSurvey(old(Model()), t)
    {
      if !ready {
        return;
      }
      effects := effects + [M.OpenTab(SurveyPath(t))];
    }

    /** Fires one notification event: every handler registered for it, in order. */
    method RunClickHandlers(hs: seq<EventType>)
      requires Valid()
      modifies this
      ensures Valid()
      ensures Model() == M.RunClickHandlers(old(Model()), hs)
    {
      var i := 0;
      while i < |hs|
        invariant 0 <= i <= |hs|
        invariant Valid()
        invariant Model() == M.RunClickHandlers(old(Model()), hs[..i])
      {
        assert hs[..i + 1][..i] == hs[..i];
        LoadSurvey(hs[i]);
        ClearNotifications();
        i := i + 1;
      }
      assert hs[..|hs|] == hs;
    }

    /** Delivers one host event to the listeners registered for it. */
    method Handle(e: M.Event)
      requires Valid()
      modifies this
      ensures Valid()
      ensures Model() == M.Step(old(Model()), e)
    {
      P.StepPreservesInv(Model(), e);
      match e
      case Installed(os) =>
        GetConsentStatus();
        SetupState(os);
      case Startup =>
        GetConsentStatus();
      case Decision(t) =>
        ShowSurveyNotification(t);
      case AlarmFired(name) =>
        if name in alarms {
          ResetSurveyCount(name);
          ClearNotifications();
        }
      case StorageChanged(changes) =>
        var listening := storageListener;
        if changes.consent.Some? {
          consent := changes.consent.value.newValue;
        }
        if changes.setup.Some? {
          setup := changes.setup.value.newValue;
        }
        if listening {
          StorageUpdated(changes);
        }
      case NotificationClicked =>
        if NotificationTag in notifications {
          RunClickHandlers(clickListeners);
        }
      case ButtonClicked =>
        if NotificationTag in notifications {
          RunClickHandlers(buttonListeners);
        }
    }
  }
}
