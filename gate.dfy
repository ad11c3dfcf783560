/** The eligibility gate: what the persisted consent and setup statuses call for. */
module Gate {
  import opened Wrappers

  /** The value stored under the consent key. `ConsentOther` stands for any
      stored value that is none of the three known statuses. */
  datatype ConsentValue = ConsentPending | ConsentGranted | ConsentRejected | ConsentOther

  /** The value stored under the setup key; `SetupOther` as above. */
  datatype SetupValue = SetupPending | SetupCompleted | SetupOther

  /** What the gate does, in the order its cases are tried. */
  datatype GateAction =
    | ShowConsentForm   // open the consent form and watch storage for changes
    | Uninstall         // consent was refused: remove the extension
    | ShowSetupSurvey   // consent given, setup survey still to do
    | MarkReady         // both done: surveys may be prompted
    | NoAction          // a stored value the gate does not recognise

  /** The combined gate. A lookup that found nothing (`None`) is treated like
      a pending status, so a fresh install asks for consent first. */
  function Evaluate(consent: Option<ConsentValue>, setup: Option<SetupValue>): (a: GateAction)
    ensures a == ShowConsentForm <==> consent == None || consent == Some(ConsentPending)
    ensures a == Uninstall <==> consent == Some(ConsentRejected)
    ensures a == ShowSetupSurvey <==>
      consent == Some(ConsentGranted) && (setup == None || setup == Some(SetupPending))
    ensures a == MarkReady <==> consent == Some(ConsentGranted) && setup == Some(SetupCompleted)
  {
    match consent
    case None => ShowConsentForm
    case Some(ConsentPending) => ShowConsentForm
    case Some(ConsentRejected) => Uninstall
    case Some(ConsentOther) => NoAction
    case Some(ConsentGranted) =>
      match setup
      case None => ShowSetupSurvey
      case Some(SetupPending) => ShowSetupSurvey
      case Some(SetupCompleted) => MarkReady
      case Some(SetupOther) => NoAction
  }
}
