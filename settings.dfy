/** The settings the event page declares at load time. */
module Settings {
  /** Where completed surveys are posted. */
  const ServerUrl: string := "https://chrome-experience-sampling.appspot.com"
  const SubmitSurveyAction: string := "/_ah/api/cesp/v1/submitsurvey"
  /** Upper bound, in milliseconds, on one submission request. */
  const XhrTimeoutMs: nat := 4000

  const NotificationTitle: string := "New Chrome survey available!"
  const NotificationBody: string := "Your feedback makes Chrome better."
  const NotificationButton: string := "Take survey!"
  const IconFile: string := "icon.png"

  /** The daily cap on survey prompts. */
  const MaxSurveysPerDay: nat := 10
  /** Minutes a prompt stays up before its expiry alarm clears it. */
  const NotificationTimeoutMinutes: nat := 10
  /** The id of the one survey notification. */
  const NotificationTag: string := "chromeSurvey"
  /** The one-shot alarm that expires a prompt. */
  const PromptAlarmName: string := "notificationTimeout"
  /** The periodic alarm that resets the daily count. */
  const ResetAlarmName: string := "surveyCountReset"
  /** The reset alarm first fires 5 minutes after install, then every 24 hours. */
  const ResetDelayMinutes: nat := 5
  const ResetPeriodMinutes: nat := 1440
}
