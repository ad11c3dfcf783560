/** Which survey page a decision event leads to. */
module Dispatch {
  /** The classification of the browser element a decision was made on. */
  datatype EventType = Ssl | Unknown

  /** The page, under the surveys directory, for each classification;
      unrecognised elements fall back to the example survey. */
  function SurveyPage(t: EventType): string
  {
    match t
    case Ssl => "ssl.html"
    case Unknown => "survey-example.html"
  }

  /** The extension-relative path of the survey tab to open. */
  function SurveyPath(t: EventType): (path: string)
    ensures t == Ssl <==> path == "surveys/ssl.html"
    ensures t == Unknown <==> path == "surveys/survey-example.html"
  {
    "surveys/" + SurveyPage(t)
  }
}
