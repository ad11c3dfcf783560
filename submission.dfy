/** Sending a completed survey to the collector and classifying the reply. */
module Submission {
  import opened Wrappers
  import opened Settings

  /** One answered question. */
  datatype Response = Response(question: string, answer: string)

  /** A completed survey. `dateTaken` is the ISO-8601 rendering of the moment
      the survey was taken, as the host's date library produces it. */
  datatype Survey = Survey(surveyType: string, participantId: int, dateTaken: string,
                           responses: seq<Response>)

  /** The wire payload, field for field. */
  datatype Payload = Payload(dateTaken: string, participantId: int,
                             responses: seq<Response>, surveyType: string)

  /** The request that carries a payload to the collector. */
  datatype Request = Request(httpMethod: string, url: string, contentType: string,
                             timeoutMs: nat, body: Payload)

  /** What the transport reports: a completed load (with its ready state,
      status and body), a network error (with whatever status it carries),
      or the request timing out. */
  datatype XhrEvent =
    | Loaded(readyState: int, status: int, body: string)
    | Failed(status: int)
    | TimedOut

  /** The callback that is invoked, and with what. */
  datatype Callback = OnSuccess(body: string) | OnError(status: Option<int>)

  /** HTTP 204 No Content (section 15.3.5 of RFC 9110): the only status the
      collector sends for an accepted survey. */
  const NoContent: int := 204

  predicate EndsInZ(iso: string)
  {
    |iso| > 0 && iso[|iso| - 1] == 'Z'
  }

  /** Drops a trailing UTC designator "Z" (the time-offset of section 5.6 of
      RFC 3339), once, and leaves every other string alone. */
  function TrimZone(iso: string): (r: string)
    ensures EndsInZ(iso) ==> r + "Z" == iso
    ensures !EndsInZ(iso) ==> r == iso
  {
    if EndsInZ(iso) then iso[..|iso| - 1] else iso
  }

  /** Appending the designator and trimming it are inverse. */
  lemma TrimZoneOfZoned(s: string)
    ensures TrimZone(s + "Z") == s
  {
    assert EndsInZ(s + "Z");
    assert (s + "Z")[..|s|] == s;
  }

  /** Only one designator is removed: a "ZZ" ending keeps one "Z". */
  lemma TrimZoneOnce(s: string)
    ensures TrimZone(s + "ZZ") == s + "Z"
  {
    assert EndsInZ(s + "ZZ");
    assert (s + "ZZ")[..|s| + 1] == s + "Z";
  }

  lemma TrimZoneExample()
    ensures TrimZone("2024-03-01T12:00:00.000Z") == "2024-03-01T12:00:00.000"
  {
    TrimZoneOfZoned("2024-03-01T12:00:00.000");
  }

  /** The payload of a survey: timestamp trimmed, identifiers copied, and
      the responses copied one by one in their order. */
  ghost predicate Serializes(survey: Survey, data: Payload)
  {
    && data.dateTaken == TrimZone(survey.dateTaken)
    && data.participantId == survey.participantId
    && data.surveyType == survey.surveyType
    && |data.responses| == |survey.responses|
    && (forall i :: 0 <= i < |survey.responses| ==> data.responses[i] == survey.responses[i])
  }

  method BuildPayload(survey: Survey) returns (data: Payload)
    ensures Serializes(survey, data)
  {
    var dateTaken := survey.dateTaken;
    if EndsInZ(dateTaken) {
      dateTaken := dateTaken[..|dateTaken| - 1];
    }
    var responses: seq<Response> := [];
    for i := 0 to |survey.responses|
      invariant responses == survey.responses[..i]
    {
      responses := responses + [survey.responses[i]];
    }
    data := Payload(dateTaken, survey.participantId, responses, survey.surveyType);
  }

  /** The request that submits a survey: a POST of its payload, as JSON, to
      the collector's submit action, bounded by the request timeout. */
  method SendSurvey(survey: Survey) returns (req: Request)
    ensures req.httpMethod == "POST"
    ensures req.url == ServerUrl + SubmitSurveyAction
    ensures req.contentType == "application/JSON"
    ensures req.timeoutMs == XhrTimeoutMs
    ensures Serializes(survey, req.body)
  {
    var data := BuildPayload(survey);
    req := Request("POST", ServerUrl + SubmitSurveyAction, "application/JSON", XhrTimeoutMs, data);
  }

  /** Which callback a transport event invokes. A load that has not reached
      ready state 4 invokes none. */
  function Classify(e: XhrEvent): (c: Option<Callback>)
    ensures c == None <==> e.Loaded? && e.readyState != 4
    ensures (c.Some? && c.value.OnSuccess?) <==>
      e.Loaded? && e.readyState == 4 && e.status == NoContent
    ensures c.Some? && c.value.OnSuccess? ==> c.value.body == e.body
    ensures (c.Some? && c.value.OnError? && c.value.status.Some?) <==>
      (e.Loaded? && e.readyState == 4 && e.status != NoContent) || e.Failed?
    ensures c.Some? && c.value.OnError? && c.value.status.Some? ==> c.value.status.value == e.status
    ensures c == Some(OnError(None)) <==> e.TimedOut?
  {
    match e
    case Loaded(readyState, status, body) =>
      if readyState == 4 then
        if status == NoContent then Some(OnSuccess(body)) else Some(OnError(Some(status)))
      else None
    case Failed(status) => Some(OnError(Some(status)))
    case TimedOut => Some(OnError(None))
  }

  /** A server error is reported with its status; a timeout without one. */
  lemma ClassifyExamples(body: string)
    ensures Classify(Loaded(4, 204, body)) == Some(OnSuccess(body))
    ensures Classify(Loaded(4, 500, body)) == Some(OnError(Some(500)))
    ensures Classify(TimedOut) == Some(OnError(None))
  {
  }
}
