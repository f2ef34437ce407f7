/** One browser session of the analyser: the result slots kept between page runs,
    the gate in front of an analysis, and the three model calls an analysis makes.
    The remote model is a function from request to outcome, given by the caller: the
    request names the prompt kind and its inputs, and `PromptText` gives the text that
    goes over the wire. */
module Session {
  import opened Text
  import opened Wrappers
  import opened Extraction
  import opened Prompts
  import opened Normalizer
  import opened CsvExport

  /** What the model client does with one request: answers with a text, or raises. */
  datatype CallOutcome = Responded(text: string) | Raised(reason: string)

  type Client = Request -> CallOutcome

  /** The text that replaces a raised exception as the answer. */
  const ApiErrorPrefix: string := "API Error: "

  /** `call_gemini_api(prompt)`: the model's text, or "API Error: " and the exception's
      message when the call raises; it never raises itself. */
  function CallModel(client: Client, request: Request): (answer: string)
    ensures client(request).Raised? ==> StartsWith(answer, ApiErrorPrefix)
    ensures client(request).Raised? ==> answer[|ApiErrorPrefix|..] == client(request).reason
    ensures client(request).Responded? ==> answer == client(request).text
  {
    match client(request)
    case Responded(text) => text
    case Raised(reason) =>
      assert (ApiErrorPrefix + reason)[..|ApiErrorPrefix|] == ApiErrorPrefix;
      ApiErrorPrefix + reason
  }

  /** The gate in front of an analysis: the button was pressed, there is CV text, and
      the job description is not blank once stripped. */
  predicate ShouldRun(clicked: bool, cvText: string, jdText: string)
  {
    clicked && cvText != "" && Strip(jdText) != ""
  }

  /** The CV text of a page run: "" with no upload, else what extraction yields. */
  function CvText(upload: Option<Pdf>): string
  {
    match upload
    case None => ""
    case Some(doc) => ExtractedText(doc)
  }

  /** The five result slots of the session. */
  datatype Slots = Slots(
    analysisComplete: bool,
    fitScoreResult: string,
    snapshotResult: string,
    interviewKitResult: string,
    snapshotJson: Option<Snapshot>)

  /** The slots as the first page run of a session sets them. */
  const InitialSlots: Slots := Slots(false, "", "", "", None)

  /** The slots after an analysis: each result slot holds the answer to its own prompt,
      the record is what the normaliser makes of the snapshot answer, and the
      analysis is marked complete. */
  function AnalysisSlots(cvText: string, jdText: string, client: Client,
                         parse: string -> ParseOutcome<Snapshot>): Slots
  {
    StoredSlots(CallModel(client, FitScoreRequest(cvText, jdText)),
                CallModel(client, SnapshotRequest(cvText)),
                CallModel(client, InterviewKitRequest(cvText, jdText)), parse)
  }

  /** The slots once the three answers are in: each answer in its own slot, the
      record made from the snapshot answer, and the run complete. */
  function StoredSlots(fit: string, snapshot: string, kit: string,
                       parse: string -> ParseOutcome<Snapshot>): Slots
  {
    Slots(true, fit, snapshot, kit, ParseJsonSafely(snapshot, parse).record)
  }

  /** The record slot agrees with the snapshot answer: it is what the normaliser makes
      of that answer. */
  predicate RecordMatchesAnswer(slots: Slots, parse: string -> ParseOutcome<Snapshot>)
  {
    slots.snapshotJson == ParseJsonSafely(slots.snapshotResult, parse).record
  }

  /** `st.session_state` as far as the analyser uses it. `initialized` says whether the
      result keys are present yet; `sent` records every request made of the model. */
  class AnalysisSession {
    var initialized: bool
    var analysisComplete: bool
    var fitScoreResult: string
    var snapshotResult: string
    var interviewKitResult: string
    var snapshotJson: Option<Snapshot>
    ghost var sent: seq<Request>

    function Current(): Slots
      reads this
    {
      Slots(analysisComplete, fitScoreResult, snapshotResult, interviewKitResult, snapshotJson)
    }

    /** A new session: none of the result keys are present and nothing has been sent. */
    constructor ()
      ensures !initialized && sent == []
    {
      initialized := false;
      analysisComplete := false;
      fitScoreResult := "";
      snapshotResult := "";
      interviewKitResult := "";
      snapshotJson := None;
      sent := [];
    }

    /** The start of every page run: the result slots are given their defaults the
        first time only, so later runs keep earlier results. */
    method InitSlots()
      modifies this
      ensures initialized
      ensures old(initialized) ==> Current() == old(Current())
      ensures !old(initialized) ==> Current() == InitialSlots
      ensures sent == old(sent)
    {
      if !initialized {
        initialized := true;
        analysisComplete := false;
        fitScoreResult := "";
        snapshotResult := "";
        interviewKitResult := "";
        snapshotJson := None;
      }
    }

    /** The analysis block: when the gate is open, the fit score, the snapshot and the
        interview kit are asked for in that order, the snapshot answer is normalised
        into the record slot, every slot is overwritten and the run is marked
        complete; when it is closed, nothing is sent and nothing changes. */
    method RunAnalysis(clicked: bool, cvText: string, jdText: string, client: Client,
                       parse: string -> ParseOutcome<Snapshot>)
      requires initialized
      modifies this
      ensures initialized
      ensures ShouldRun(clicked, cvText, jdText) ==>
                Current() == AnalysisSlots(cvText, jdText, client, parse) &&
                sent == old(sent) + RunRequests(cvText, jdText)
      ensures !ShouldRun(clicked, cvText, jdText) ==>
                Current() == old(Current()) && sent == old(sent)
    {
      if ShouldRun(clicked, cvText, jdText) {
        Analyse(cvText, jdText, client, parse);
      }
    }

    /** The body of the analysis block, which runs once the gate is open. */
    method Analyse(cvText: string, jdText: string, client: Client,
                   parse: string -> ParseOutcome<Snapshot>)
      modifies this
      ensures initialized == old(initialized)
      ensures Current() == AnalysisSlots(cvText, jdText, client, parse)
      ensures sent == old(sent) + RunRequests(cvText, jdText)
    {
      var fit := Ask(client, FitScoreRequest(cvText, jdText));
      var snapshot := Ask(client, SnapshotRequest(cvText));
      var kit := Ask(client, InterviewKitRequest(cvText, jdText));
      assert sent == old(sent) + RunRequests(cvText, jdText);
      Store(fit, snapshot, kit, parse);
    }

    /** One call of the model: the answer is what `call_gemini_api` returns for the
        request, the request is appended to those sent, and no slot changes. */
    method Ask(client: Client, request: Request) returns (answer: string)
      modifies this
      ensures answer == CallModel(client, request)
      ensures sent == old(sent) + [request]
      ensures Current() == old(Current()) && initialized == old(initialized)
    {
      answer := CallModel(client, request);
      sent := sent + [request];
    }

    /** The stores of the analysis block: the three answers go to their slots, the
        snapshot answer is normalised into the record slot, and the run is marked
        complete. */
    method Store(fit: string, snapshot: string, kit: string,
                 parse: string -> ParseOutcome<Snapshot>)
      modifies this
      ensures initialized == old(initialized) && sent == old(sent)
      ensures Current() == StoredSlots(fit, snapshot, kit, parse)
    {
      var parsed := ParseJsonSafely(snapshot, parse);
      analysisComplete, fitScoreResult, snapshotResult, interviewKitResult, snapshotJson :=
        true, fit, snapshot, kit, parsed.record;
    }

    /** A whole page run: the CV is extracted from the upload, if any, the slots are
        initialised on first use, and the analysis block runs behind its gate. */
    method PageRun(upload: Option<Pdf>, jdText: string, clicked: bool, client: Client,
                   parse: string -> ParseOutcome<Snapshot>)
      modifies this
      ensures initialized
      ensures var before := if old(initialized) then old(Current()) else InitialSlots;
              var cvText := CvText(upload);
              if ShouldRun(clicked, cvText, jdText)
              then Current() == AnalysisSlots(cvText, jdText, client, parse) &&
                   sent == old(sent) + RunRequests(cvText, jdText)
              else Current() == before && sent == old(sent)
    {
      var cvText := "";
      if upload.Some? {
        cvText := ExtractText(upload.value);
      }
      InitSlots();
      RunAnalysis(clicked, cvText, jdText, client, parse);
    }
  }

  /** The gate opens exactly when the button was pressed, there is CV text, and the
      job description has a character that is not whitespace. */
  lemma ShouldRunIff(clicked: bool, cvText: string, jdText: string)
    ensures ShouldRun(clicked, cvText, jdText) <==>
            clicked && cvText != "" && exists k :: 0 <= k < |jdText| && !IsSpace(jdText[k])
  {
    StripEmptyIffAllSpace(jdText);
  }

  /** Without an upload there is no CV text, so no analysis runs. */
  lemma NoUploadNoRun(clicked: bool, jdText: string)
    ensures !ShouldRun(clicked, CvText(None), jdText)
  {
  }

  /** An unreadable upload gives no CV text either. */
  lemma UnreadableUploadNoRun(clicked: bool, jdText: string)
    ensures !ShouldRun(clicked, CvText(Some(Unreadable)), jdText)
  {
    ExtractedTextEmptyIff(Unreadable);
  }

  /** The slots after an analysis keep the record in step with the snapshot answer. */
  lemma AnalysisRecordMatches(cvText: string, jdText: string, client: Client,
                              parse: string -> ParseOutcome<Snapshot>)
    ensures RecordMatchesAnswer(AnalysisSlots(cvText, jdText, client, parse), parse)
    ensures AnalysisSlots(cvText, jdText, client, parse).analysisComplete
  {
  }

  /** The initial slots keep the record in step with the (empty) snapshot answer,
      given a parser that rejects the empty text, as every JSON parser does. */
  lemma InitialRecordMatches(parse: string -> ParseOutcome<Snapshot>)
    requires parse("").DecodeError?
    ensures RecordMatchesAnswer(InitialSlots, parse)
  {
    CleanEmpty();
  }

  /** Only an analysis that runs writes the slots, so a page run keeps the record in
      step with the snapshot answer when the slots were in step before. */
  lemma PageRunKeepsRecord(before: Slots, after: Slots, ran: bool, cvText: string,
                           jdText: string, client: Client,
                           parse: string -> ParseOutcome<Snapshot>)
    requires RecordMatchesAnswer(before, parse)
    requires after == if ran then AnalysisSlots(cvText, jdText, client, parse) else before
    ensures RecordMatchesAnswer(after, parse)
  {
    AnalysisRecordMatches(cvText, jdText, client, parse);
  }

  /** A client that answers every request but the interview-kit one, which raises. */
  function KitFailsClient(reason: string): Client
  {
    (r: Request) => if r.InterviewKitRequest? then Raised(reason) else Responded("ok")
  }

  /** A parser that decodes the answer "ok" to an empty record and rejects the rest. */
  function OkParser(): string -> ParseOutcome<Snapshot>
  {
    (s: string) => if s == "ok" then Decoded(Snapshot(map[], None)) else DecodeError("not JSON")
  }

  /** A failed interview-kit call does not stop the analysis: the other two slots
      hold the model's answers, the snapshot answer is parsed into the record, the
      kit slot holds the error text, all three requests were sent in order, and the
      run is complete. */
  method KitFailureScenario(cvText: string, jdText: string)
    returns (session: AnalysisSession)
    requires cvText != "" && Strip(jdText) != ""
    ensures session.analysisComplete
    ensures session.fitScoreResult == "ok" && session.snapshotResult == "ok"
    ensures session.snapshotJson == Some(Snapshot(map[], None))
    ensures session.interviewKitResult == ApiErrorPrefix + "quota exceeded"
    ensures session.sent == RunRequests(cvText, jdText)
  {
    session := new AnalysisSession();
    session.InitSlots();
    CleanPlainUnchanged("ok");
    session.RunAnalysis(true, cvText, jdText, KitFailsClient("quota exceeded"), OkParser());
  }
}
