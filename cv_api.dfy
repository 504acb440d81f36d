/** The CV endpoints (app/api/v1/cv.py): starting a workflow, parking it in
    the key-value store while a person reviews the LaTeX, and continuing it
    with their answer.

    The store maps `"cv_workflow:" + id` to the serialised workflow context.
    Serialising and restoring a context is taken to give back the same state.
    A value is either a saved state or the empty value that the code treats
    like a missing key. The fresh workflow id is a parameter. */
module CvApi {
  import opened Common
  import opened CvWorkflow

  datatype StoredValue = EmptyValue | Saved(state: State)

  /** The body of a successful start or continue call. */
  datatype Response = Response(status: string, workflowId: string, latexContent: string)

  /** What a call returns or raises, and the store contents after it. */
  datatype Reply = Reply(result: Result<Response>, entries: map<string, StoredValue>)

  function Key(workflowId: string): (k: string)
    ensures "cv_workflow:" <= k && k[|"cv_workflow:"|..] == workflowId
  {
    "cv_workflow:" + workflowId
  }

  /** The decimal digits of `n`. */
  function Decimal(n: nat): (r: string)
    ensures r != [] && forall i :: 0 <= i < |r| ==> '0' <= r[i] <= '9'
  {
    if n < 10 then [(n + '0' as int) as char] else Decimal(n / 10) + [(n % 10 + '0' as int) as char]
  }

  /** `str(code)` for an integer. */
  function IntText(code: int): string
  {
    if code >= 0 then Decimal(code) else "-" + Decimal(-code)
  }

  /** The text `str(e)` gives: the message itself for most exceptions, the
      quoted message for a KeyError, and "status: detail" for an
      HTTPException. The exceptions raised here without a message give "". */
  function Message(e: Error): string
  {
    match e
    case ValueError(msg) => msg
    case WorkFlowError(msg) => msg
    case StorageError(msg) => msg
    case KeyError(msg) => "'" + msg + "'"
    case HTTPException(code, detail) => IntText(code) + ": " + detail
    case _ => ""
  }

  /** Every saved state is one no step has written a résumé into: the states
      saved by this code all come from runs that started from the initial
      state. */
  predicate NoSavedResume(entries: map<string, StoredValue>)
  {
    forall k :: k in entries && entries[k].Saved? ==> entries[k].state.resume.None?
  }

  /** `start_cv_workflow`: runs a new workflow. At its first review request
      it saves the state under the fresh id and returns the LaTeX to review.
      A run that ends without asking for review fails, and so does a run in
      which a step raises. */
  function StartReply(services: Services, entries: map<string, StoredValue>,
                      jobUrl: Option<string>, jobDescription: Option<string>, language: string,
                      freshId: string): (r: Reply)
    ensures r.result.Ok? <==> Drain(services, InitialState, CvStart(jobUrl, jobDescription, language)).Paused?
    ensures r.result.Ok? ==>
      var o := Drain(services, InitialState, CvStart(jobUrl, jobDescription, language));
      r.result.value == Response("review_needed", freshId, o.latexContent)
      && r.entries == entries[Key(freshId) := Saved(o.state)]
    ensures r.result.Err? ==> r.entries == entries
  {
    match Drain(services, InitialState, CvStart(jobUrl, jobDescription, language))
    case Paused(st, latex) =>
      Reply(Ok(Response("review_needed", freshId, latex)), entries[Key(freshId) := Saved(st)])
    case Stopped(_, _, _) => Reply(Err(WorkFlowError("CV Workflow did not ask for review.")), entries)
    case Failed(_, e) => Reply(Err(e), entries)
  }

  /** `continue_cv_workflow`: fails with a storage error, touching nothing,
      when the key is missing or empty. Otherwise it restores the state,
      injects the review answer and runs on. A stop deletes the key and
      reports completion. A new review request overwrites the same key. A
      raised exception leaves the store as it was. */
  function ContinueReply(services: Services, entries: map<string, StoredValue>,
                         workflowId: string, approve: bool, feedback: Option<string>): (r: Reply)
    ensures Key(workflowId) !in entries || entries[Key(workflowId)] == EmptyValue
      ==> r == Reply(Err(StorageError("No workflow found with ID: " + workflowId)), entries)
    ensures r.result.Ok? ==> r.result.value.workflowId == workflowId
    ensures r.result.Ok? && r.result.value.status == "completed" ==> r.entries == entries - {Key(workflowId)}
    ensures r.result.Ok? && r.result.value.status == "review_needed"
      ==> (r.entries.Keys == entries.Keys && r.entries[Key(workflowId)].Saved?
           && forall k :: k in entries && k != Key(workflowId) ==> r.entries[k] == entries[k])
    ensures r.result.Err? ==> r.entries == entries
  {
    var key := Key(workflowId);
    if key !in entries || entries[key] == EmptyValue then
      Reply(Err(StorageError("No workflow found with ID: " + workflowId)), entries)
    else
      match Drain(services, entries[key].state, CvReviewResponse(approve, feedback))
      case Stopped(_, _, latex) => Reply(Ok(Response("completed", workflowId, latex)), entries - {key})
      case Paused(st, latex) => Reply(Ok(Response("review_needed", workflowId, latex)), entries[key := Saved(st)])
      case Failed(_, e) => Reply(Err(e), entries)
  }

  /** The detail of the 400 answer to an unsupported language. */
  function UnsupportedDetail(language: string): string
  {
    "Unsupported language '" + language + "'. Supported languages: " + Join(SupportedCodes, ", ")
  }

  /** `validate_language`: a supported code is returned as it is, anything
      else is refused with status 400. */
  function ValidateLanguage(language: string): (r: Result<string>)
    ensures r.Ok? <==> language in SupportedLanguages
    ensures r.Ok? ==> r.value == language
    ensures r.Err? ==> r.error == HTTPException(400, UnsupportedDetail(language))
  {
    if language !in SupportedLanguages then Err(HTTPException(400, UnsupportedDetail(language)))
    else Ok(language)
  }

  /** `run_cv_from_description` (a job description, no URL) and
      `run_cv_from_url` (a URL, no description). The language check's
      refusal is passed on as it is. Any exception from the workflow becomes
      status 500. */
  function StartHandlerReply(services: Services, entries: map<string, StoredValue>,
                             jobUrl: Option<string>, jobDescription: Option<string>, language: string,
                             freshId: string): (r: Reply)
    ensures language !in SupportedLanguages ==> r == Reply(Err(HTTPException(400, UnsupportedDetail(language))), entries)
    ensures language in SupportedLanguages ==>
      var started := StartReply(services, entries, jobUrl, jobDescription, language, freshId);
      r.entries == started.entries
      && (started.result.Ok? ==> r.result == started.result)
      && (started.result.Err? ==> r.result == Err(HTTPException(500, "CV generation failed: " + Message(started.result.error))))
  {
    match ValidateLanguage(language)
    case Err(e) => Reply(Err(e), entries)
    case Ok(validated) =>
      var started := StartReply(services, entries, jobUrl, jobDescription, validated, freshId);
      if started.result.Ok? then started
      else Reply(Err(HTTPException(500, "CV generation failed: " + Message(started.result.error))), started.entries)
  }

  /** `continue_from_id`: every exception becomes status 500. */
  function ContinueHandlerReply(services: Services, entries: map<string, StoredValue>,
                                workflowId: string, approve: bool, feedback: Option<string>): (r: Reply)
    ensures var continued := ContinueReply(services, entries, workflowId, approve, feedback);
      r.entries == continued.entries
      && (continued.result.Ok? ==> r.result == continued.result)
      && (continued.result.Err? ==>
            r.result == Err(HTTPException(500, "CV workflow continuation failed: " + Message(continued.result.error))))
  {
    var continued := ContinueReply(services, entries, workflowId, approve, feedback);
    if continued.result.Ok? then continued
    else Reply(Err(HTTPException(500, "CV workflow continuation failed: " + Message(continued.result.error))), continued.entries)
  }

  // Properties of the session protocol.

  /** The codes named in the refusal are exactly the supported ones. */
  lemma SupportedCodesAreKeys()
    ensures forall c :: c in SupportedCodes <==> c in SupportedLanguages
  {
  }

  /** Starting and continuing keep the store free of saved résumés. */
  lemma StartKeepsNoSavedResume(services: Services, entries: map<string, StoredValue>,
                                jobUrl: Option<string>, jobDescription: Option<string>, language: string,
                                freshId: string)
    requires NoSavedResume(entries)
    ensures NoSavedResume(StartReply(services, entries, jobUrl, jobDescription, language, freshId).entries)
  {
    StartedRunHasNoResume(services, jobUrl, jobDescription, language);
  }

  lemma ContinueKeepsNoSavedResume(services: Services, entries: map<string, StoredValue>,
                                   workflowId: string, approve: bool, feedback: Option<string>)
    requires NoSavedResume(entries)
    ensures NoSavedResume(ContinueReply(services, entries, workflowId, approve, feedback).entries)
  {
    var key := Key(workflowId);
    if key in entries && entries[key] != EmptyValue {
      DrainKeepsResume(services, entries[key].state, CvReviewResponse(approve, feedback));
    }
  }

  /** In a store that holds only states saved by this code, approving never
      completes: either nothing is stored under the id, or `stop` finds no
      résumé and raises. The stored state stays in place. */
  lemma ApproveNeverCompletes(services: Services, entries: map<string, StoredValue>,
                              workflowId: string, feedback: Option<string>)
    requires NoSavedResume(entries)
    ensures var r := ContinueReply(services, entries, workflowId, true, feedback);
      r.entries == entries
      && (r.result == Err(StorageError("No workflow found with ID: " + workflowId))
          || r.result == Err(ValueError("Resume or LaTeX content is missing.")))
  {
    var key := Key(workflowId);
    if key in entries && entries[key] != EmptyValue {
      ApproveFailsWithoutResume(services, entries[key].state, feedback);
    }
  }

  /** A rejection that leads to a new review overwrites the state under the
      same id and mints no new one: the set of keys is unchanged. */
  lemma RejectKeepsSession(services: Services, entries: map<string, StoredValue>,
                           workflowId: string, feedback: Option<string>)
    requires Key(workflowId) in entries && entries[Key(workflowId)].Saved?
    ensures var st := entries[Key(workflowId)].state;
      var r := ContinueReply(services, entries, workflowId, false, feedback);
      match Drain(services, st.(feedback := feedback), GenerateResume)
      case Paused(st', latex) =>
        r == Reply(Ok(Response("review_needed", workflowId, latex)), entries[Key(workflowId) := Saved(st')])
        && r.entries.Keys == entries.Keys
      case Failed(_, e) => r == Reply(Err(e), entries)
      case Stopped(_, _, _) => false
  {
    var st := entries[Key(workflowId)].state;
    RejectRegenerates(services, st, feedback);
    var o := Drain(services, st.(feedback := feedback), GenerateResume);
    assert !o.Stopped? by {
      NoStopAfterGenerate(services, st.(feedback := feedback));
    }
  }

  /** A résumé generation ends in a review request or a failure, never in a
      stop. */
  lemma NoStopAfterGenerate(services: Services, st: State)
    ensures !Drain(services, st, GenerateResume).Stopped?
  {
    var r := Step(services, st, GenerateResume);
    if r.Emit? {
      assert r.event.GeneratePdf?;
      var r2 := Step(services, r.state, r.event);
      if r2.Emit? {
        assert r2.event.AskForCvReview?;
      }
    }
  }

  /** A started session is saved under the fresh id and shown with the
      LaTeX text that was saved with it. */
  lemma StartSavesShownLatex(services: Services, entries: map<string, StoredValue>,
                             jobUrl: Option<string>, jobDescription: Option<string>, language: string,
                             freshId: string)
    ensures var r := StartReply(services, entries, jobUrl, jobDescription, language, freshId);
      r.result.Ok? ==> (Key(freshId) in r.entries && r.entries[Key(freshId)].Saved?
                        && r.entries[Key(freshId)].state.latexContent == r.result.value.latexContent)
  {
    PausedWithRecordedLatex(services, InitialState, CvStart(jobUrl, jobDescription, language));
  }

  /** The key-value store the workflow contexts are parked in. */
  class SessionStore {
    var entries: map<string, StoredValue>

    constructor()
      ensures entries == map[]
    {
      entries := map[];
    }

    method Get(key: string) returns (value: Option<StoredValue>)
      ensures key in entries <==> value.Some?
      ensures value.Some? ==> value.value == entries[key]
    {
      if key in entries {
        value := Some(entries[key]);
      } else {
        value := None;
      }
    }

    method Set(key: string, value: StoredValue)
      modifies this
      ensures entries == old(entries)[key := value]
    {
      entries := entries[key := value];
    }

    method Delete(key: string)
      modifies this
      ensures entries == old(entries) - {key}
    {
      entries := entries - {key};
    }
  }

  /** `start_cv_workflow`, on a store. */
  method StartCvWorkflow(store: SessionStore, services: Services,
                         jobUrl: Option<string>, jobDescription: Option<string>, language: string,
                         freshId: string) returns (result: Result<Response>)
    modifies store
    ensures Reply(result, store.entries)
      == StartReply(services, old(store.entries), jobUrl, jobDescription, language, freshId)
  {
    var workflow := new CVWorkflow(services);
    var outcome := workflow.Run(CvStart(jobUrl, jobDescription, language));
    match outcome
    case Paused(st, latex) =>
      store.Set(Key(freshId), Saved(st));
      result := Ok(Response("review_needed", freshId, latex));
    case Stopped(_, _, _) =>
      result := Err(WorkFlowError("CV Workflow did not ask for review."));
    case Failed(_, e) =>
      result := Err(e);
  }

  /** `continue_cv_workflow`, on a store. */
  method ContinueCvWorkflow(store: SessionStore, services: Services,
                            workflowId: string, approve: bool, feedback: Option<string>)
    returns (result: Result<Response>)
    modifies store
    ensures Reply(result, store.entries)
      == ContinueReply(services, old(store.entries), workflowId, approve, feedback)
  {
    var saved := store.Get(Key(workflowId));
    if saved.None? || saved.value == EmptyValue {
      return Err(StorageError("No workflow found with ID: " + workflowId));
    }
    var workflow := new CVWorkflow(services);
    workflow.state := saved.value.state;
    var outcome := workflow.Run(CvReviewResponse(approve, feedback));
    match outcome
    case Stopped(_, _, latex) =>
      store.Delete(Key(workflowId));
      result := Ok(Response("completed", workflowId, latex));
    case Paused(st, latex) =>
      store.Set(Key(workflowId), Saved(st));
      result := Ok(Response("review_needed", workflowId, latex));
    case Failed(_, e) =>
      result := Err(e);
  }
}
