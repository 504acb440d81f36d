/** The resumable CV workflow (app/services/workflow/__init__.py and its
    state record, app/services/workflow/context.py).

    Each step reads the shared state, may update some of its fields, and
    hands over to the next step by emitting an event. Each step is given
    twice: as a pure function from the old state to the new state and the
    next event (or the exception it raises), and as a method of `CVWorkflow`
    that updates the `state` field. `Drain` runs the steps one after another
    until the workflow asks for a review, stops or fails. `CVWorkflow.Run`
    does the same with the step methods, and is proved equal to `Drain`.

    The language model, the retrieval queries, the page scraper and the PDF
    compiler are foreign services. They appear as the fields of `Services`,
    and nothing is assumed about what they return. */
module CvWorkflow {
  import opened Common
  import opened ResumeModels
  import AppLatex

  /** The workflow state record and its defaults. `feedback` is optional:
      it is declared as text, but a rejection without feedback stores None
      in it. */
  datatype State = State(
    language: string,
    jobDescription: string,
    candidateInfo: Option<CandidateInfo>,
    feedback: Option<string>,
    resume: Option<Resume>,
    latexContent: string)

  const InitialState: State := State(
    "en", "No Job Description Provided", None, Some("No Feedback Provided"), None, "")

  /** Languages the service accepts, with the name given to the language
      model; `SupportedCodes` lists the keys in the order the table is
      written. */
  const SupportedLanguages: map<string, string> := map["en" := "English", "pt" := "Portuguese (Brazilian)"]
  const SupportedCodes: seq<string> := ["en", "pt"]

  /** Scraped page text beyond this many characters is cut off. */
  const ScrapingLimit: nat := 15000

  /** The events the steps exchange. */
  datatype Event =
    | CvStart(jobUrl: Option<string>, jobDescription: Option<string>, language: string)
    | ExtractJobDescription(url: string)
    | AskForCandidateInfo
    | GenerateResume
    | GeneratePdf(resume: Resume)
    | AskForCvReview(latexContent: string)
    | CvReviewResponse(approve: bool, feedback: Option<string>)
    | FinishWorkflow
    | CvStop(resume: Resume, latexContent: string)

  /** What the scraper returns: the page text and title, each possibly
      missing. */
  datatype Page = Page(text: Option<string>, pageTitle: Option<string>)

  /** The six retrieval questions asked about the candidate. Three of them
      embed the job description. */
  datatype Query =
    | PersonalInfoQuery
    | SkillsQuery(jobDescription: string)
    | ExperiencesQuery(jobDescription: string)
    | EducationQuery
    | CertificationsQuery
    | ProjectsQuery(jobDescription: string)

  /** The prompt that extracts a job description from a scraped page. */
  datatype JobPrompt = JobExtractionPrompt(pageTitle: string, pageText: string)

  /** The résumé-creation prompt. When there is feedback it is wrapped with
      the feedback and the previous résumé. */
  datatype Prompt =
    | ResumePrompt(language: string, candidate: CandidateInfo, jobDescription: string)
    | FeedbackPrompt(base: Prompt, feedback: string, previousResume: Option<Resume>)

  /** The foreign services the steps call. */
  datatype Services = Services(
    scrape: string -> Result<Page>,
    complete: JobPrompt -> string,
    answer: Query -> string,
    structured: Prompt -> Option<Resume>,
    compiles: AppLatex.Document -> bool,
    dumps: AppLatex.Document -> string)

  /** The outcome of one step: the state after it, and either the event it
      emits or the exception it raises. */
  datatype StepResult = Emit(state: State, event: Event) | Raise(state: State, error: Error)

  /** Where a run of the workflow ends: paused for a review (with the LaTeX
      to review), stopped with the final résumé, or failed. */
  datatype Outcome =
    | Paused(state: State, latexContent: string)
    | Stopped(state: State, resume: Resume, latexContent: string)
    | Failed(state: State, error: Error)

  /** The events some step consumes. The review request waits for a person,
      and the stop event ends the run. */
  predicate Consumed(e: Event)
  {
    !e.AskForCvReview? && !e.CvStop?
  }

  /** How far an event is from the next pause or stop. Every step lowers
      it, so a run without a person's answer always ends. */
  function Rank(e: Event): nat
  {
    match e
    case CvStart(_, _, _) => 6
    case ExtractJobDescription(_) => 5
    case AskForCandidateInfo => 4
    case CvReviewResponse(_, _) => 4
    case GenerateResume => 3
    case GeneratePdf(_) => 2
    case FinishWorkflow => 1
    case AskForCvReview(_) => 0
    case CvStop(_, _) => 0
  }

  /** The first `limit` characters of a text, or the whole text when it is
      shorter. */
  function Truncate(text: string, limit: nat): (r: string)
    ensures |r| == if |text| <= limit then |text| else limit
    ensures r == text[..|r|]
    ensures r == text <==> |text| <= limit
  {
    if |text| > limit then text[..limit] else text
  }

  /** The language named in the prompt, with English for an unknown code. */
  function LanguageInstruction(code: string): (r: string)
    ensures code in SupportedLanguages ==> r == SupportedLanguages[code]
    ensures code !in SupportedLanguages ==> r == "English"
  {
    if code in SupportedLanguages then SupportedLanguages[code] else "English"
  }

  /** The prompt the résumé is asked for with. It is wrapped with the
      feedback exactly when the stored feedback is non-empty text. */
  function ResumePromptFor(st: State): (r: Prompt)
    requires st.candidateInfo.Some?
    ensures r.FeedbackPrompt? <==> Truthy(st.feedback)
    ensures var base := ResumePrompt(LanguageInstruction(st.language), st.candidateInfo.value, st.jobDescription);
      if r.FeedbackPrompt?
      then r.base == base && r.feedback == st.feedback.value && r.previousResume == st.resume
      else r == base
  {
    var base := ResumePrompt(LanguageInstruction(st.language), st.candidateInfo.value, st.jobDescription);
    if Truthy(st.feedback) then FeedbackPrompt(base, st.feedback.value, st.resume) else base
  }

  // The steps, as functions of the state.

  /** `start`: records the language, then goes to extraction when a job URL
      is given, else records a given job description, else fails. */
  function StartStep(st: State, jobUrl: Option<string>, jobDescription: Option<string>, language: string): (r: StepResult)
    ensures r.state.language == language
    ensures r.Emit? <==> Truthy(jobUrl) || Truthy(jobDescription)
    ensures Truthy(jobUrl) ==> r == Emit(st.(language := language), ExtractJobDescription(jobUrl.value))
    ensures !Truthy(jobUrl) && Truthy(jobDescription)
      ==> r == Emit(st.(language := language, jobDescription := jobDescription.value), AskForCandidateInfo)
    ensures r.Raise? ==> r == Raise(st.(language := language), ValueError("Either job_url or job_description must be provided."))
  {
    var st1 := st.(language := language);
    if Truthy(jobUrl) then Emit(st1, ExtractJobDescription(jobUrl.value))
    else if Truthy(jobDescription) then Emit(st1.(jobDescription := jobDescription.value), AskForCandidateInfo)
    else Raise(st1, ValueError("Either job_url or job_description must be provided."))
  }

  /** `extract_job_description`: scrapes the page. It then asks the language
      model for the job description, giving it the page title and at most
      `ScrapingLimit` characters of text, and records the answer. */
  function ExtractJobDescriptionStep(services: Services, st: State, jobUrl: string): (r: StepResult)
    ensures services.scrape(jobUrl).Err? <==> r.Raise?
    ensures r.Raise? ==> r == Raise(st, services.scrape(jobUrl).error)
    ensures r.Emit? ==>
      var page := services.scrape(jobUrl).value;
      var prompt := JobExtractionPrompt(OrEmpty(page.pageTitle), Truncate(OrEmpty(page.text), ScrapingLimit));
      r == Emit(st.(jobDescription := services.complete(prompt)), AskForCandidateInfo)
  {
    match services.scrape(jobUrl)
    case Err(e) => Raise(st, e)
    case Ok(page) =>
      var text := Truncate(OrEmpty(page.text), ScrapingLimit);
      var description := services.complete(JobExtractionPrompt(OrEmpty(page.pageTitle), text));
      Emit(st.(jobDescription := description), AskForCandidateInfo)
  }

  /** `ask_for_candidate_info`: asks the six retrieval questions and records
      the answers as the candidate information. */
  function AskForCandidateInfoStep(services: Services, st: State): (r: StepResult)
    ensures r.Emit? && r.event == GenerateResume
    ensures r.state == st.(candidateInfo := r.state.candidateInfo) && r.state.candidateInfo.Some?
    ensures var info := r.state.candidateInfo.value;
      info.personalInfo == services.answer(PersonalInfoQuery)
      && info.skills == services.answer(SkillsQuery(st.jobDescription))
      && info.experiences == services.answer(ExperiencesQuery(st.jobDescription))
      && info.education == services.answer(EducationQuery)
      && info.certifications == services.answer(CertificationsQuery)
      && info.personalProjects == services.answer(ProjectsQuery(st.jobDescription))
  {
    var jd := st.jobDescription;
    var info := CandidateInfo(
      services.answer(PersonalInfoQuery),
      services.answer(SkillsQuery(jd)),
      services.answer(ExperiencesQuery(jd)),
      services.answer(EducationQuery),
      services.answer(CertificationsQuery),
      services.answer(ProjectsQuery(jd)));
    Emit(st.(candidateInfo := Some(info)), GenerateResume)
  }

  /** `generate_resume`: fails without candidate information. Otherwise it
      asks the language model for a structured résumé and hands it on to PDF
      generation, and fails when the model gives none. The state is not
      changed: the résumé is not recorded. */
  function GenerateResumeStep(services: Services, st: State): (r: StepResult)
    ensures r.state == st
    ensures st.candidateInfo.None? ==> r == Raise(st, ValueError("Candidate information is missing."))
    ensures st.candidateInfo.Some? ==>
      match services.structured(ResumePromptFor(st))
      case None => r == Raise(st, ValueError("Failed to generate resume data from LLM response"))
      case Some(resume) => r == Emit(st, GeneratePdf(resume))
  {
    if st.candidateInfo.None? then Raise(st, ValueError("Candidate information is missing."))
    else
      match services.structured(ResumePromptFor(st))
      case None => Raise(st, ValueError("Failed to generate resume data from LLM response"))
      case Some(resume) => Emit(st, GeneratePdf(resume))
  }

  /** `generate_pdf`: renders the résumé in the stored language and compiles
      it. It then records the LaTeX text of the rendered document and asks for
      a review of that same text. A failed compilation raises. */
  function GeneratePdfStep(services: Services, st: State, resume: Resume): (r: StepResult)
    ensures var doc := AppLatex.Rendered(st.language, resume);
      if services.compiles(doc)
      then r == Emit(st.(latexContent := services.dumps(doc)), AskForCvReview(services.dumps(doc)))
      else r == Raise(st, RuntimeError)
  {
    var doc := AppLatex.Rendered(st.language, resume);
    if !services.compiles(doc) then Raise(st, RuntimeError)
    else
      var latex := services.dumps(doc);
      Emit(st.(latexContent := latex), AskForCvReview(latex))
  }

  /** `analyze_review_answer`: an approval finishes the workflow with the
      state unchanged. A rejection records the feedback and generates the
      résumé again. */
  function AnalyzeReviewAnswerStep(st: State, approve: bool, feedback: Option<string>): (r: StepResult)
    ensures r.Emit?
    ensures approve ==> r == Emit(st, FinishWorkflow)
    ensures !approve ==> r == Emit(st.(feedback := feedback), GenerateResume)
  {
    if approve then Emit(st, FinishWorkflow) else Emit(st.(feedback := feedback), GenerateResume)
  }

  /** `stop`: ends the run with the recorded résumé and LaTeX text, and fails
      when either is missing. */
  function StopStep(st: State): (r: StepResult)
    ensures r.state == st
    ensures r.Emit? <==> st.resume.Some? && st.latexContent != ""
    ensures r.Emit? ==> r.event == CvStop(st.resume.value, st.latexContent)
    ensures r.Raise? ==> r.error == ValueError("Resume or LaTeX content is missing.")
  {
    if st.resume.None? || st.latexContent == "" then Raise(st, ValueError("Resume or LaTeX content is missing."))
    else Emit(st, CvStop(st.resume.value, st.latexContent))
  }

  /** The step that consumes an event. No step writes the résumé. Only the
      review answer writes the feedback. Every emitted event is closer to a
      pause or a stop. A review request carries the LaTeX text that has just
      been recorded. */
  function Step(services: Services, st: State, e: Event): (r: StepResult)
    requires Consumed(e)
    ensures r.state.resume == st.resume
    ensures !e.CvReviewResponse? ==> r.state.feedback == st.feedback
    ensures r.Emit? ==> Rank(r.event) < Rank(e)
    ensures r.Emit? && r.event.AskForCvReview? ==>
      e.GeneratePdf? && r.state.latexContent == r.event.latexContent
      && r.event.latexContent == services.dumps(AppLatex.Rendered(st.language, e.resume))
  {
    match e
    case CvStart(jobUrl, jobDescription, language) => StartStep(st, jobUrl, jobDescription, language)
    case ExtractJobDescription(jobUrl) => ExtractJobDescriptionStep(services, st, jobUrl)
    case AskForCandidateInfo => AskForCandidateInfoStep(services, st)
    case GenerateResume => GenerateResumeStep(services, st)
    case GeneratePdf(resume) => GeneratePdfStep(services, st, resume)
    case CvReviewResponse(approve, feedback) => AnalyzeReviewAnswerStep(st, approve, feedback)
    case FinishWorkflow => StopStep(st)
  }

  /** Runs the steps from an event until the workflow asks for a review,
      stops, or a step raises. */
  function Drain(services: Services, st: State, e: Event): Outcome
    decreases Rank(e)
  {
    if e.AskForCvReview? then Paused(st, e.latexContent)
    else if e.CvStop? then Stopped(st, e.resume, e.latexContent)
    else
      match Step(services, st, e)
      case Raise(st', error) => Failed(st', error)
      case Emit(st', next) => Drain(services, st', next)
  }

  // Properties of a run.

  /** No run writes the résumé into the state. */
  lemma {:induction false} DrainKeepsResume(services: Services, st: State, e: Event)
    ensures Drain(services, st, e).state.resume == st.resume
    decreases Rank(e)
  {
    if Consumed(e) {
      var r := Step(services, st, e);
      if r.Emit? {
        DrainKeepsResume(services, r.state, r.event);
      }
    }
  }

  /** A run that pauses for review pauses with the LaTeX text it has
      recorded in the state, so the text shown to the reviewer is the text
      that is saved. */
  lemma {:induction false} PausedWithRecordedLatex(services: Services, st: State, e: Event)
    requires Consumed(e)
    ensures var o := Drain(services, st, e); o.Paused? ==> o.state.latexContent == o.latexContent
    decreases Rank(e)
  {
    var r := Step(services, st, e);
    if r.Emit? && Consumed(r.event) {
      PausedWithRecordedLatex(services, r.state, r.event);
    }
  }

  /** Approving without a recorded résumé fails in `stop`, and the state is
      not changed. */
  lemma ApproveFailsWithoutResume(services: Services, st: State, feedback: Option<string>)
    requires st.resume.None?
    ensures Drain(services, st, CvReviewResponse(true, feedback))
      == Failed(st, ValueError("Resume or LaTeX content is missing."))
  {
    var r := Step(services, st, CvReviewResponse(true, feedback));
    assert r == Emit(st, FinishWorkflow);
    assert Drain(services, st, FinishWorkflow) == Failed(st, ValueError("Resume or LaTeX content is missing."));
  }

  /** No run that starts from the initial state ever records a résumé. So a
      review answered with an approval always fails. */
  lemma StartedRunHasNoResume(services: Services, jobUrl: Option<string>, jobDescription: Option<string>, language: string)
    ensures Drain(services, InitialState, CvStart(jobUrl, jobDescription, language)).state.resume.None?
  {
    DrainKeepsResume(services, InitialState, CvStart(jobUrl, jobDescription, language));
  }

  /** A rejection is a new résumé generation with the given feedback
      recorded. */
  lemma RejectRegenerates(services: Services, st: State, feedback: Option<string>)
    ensures Drain(services, st, CvReviewResponse(false, feedback))
      == Drain(services, st.(feedback := feedback), GenerateResume)
  {
    var r := Step(services, st, CvReviewResponse(false, feedback));
    assert r == Emit(st.(feedback := feedback), GenerateResume);
  }

  /** Until a review answer arrives, the feedback keeps its default. The
      default is non-empty text, so even the first résumé is asked for with
      the feedback prompt. */
  lemma FirstPassUsesFeedbackPrompt(st: State)
    requires st.feedback == InitialState.feedback && st.candidateInfo.Some?
    ensures ResumePromptFor(st).FeedbackPrompt?
    ensures ResumePromptFor(st).feedback == "No Feedback Provided"
  {
  }

  /** A start with a job description pauses for review with the rendering of
      the résumé the language model returns. This assumes the job URL is
      absent and that the model and the compiler succeed. The language
      instruction and the rendering use the requested language. */
  lemma StartFromDescriptionPauses(services: Services, jobDescription: string, language: string)
    requires jobDescription != ""
    requires var st := InitialState.(language := language, jobDescription := jobDescription);
      var info := AskForCandidateInfoStep(services, st).state;
      services.structured(ResumePromptFor(info)).Some?
      && services.compiles(AppLatex.Rendered(language, services.structured(ResumePromptFor(info)).value))
    ensures var st := InitialState.(language := language, jobDescription := jobDescription);
      var info := AskForCandidateInfoStep(services, st).state;
      var resume := services.structured(ResumePromptFor(info)).value;
      var latex := services.dumps(AppLatex.Rendered(language, resume));
      Drain(services, InitialState, CvStart(None, Some(jobDescription), language))
        == Paused(info.(latexContent := latex), latex)
  {
    var st := InitialState.(language := language, jobDescription := jobDescription);
    var info := AskForCandidateInfoStep(services, st).state;
    var resume := services.structured(ResumePromptFor(info)).value;
    var latex := services.dumps(AppLatex.Rendered(language, resume));
    assert Drain(services, InitialState, CvStart(None, Some(jobDescription), language))
      == Drain(services, st, AskForCandidateInfo);
    assert Drain(services, st, AskForCandidateInfo) == Drain(services, info, GenerateResume);
    assert info.language == language;
    assert Drain(services, info, GenerateResume) == Drain(services, info, GeneratePdf(resume));
    assert Drain(services, info, GeneratePdf(resume))
      == Drain(services, info.(latexContent := latex), AskForCvReview(latex));
  }

  /** Packs a step method's outcome the way the step functions give it. */
  function Packed(st: State, next: Result<Event>): StepResult
  {
    if next.Ok? then Emit(st, next.value) else Raise(st, next.error)
  }

  /** The workflow: the services it calls and the state its steps share. */
  class CVWorkflow {
    const services: Services
    var state: State

    constructor(services: Services)
      ensures this.services == services && state == InitialState
    {
      this.services := services;
      state := InitialState;
    }

    method Start(jobUrl: Option<string>, jobDescription: Option<string>, language: string) returns (next: Result<Event>)
      modifies this
      ensures Packed(state, next) == StartStep(old(state), jobUrl, jobDescription, language)
    {
      state := state.(language := language);
      if Truthy(jobUrl) {
        next := Ok(ExtractJobDescription(jobUrl.value));
      } else if Truthy(jobDescription) {
        state := state.(jobDescription := jobDescription.value);
        next := Ok(AskForCandidateInfo);
      } else {
        next := Err(ValueError("Either job_url or job_description must be provided."));
      }
    }

    method ExtractJobDescriptionFrom(jobUrl: string) returns (next: Result<Event>)
      modifies this
      ensures Packed(state, next) == ExtractJobDescriptionStep(services, old(state), jobUrl)
    {
      var scraped := services.scrape(jobUrl);
      if scraped.Err? {
        return Err(scraped.error);
      }
      var pageText := OrEmpty(scraped.value.text);
      var pageTitle := OrEmpty(scraped.value.pageTitle);
      if |pageText| > ScrapingLimit {
        pageText := pageText[..ScrapingLimit];
      }
      var description := services.complete(JobExtractionPrompt(pageTitle, pageText));
      state := state.(jobDescription := description);
      next := Ok(AskForCandidateInfo);
    }

    method AskForCandidateInfoFrom() returns (next: Result<Event>)
      modifies this
      ensures Packed(state, next) == AskForCandidateInfoStep(services, old(state))
    {
      var jobDescription := state.jobDescription;
      var personalInfo := services.answer(PersonalInfoQuery);
      var skills := services.answer(SkillsQuery(jobDescription));
      var experiences := services.answer(ExperiencesQuery(jobDescription));
      var education := services.answer(EducationQuery);
      var certifications := services.answer(CertificationsQuery);
      var personalProjects := services.answer(ProjectsQuery(jobDescription));
      var info := CandidateInfo(personalInfo, skills, experiences, education, certifications, personalProjects);
      state := state.(candidateInfo := Some(info));
      next := Ok(GenerateResume);
    }

    method GenerateResumeFrom() returns (next: Result<Event>)
      modifies this
      ensures Packed(state, next) == GenerateResumeStep(services, old(state))
    {
      if state.candidateInfo.None? {
        return Err(ValueError("Candidate information is missing."));
      }
      var prompt := ResumePrompt(LanguageInstruction(state.language), state.candidateInfo.value, state.jobDescription);
      if Truthy(state.feedback) {
        prompt := FeedbackPrompt(prompt, state.feedback.value, state.resume);
      }
      var response := services.structured(prompt);
      if response.None? {
        return Err(ValueError("Failed to generate resume data from LLM response"));
      }
      next := Ok(GeneratePdf(response.value));
    }

    method GeneratePdfFrom(resume: Resume) returns (next: Result<Event>)
      modifies this
      ensures Packed(state, next) == GeneratePdfStep(services, old(state), resume)
    {
      var generator := new AppLatex.LaTeXGenerator(state.language);
      var doc := generator.GenerateLatexDoc(resume);
      if !services.compiles(doc) {
        return Err(RuntimeError);
      }
      var latex := services.dumps(generator.Current());
      state := state.(latexContent := latex);
      next := Ok(AskForCvReview(latex));
    }

    method AnalyzeReviewAnswer(approve: bool, feedback: Option<string>) returns (next: Result<Event>)
      modifies this
      ensures Packed(state, next) == AnalyzeReviewAnswerStep(old(state), approve, feedback)
    {
      if approve {
        next := Ok(FinishWorkflow);
      } else {
        state := state.(feedback := feedback);
        next := Ok(GenerateResume);
      }
    }

    method Stop() returns (next: Result<Event>)
      modifies this
      ensures Packed(state, next) == StopStep(old(state))
    {
      if state.resume.None? || state.latexContent == "" {
        return Err(ValueError("Resume or LaTeX content is missing."));
      }
      next := Ok(CvStop(state.resume.value, state.latexContent));
    }

    /** Hands an event to the step that consumes it. */
    method Dispatch(e: Event) returns (next: Result<Event>)
      requires Consumed(e)
      modifies this
      ensures Packed(state, next) == Step(services, old(state), e)
    {
      match e
      case CvStart(jobUrl, jobDescription, language) => next := Start(jobUrl, jobDescription, language);
      case ExtractJobDescription(jobUrl) => next := ExtractJobDescriptionFrom(jobUrl);
      case AskForCandidateInfo => next := AskForCandidateInfoFrom();
      case GenerateResume => next := GenerateResumeFrom();
      case GeneratePdf(resume) => next := GeneratePdfFrom(resume);
      case CvReviewResponse(approve, feedback) => next := AnalyzeReviewAnswer(approve, feedback);
      case FinishWorkflow => next := Stop();
    }

    /** Runs the workflow from an event, one step at a time, until it asks
      for a review, stops or fails. */
    method Run(event: Event) returns (outcome: Outcome)
      modifies this
      ensures outcome == Drain(services, old(state), event)
      ensures state == outcome.state
    {
      var current := event;
      while Consumed(current)
        invariant Drain(services, state, current) == Drain(services, old(state), event)
        decreases Rank(current)
      {
        var next := Dispatch(current);
        if next.Err? {
          return Failed(state, next.error);
        }
        current := next.value;
      }
      if current.AskForCvReview? {
        outcome := Paused(state, current.latexContent);
      } else {
        outcome := Stopped(state, current.resume, current.latexContent);
      }
    }
  }
}
