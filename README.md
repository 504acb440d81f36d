# CV maker: a verified model of the résumé workflow, the LaTeX renderers and the document index

This project models the core of the CV maker service in Dafny and proves properties of the model.

**The workflow** (`workflow.dfy`, module `CvWorkflow`). A resumable chain of steps turns a job posting and the candidate's indexed documents into a tailored résumé:

- `start` picks between a job URL and a job description.
- `extract_job_description` scrapes the posting, truncates it to 15000 characters and asks the language model for the description.
- `ask_for_candidate_info` asks six retrieval questions.
- `generate_resume` asks the language model for a structured résumé, with the reviewer's feedback when there is some.
- `generate_pdf` renders the résumé and records its LaTeX text.
- `analyze_review_answer` finishes or regenerates.
- `stop` ends the run.

Each step is a function from the old state to the new state and the next event, or the exception it raises. It is also a method of the `CVWorkflow` class that updates its `state` field. `CVWorkflow.Run` drives the methods in a loop and is proved equal to the function `Drain`.

**The endpoints** (`cv_api.dfy`, module `CvApi`):

- Starting a workflow runs it to its first review request.
- It then parks the state in a key-value store under `cv_workflow:<id>` and returns the LaTeX text to review.
- Continuing restores the state, injects the review answer, and either deletes the key on completion or overwrites it at the next review request.
- The handlers map exceptions to HTTP statuses.

**The two LaTeX renderers:**

- `app_latex.dfy` (module `AppLatex`): the application renderer, a class over a document whose sections are opened and closed around what their builders append.
- `src_latex.dfy` (module `SrcLatex`): the older renderer, which builds one string and shortens LinkedIn and GitHub URLs for display.
- `latex_escape.dfy` (module `LatexEscape`): their two `_escape_latex` functions. Each is a fold of single-character replacements over a table. The application's table replaces the backslash first; the older table replaces it last.

**The document index:**

- `doc_index.dfy` (module `DocumentIndex`):
  - groups the stored text chunks (nodes) into document records by document id;
  - looks up one document;
  - builds the record of an added document;
  - creates the collection and its payload indexes when the collection is missing.
- `file_index.dfy` (module `FileIndex`):
  - lists the file names already in the store, from the first 1000 points;
  - skips every input file whose name is already present;
  - fails with the directory reader's ValueError, leaving the store as it was, when no input is left or a kept path is not a file.

**Shared pieces:**

- `common.dfy`: Option and Result, the exceptions, Python truthiness, and `str.split` / `str.join`.
- `resume_models.dfy`: the extraction models.

What the renderers do, and what the model proves about it:

- **Application escaping of "^".** The application order escapes the braces that its own `\textasciicircum{}` inserts (`AppCaretBracesEscaped`).
- **Older escaping of "&".** The older order escapes the backslash that every other entry inserts, so "&" becomes `\textbackslash{}&` (`SrcAmpersandDoubleEscaped`).
- **GitHub URLs with a trailing "/".** The older renderer shows such a URL as `github.com/` alone (`GitHubTrailingSlashDropsUser`).
- **No résumé is ever recorded.** The workflow never writes the résumé into its state, so approving a review always fails in `stop` (`StartedRunHasNoResume`, `ApproveNeverCompletes`).
- **Re-uploading fails.** Giving only files whose names are already stored leaves the reader nothing to read, so the call ends in its ValueError instead of returning an empty list (`NothingNewFails`).
- **The location is always "Remote".** The older renderer shows the literal "Remote" after every company and institution (`ExperienceShowsRemote`, `EducationShowsRemote`).
- **The first résumé uses the feedback prompt.** The default feedback, "No Feedback Provided", is non-empty text, so even the first résumé is requested with the feedback prompt (`FirstPassUsesFeedbackPrompt`).

## Model

| member | source | states |
|---|---|---|
| Common.OrEmpty | app/services/workflow/__init__.py:66-67 | a missing page text or title reads as ""; a present one is kept; the result is non-empty exactly when the value is truthy |
| Common.DateRange | app/services/workflow/latex_generator.py:189-191 | the start date alone when the end date is falsy, otherwise start, " - " and end; the start always leads |
| Common.SplitJoin | src/cv_maker/latex_generator.py:113 | `split` loses and adds nothing: joining the pieces with the separator gives back the text |
| Common.SplitWithoutSep | src/cv_maker/latex_generator.py:121 | a text without the separator splits into itself alone |
| Common.SplitLastAfterSep | src/cv_maker/latex_generator.py:121 | with a one-character separator, the last piece is exactly what follows the last separator |
| Common.SplitWithoutSepIn | src/cv_maker/latex_generator.py:112 | a text in which a separator of any length never occurs splits into itself alone |
| Common.SplitLastAfterSepIn | src/cv_maker/latex_generator.py:112 | for a separator of any length, the last piece is exactly what follows a separator that no earlier occurrence runs into and that no later occurrence follows |
| LatexEscape.AppEscapeLatex | app/services/workflow/latex_generator.py:410-442 | the method's passes give `AppEscape`: "" for empty text, else the backslash pass followed by the dictionary passes in insertion order |
| LatexEscape.SrcEscapeLatex | src/cv_maker/latex_generator.py:219-250 | the method's passes give `SrcEscape`: "" for empty text, else the dictionary passes with the backslash last |
| LatexEscape.ApplyPassesAppend | app/services/workflow/latex_generator.py:439-440 | a replacement fold over a concatenation is the concatenation of the folds |
| LatexEscape.ApplyPassesCharwise | app/services/workflow/latex_generator.py:439-440 | the passes act on each character independently |
| LatexEscape.AppEscapeCharwise | app/services/workflow/latex_generator.py:420-442 | application escaping replaces every character by its image, independently; None and "" give "" |
| LatexEscape.SrcEscapeCharwise | src/cv_maker/latex_generator.py:229-250 | older escaping replaces every character by its image, independently |
| LatexEscape.ImageLengths | app/services/workflow/latex_generator.py:423-437 | every image is non-empty; it is longer than one character exactly for the ten special characters; other characters map to themselves |
| LatexEscape.AppEscapeIdentity | app/services/workflow/latex_generator.py:420-442 | a non-empty text is left unchanged exactly when it has no special character |
| LatexEscape.SrcEscapeIdentity | src/cv_maker/latex_generator.py:229-250 | a text is left unchanged exactly when it has no special character |
| LatexEscape.AppEscapeAppend | app/services/workflow/latex_generator.py:424-440 | escaping a concatenation escapes the parts separately |
| LatexEscape.SrcEscapeAppend | src/cv_maker/latex_generator.py:246-248 | escaping a concatenation escapes the parts separately |
| LatexEscape.AppEscapeJoin | app/services/workflow/latex_generator.py:221-223 | with a separator free of special characters, escaping the joined list is joining the escaped items |
| LatexEscape.SrcEscapeJoin | src/cv_maker/latex_generator.py:180-181 | the same for the older escaping |
| LatexEscape.AppCaretBracesEscaped | app/services/workflow/latex_generator.py:423-440 | "^" becomes `\textasciicircum\{\}`, not `\textasciicircum{}`: later brace passes escape the braces the caret entry inserts |
| LatexEscape.SrcAmpersandDoubleEscaped | src/cv_maker/latex_generator.py:233-248 | "&" becomes `\textbackslash{}&`, unlike the application's `\&`: the final backslash pass rewrites the inserted backslash |
| AppLatex.TextsFor | app/services/workflow/latex_generator.py:66 | the language's texts, or the English ones for a code without a table |
| AppLatex.UnknownLanguageRendersEnglish | app/services/workflow/latex_generator.py:62-103 | a language without a table gives the same packages and body as English |
| AppLatex.BabelBrazilianOnlyForPt | app/services/workflow/latex_generator.py:77-80 | the babel package gets the Brazilian option exactly for "pt" |
| AppLatex.LaTeXGenerator.constructor | app/services/workflow/latex_generator.py:62-103 | records the language and its texts and a page geometry with a 1cm margin; the document starts with the language's packages and the four set-up commands |
| AppLatex.LaTeXGenerator.GeneratePersonalInfo | app/services/workflow/latex_generator.py:141-172 | appends the centred header: escaped name and address, then the contact line |
| AppLatex.ContactLineEmailFirst | app/services/workflow/latex_generator.py:146-160 | the contact line starts with the e-mail link; there is one further entry for each of a non-empty phone, a LinkedIn value and a GitHub value |
| AppLatex.LaTeXGenerator.AppendItemize | app/services/workflow/latex_generator.py:206-209 | appends an itemize with one escaped `\item` line per text, in order |
| AppLatex.LaTeXGenerator.AppendExperienceEntry | app/services/workflow/latex_generator.py:187-210 | appends one position: sub-heading, title and dates line, bullets, spacing |
| AppLatex.LaTeXGenerator.GenerateExperience | app/services/workflow/latex_generator.py:174-210 | nothing without positions; otherwise one Experience section holding each position's entry in order |
| AppLatex.JoinEscaped | app/services/workflow/latex_generator.py:221-223 | the list comprehension of escaped skills joined by ", " |
| AppLatex.LaTeXGenerator.AppendSkillLine | app/services/workflow/latex_generator.py:219-228 | a category's line only when it has skills |
| AppLatex.SkillLineEscapesJoined | app/services/workflow/latex_generator.py:219-228 | escaping each skill and joining them is the same as escaping the joined list |
| AppLatex.LaTeXGenerator.GenerateSkills | app/services/workflow/latex_generator.py:212-247 | a Skills section, always present, holding an itemize with the technical, languages and soft-skills lines in that order |
| AppLatex.LaTeXGenerator.GenerateProfessionalSummary | app/services/workflow/latex_generator.py:249-259 | a summary section with the escaped text, when there is a summary |
| AppLatex.LaTeXGenerator.AppendCertificationEntry | app/services/workflow/latex_generator.py:270-294 | the escaped name and issuer, the dates, the credential line only with a credential id, and the Verify link only with both an id and a URL |
| AppLatex.LaTeXGenerator.GenerateCertifications | app/services/workflow/latex_generator.py:261-294 | nothing for None or an empty list; otherwise one section with each entry in order |
| AppLatex.LaTeXGenerator.AppendProjectEntry | app/services/workflow/latex_generator.py:305-331 | the title (linked only with a URL), the description, the technologies, and the highlights itemize only when there are highlights |
| AppLatex.LaTeXGenerator.GeneratePersonalProjects | app/services/workflow/latex_generator.py:296-331 | nothing for None or an empty list; otherwise one section with each project in order |
| AppLatex.LaTeXGenerator.GenerateEducation | app/services/workflow/latex_generator.py:333-354 | nothing without entries; otherwise one section with each entry in order |
| AppLatex.LaTeXGenerator.GenerateLatexDoc | app/services/workflow/latex_generator.py:105-139 | appends header, optional summary, experience, skills, optional certifications and projects, and education, and returns the whole document |
| AppLatex.ResumeSectionOrder | app/services/workflow/latex_generator.py:105-139 | the rendered sections, in order: summary if present, experience if any, skills always, certifications and projects if present and non-empty, education if any |
| AppLatex.HeaderTitles | app/services/workflow/latex_generator.py:141-172 | the header opens no section |
| AppLatex.SummaryTitles | app/services/workflow/latex_generator.py:253-257 | the summary part opens its section exactly when there is a summary |
| AppLatex.ExperienceTitles | app/services/workflow/latex_generator.py:182-186 | the experience part opens its section exactly when there are positions |
| AppLatex.SkillsTitles | app/services/workflow/latex_generator.py:216-217 | the skills part opens exactly its one section |
| AppLatex.CertificationTitles | app/services/workflow/latex_generator.py:265-269 | the certifications part opens its section exactly for a non-empty list |
| AppLatex.ProjectTitles | app/services/workflow/latex_generator.py:300-304 | the projects part opens its section exactly for a non-empty list |
| AppLatex.EducationTitles | app/services/workflow/latex_generator.py:337-341 | the education part opens its section exactly when there are entries |
| SrcLatex.RStrip | src/cv_maker/latex_generator.py:113 | `rstrip` removes exactly the trailing run of the character: the result is a prefix that does not end in it, and only that character is removed |
| SrcLatex.LinkedInDisplayShape | src/cv_maker/latex_generator.py:109-115 | a URL is shown under `linkedin.com/in/`, and what follows never ends in "/" |
| SrcLatex.LinkedInDisplayUser | src/cv_maker/latex_generator.py:111-113 | a URL ending in "/in/" and a user name, with or without a trailing "/", is shown as `linkedin.com/in/` followed by exactly that user name |
| SrcLatex.LinkedInRepeatedSeparator | src/cv_maker/latex_generator.py:112 | because the split does not overlap its matches, a URL ending in "/in/in/" and a user name is shown with "in/" in front of the user name |
| SrcLatex.GitHubDisplaySegment | src/cv_maker/latex_generator.py:117-123 | a URL is shown as `github.com/` followed by its last "/"-separated segment |
| SrcLatex.GitHubTrailingSlashDropsUser | src/cv_maker/latex_generator.py:120-122 | a URL ending in "/" is shown as `github.com/` alone |
| SrcLatex.NonUrlShownAsGiven | src/cv_maker/latex_generator.py:109-123 | values not starting with "http" are shown unchanged |
| SrcLatex.RemoteUnescaped | src/cv_maker/latex_generator.py:157 | escaping "Remote" gives "Remote" |
| SrcLatex.ExperienceShowsRemote | src/cv_maker/latex_generator.py:155-160 | for every position, the block opens with the escaped company followed by `\hfill Remote`, and the bookmark text is the escaped company followed by " -- Remote": the location is always the literal "Remote" |
| SrcLatex.EducationShowsRemote | src/cv_maker/latex_generator.py:203-208 | for every education entry, the same literal "Remote" after the escaped institution, with " (Education) -- Remote" as bookmark text |
| SrcLatex.AppendExperience | src/cv_maker/latex_generator.py:150-169 | one loop pass appends the position's head, one line per bullet and the itemize end |
| SrcLatex.BulletLinesAppend | src/cv_maker/latex_generator.py:166-167 | bullet lines are built bullet by bullet, so the lines of two runs are the lines of each |
| SrcLatex.GenerateExperience | src/cv_maker/latex_generator.py:139-171 | "" without positions; otherwise the heading and each position's block in order |
| SrcLatex.ExperienceBlocksPrefix | src/cv_maker/latex_generator.py:150-169 | the blocks of the first positions begin the whole section body: input order is kept |
| SrcLatex.SkillLineEscapesEach | src/cv_maker/latex_generator.py:179-189 | escaping the ", "-joined list equals joining the individually escaped skills |
| SrcLatex.GenerateEducation | src/cv_maker/latex_generator.py:194-213 | "" without entries; otherwise the heading and each entry's block in order |
| SrcLatex.EducationBlocksPrefix | src/cv_maker/latex_generator.py:203-211 | the education blocks keep input order |
| SrcLatex.Generate | src/cv_maker/latex_generator.py:12-32 | the document is header, personal information, experience, skills, education and footer, concatenated in that order |
| SrcLatex.GeneratedFrame | src/cv_maker/latex_generator.py:24-29 | whatever the résumé holds, the document opens with the preamble and ends with `\end{document}` and a newline |
| CvWorkflow.CVWorkflow.constructor | app/services/workflow/context.py:6-14 | a new workflow holds the default state: "en", the placeholder job description, no candidate, the placeholder feedback, no résumé, no LaTeX |
| CvWorkflow.StartStep | app/services/workflow/__init__.py:43-54 | always records the language; a truthy URL goes to extraction even when a description is also given; else a truthy description is recorded and candidate info is next; else ValueError |
| CvWorkflow.CVWorkflow.Start | app/services/workflow/__init__.py:43-54 | the method's state change and next event are those of `StartStep` |
| CvWorkflow.Truncate | app/services/workflow/__init__.py:74-78 | a text longer than the limit is cut to exactly its first `limit` characters; otherwise it is unchanged |
| CvWorkflow.ExtractJobDescriptionStep | app/services/workflow/__init__.py:56-89 | a scraper failure is raised with the state unchanged; otherwise the model's answer to the title and truncated text becomes the job description and candidate info is next |
| CvWorkflow.CVWorkflow.ExtractJobDescriptionFrom | app/services/workflow/__init__.py:56-89 | the method agrees with `ExtractJobDescriptionStep` |
| CvWorkflow.AskForCandidateInfoStep | app/services/workflow/__init__.py:91-163 | sets all six candidate fields from the six answers, three of them asked with the job description; changes no other field; résumé generation is next |
| CvWorkflow.CVWorkflow.AskForCandidateInfoFrom | app/services/workflow/__init__.py:91-163 | the method agrees with `AskForCandidateInfoStep` |
| CvWorkflow.LanguageInstruction | app/services/workflow/__init__.py:180 | the supported language's name, or "English" for an unknown code |
| CvWorkflow.ResumePromptFor | app/services/workflow/__init__.py:180-199 | the feedback-wrapped prompt, carrying the feedback and the stored résumé, is used exactly when the feedback is truthy |
| CvWorkflow.FirstPassUsesFeedbackPrompt | app/services/workflow/context.py:12 | with the default feedback the first résumé is already asked for with the feedback prompt |
| CvWorkflow.GenerateResumeStep | app/services/workflow/__init__.py:165-212 | ValueError without candidate info; ValueError when the model gives no résumé; otherwise PDF generation with that résumé; the state is never changed |
| CvWorkflow.CVWorkflow.GenerateResumeFrom | app/services/workflow/__init__.py:165-212 | the method agrees with `GenerateResumeStep` |
| CvWorkflow.GeneratePdfStep | app/services/workflow/__init__.py:214-238 | renders in the stored language; if compilation succeeds, records only the LaTeX text and asks for review with that same text; otherwise raises with the state unchanged |
| CvWorkflow.CVWorkflow.GeneratePdfFrom | app/services/workflow/__init__.py:214-238 | the method, using a new generator object, agrees with `GeneratePdfStep` |
| CvWorkflow.AnalyzeReviewAnswerStep | app/services/workflow/__init__.py:240-249 | approval finishes with the state unchanged; rejection records the feedback, even None, and regenerates |
| CvWorkflow.CVWorkflow.AnalyzeReviewAnswer | app/services/workflow/__init__.py:240-249 | the method agrees with `AnalyzeReviewAnswerStep` |
| CvWorkflow.StopStep | app/services/workflow/__init__.py:251-263 | stops with the recorded résumé and LaTeX text exactly when both are present; otherwise ValueError |
| CvWorkflow.CVWorkflow.Stop | app/services/workflow/__init__.py:251-263 | the method agrees with `StopStep` |
| CvWorkflow.Step | app/services/workflow/__init__.py:43-263 | no step writes the résumé; only the review answer writes the feedback; every emitted event is closer to a pause or stop; a review request comes from PDF generation and carries the LaTeX text just recorded |
| CvWorkflow.CVWorkflow.Dispatch | app/services/workflow/__init__.py:43-263 | each event goes to the step that consumes it, as in `Step` |
| CvWorkflow.CVWorkflow.Run | app/api/v1/cv.py:52-55 | running the step methods until a pause, stop or failure gives the outcome and state of `Drain` |
| CvWorkflow.DrainKeepsResume | app/services/workflow/__init__.py:211 | no run changes the stored résumé |
| CvWorkflow.StartedRunHasNoResume | app/services/workflow/__init__.py:211 | a run from the initial state never holds a résumé |
| CvWorkflow.PausedWithRecordedLatex | app/services/workflow/__init__.py:233-238 | a run that pauses pauses with the LaTeX text recorded in its state |
| CvWorkflow.ApproveFailsWithoutResume | app/services/workflow/__init__.py:244-259 | approving without a résumé fails with the missing-content ValueError and an unchanged state |
| CvWorkflow.RejectRegenerates | app/services/workflow/__init__.py:247-249 | a rejection is a résumé generation with the feedback recorded |
| CvWorkflow.StartFromDescriptionPauses | app/services/workflow/__init__.py:47-52 | given only a description, with the model and the compiler succeeding, a run pauses with the rendering of the model's résumé, in the requested language |
| CvApi.Key | app/api/v1/cv.py:62 | the key is "cv_workflow:" followed by the workflow id |
| CvApi.SessionStore.Get | app/api/v1/cv.py:95 | finds the stored value exactly when the key is present |
| CvApi.SessionStore.Set | app/api/v1/cv.py:61-63 | stores the value under the key, changing nothing else |
| CvApi.SessionStore.Delete | app/api/v1/cv.py:110 | removes exactly the key |
| CvApi.StartReply | app/api/v1/cv.py:27-70 | succeeds exactly when the run pauses; then saves the paused state under the fresh key and returns "review_needed" with the paused LaTeX; on failure the store is unchanged |
| CvApi.StartCvWorkflow | app/api/v1/cv.py:27-70 | the method's result and new store are those of `StartReply` |
| CvApi.StartSavesShownLatex | app/api/v1/cv.py:56-68 | the LaTeX returned for review is the LaTeX in the saved state |
| CvApi.ContinueReply | app/api/v1/cv.py:73-129 | a missing or empty key gives StorageError and touches nothing; completion deletes the key; a new review overwrites only that key; a raised exception leaves the store as it was |
| CvApi.ContinueCvWorkflow | app/api/v1/cv.py:73-129 | the method's result and new store are those of `ContinueReply` |
| CvApi.StartKeepsNoSavedResume | app/api/v1/cv.py:57-63 | starting never saves a state that holds a résumé |
| CvApi.ContinueKeepsNoSavedResume | app/api/v1/cv.py:116-122 | continuing never saves a state that holds a résumé |
| CvApi.ApproveNeverCompletes | app/api/v1/cv.py:95-115 | in such a store, approving fails with StorageError or the missing-content ValueError and leaves the store unchanged |
| CvApi.RejectKeepsSession | app/api/v1/cv.py:116-127 | a rejection that reaches a new review overwrites the same key with the new state, and the key set is unchanged |
| CvApi.NoStopAfterGenerate | app/services/workflow/__init__.py:165-238 | a résumé generation never reaches a stop |
| CvApi.ValidateLanguage | app/api/v1/cv.py:132-139 | a supported code is returned unchanged; anything else is refused with 400 and a detail listing the supported codes |
| CvApi.SupportedCodesAreKeys | app/api/v1/cv.py:137 | the codes in the detail are exactly the supported ones |
| CvApi.StartHandlerReply | app/api/v1/cv.py:150-198 | an unsupported language gets the 400 as it is; a workflow exception becomes 500 "CV generation failed: " plus its message; success passes through |
| CvApi.ContinueHandlerReply | app/api/v1/cv.py:201-216 | every exception becomes 500 "CV workflow continuation failed: " plus its message; success passes through |
| DocumentIndex.EnsureCollection | app/services/index_manager.py:67-87 | a missing collection is created with payload indexes on "ref_doc_id" and "doc_id"; an existing one is left as it is |
| DocumentIndex.EnsureCollectionIdempotent | app/services/index_manager.py:67-68 | setting up twice is setting up once |
| DocumentIndex.VectorIndexManager.constructor | app/services/index_manager.py:32-65 | the manager sets up its collection when it is missing |
| DocumentIndex.VectorIndexManager.CreateCollectionIfNotExists | app/services/index_manager.py:67-87 | the client's collections and payload indexes become those of `EnsureCollection` |
| DocumentIndex.RecordFrom | app/services/index_manager.py:133-141 | the record takes the name and type, defaulting to "unknown", the size, defaulting to 0, and the dates from the first node's metadata |
| DocumentIndex.Ids | app/services/index_manager.py:140 | the node ids, one per node, in order |
| DocumentIndex.RecordOfNodes | app/services/index_manager.py:129-141 | IndexError exactly for no nodes; ValueError exactly when the first node's document id is None or ""; otherwise the first node's record listing every node id |
| DocumentIndex.VectorIndexManager.AddDocument | app/services/index_manager.py:89-143 | returns `RecordOfNodes` of the chunks; only when that succeeds does the store take the chunks, listing exactly its old nodes and the chunks in its own order |
| DocumentIndex.Matching | app/services/index_manager.py:182-187 | the filter keeps only nodes with the requested document id |
| DocumentIndex.GetDocumentResult | app/services/index_manager.py:171-203 | KeyError "Document with ID … not found." exactly when no node matches; a found record has the requested id and the ids of all matching nodes |
| DocumentIndex.VectorIndexManager.GetDocument | app/services/index_manager.py:171-203 | the filtering loop gives `GetDocumentResult` |
| DocumentIndex.FirstSeenMembers | app/services/index_manager.py:154-164 | a document id is listed exactly when some node carries it |
| DocumentIndex.FirstSeenDistinct | app/services/index_manager.py:159-162 | no document id is listed twice |
| DocumentIndex.MatchingPrefix | app/services/index_manager.py:154-164 | the matching nodes of a prefix begin the matching nodes of the whole list, so a document's first node stays its first |
| DocumentIndex.GroupStep | app/services/index_manager.py:164 | one more node appends its id to its own document's record and leaves the others as they were |
| DocumentIndex.GroupStart | app/services/index_manager.py:159-162 | the first node of a document creates that document's record from its metadata, with its id |
| DocumentIndex.ByRefGroups | app/services/index_manager.py:152-169 | the walk gives a document a record exactly when some node carries its id, and that record is the grouping of its nodes |
| DocumentIndex.ByRefListing | app/services/index_manager.py:166-169 | read in creation order, the walk's records are the listing |
| DocumentIndex.AllDocuments | app/services/index_manager.py:145-169 | one record per distinct document id, in order of first appearance |
| DocumentIndex.VectorIndexManager.GetAllDocuments | app/services/index_manager.py:145-169 | the dictionary-building loop gives `AllDocuments` |
| DocumentIndex.NoDocumentsWithoutIds | app/services/index_manager.py:155-158 | with no node carrying an id, the listing is empty |
| DocumentIndex.ListingAgreesWithLookup | app/services/index_manager.py:145-203 | a non-empty id is listed exactly when the lookup succeeds, and then both give the same record |
| DocumentIndex.EmptyIdListedButNotFound | app/services/index_manager.py:156-191 | an id "" is listed, but looking it up raises ValueError |
| FileIndex.Parts | app/core/index_manager.py:81 | the kept path parts are the non-empty pieces other than "." |
| FileIndex.FileName | app/core/index_manager.py:81-82 | the name is "" or one of the path's "/"-separated pieces, never "." |
| FileIndex.FileNameOfName | app/core/index_manager.py:81-82 | a bare name is its own file name |
| FileIndex.FileNameInDirectory | app/core/index_manager.py:81-82 | whatever the directory, the file name is what follows the last "/" |
| FileIndex.Scrolled | app/core/index_manager.py:110-115 | one scroll returns at most 1000 points, a prefix of the store, and all points of a store that size or smaller |
| FileIndex.PayloadFileName | app/core/index_manager.py:122 | `payload.get("file_name")` is None exactly when the key is missing |
| FileIndex.FileNamesMembers | app/core/index_manager.py:117-122 | a value is collected exactly when some point with a non-empty payload gives it |
| FileIndex.AddedFilesMembers | app/core/index_manager.py:110-125 | a value is an added file exactly when one of the first 1000 points has a non-empty payload giving it; a payload without "file_name" gives None |
| FileIndex.AddedFilesIgnoresLaterPoints | app/core/index_manager.py:110-115 | points past the first 1000 do not change the added files |
| FileIndex.VectorIndexManager.constructor | app/core/index_manager.py:26-39 | a manager for the named collection over the stored points |
| FileIndex.VectorIndexManager.GetAddedFiles | app/core/index_manager.py:98-125 | the loop over the scrolled points gives `AddedFiles` |
| FileIndex.ToAdd | app/core/index_manager.py:79-85 | no kept input has a name among the added files |
| FileIndex.ToAddMembers | app/core/index_manager.py:80-85 | an input is kept exactly when its name is not already added |
| FileIndex.ToAddAppend | app/core/index_manager.py:79-85 | the filter works input by input, so the kept inputs stay in input order |
| FileIndex.ToAddKeepsRepeats | app/core/index_manager.py:77-85 | an input with a new name is kept as often as it is given, even twice in one call |
| FileIndex.NewFileNames | app/core/index_manager.py:96 | the returned names are those of the kept inputs, in order, and none of them is already added |
| FileIndex.FirstMissing | app/core/index_manager.py:87-90 | the reader's first path that is not a file, or none exactly when every path is a file |
| FileIndex.ReaderCheck | app/core/index_manager.py:87-90 | the reader raises a ValueError unless some path is kept and every kept path is a file |
| FileIndex.AddReplySucceeds | app/core/index_manager.py:77-96 | the call succeeds exactly when some input has a new name and every input with a new name is a file |
| FileIndex.NothingNewFails | app/core/index_manager.py:77-90 | giving no files, or only files already in the store, ends in the reader's ValueError for an empty input list |
| FileIndex.VectorIndexManager.AddDocuments | app/core/index_manager.py:57-96 | reads the added files once and keeps the inputs with new names; on the reader's error the store is unchanged, otherwise the store becomes the insert of the kept paths and `NewFileNames` is returned |

## Left out

- The language model, the retrieval query engine, the page scraper (Playwright), LlamaParse, the embedding model and the Qdrant clients are foreign services. They are parameters whose results are arbitrary, and the language model's `complete` and `structured` calls and the retrieval engine's `answer` are taken never to raise: the `Services` fields of the workflow, the nodes and points of the index managers, and the `insert` functions of `DocumentIndex.VectorIndexManager.AddDocument` and `FileIndex.VectorIndexManager.AddDocuments`.
- The prompt texts are not modelled; a prompt is a datatype that holds what is formatted into it.
- PDF compilation is not modelled: it is the `compiles` parameter, and a failed compilation is one `RuntimeError`. Writing the considerations file and `save_to_file` are left out as filesystem I/O.
- PyLaTeX's `dumps` is the `dumps` parameter. The document is modelled as its package list and an item sequence, not as the text PyLaTeX writes.
- Redis, JSON serialisation of the context and `uuid4` are not modelled. The store is a map, a saved context is the state record itself (serialising and restoring are taken to give back the same state), and the fresh id is a parameter.
- The async event stream, the 600-second timeout and logging are not modelled; steps run one after another.
- The "Workflow context is missing." branches of app/api/v1/cv.py are left out: the context is always present in a sequential model.
- FastAPI routing, `get_supported_languages`, and the upload plumbing of the index endpoints are left out as web glue.
- `delete_document`, `delete_all_documents`, `delete_collection` and `get_index` are left out as single calls into the store with nothing to compute.
- CvApi.Message: `str(e)` is the message for ValueError, the workflow error and the storage error, the message in single quotes for KeyError, and "status: detail" for HTTPException (Starlette's text, which is not part of this model). The KeyError quoting assumes a message without quotes or backslashes, which Python's `repr` would change. IndexError, the scraper's error and RuntimeError carry no modelled message and give "".
- DocumentIndex.AllDocuments: the record built from `**node.metadata` is assumed to take the same defaults as the one `get_document` builds, because the `DocumentModel` class is not part of this model.
- DocumentIndex.VectorIndexManager.AddDocument: where the store lists the new chunks is its own order, the `insert` parameter. The model only requires that this listing holds exactly the old nodes and the chunks, so which node of a document is listed first is not fixed.
- FileIndex.VectorIndexManager.GetAddedFiles: it returns a set; the order of the list built from that set is unspecified in Python, so it is not modelled.
- FileIndex.Scrolled: which 1000 points the store returns depends on the store; the model takes the first 1000 in the order it keeps.
- FileIndex.FileName: covers POSIX paths only. Windows separators and drive letters are not modelled.
- FileIndex.ReaderCheck: the reader's two checks follow llama_index's `SimpleDirectoryReader`, which is not part of this model. The missing-file message shows the path as given, not as `pathlib` normalises it. Errors raised later, while reading or parsing a file, are not modelled: `insert` never fails.
- SrcLatex.Header: the preamble text, which opens with the template's licence comment, is not reproduced; only its place at the head of the document is modelled.
- The older workflow under src/ and the older file-store index are not part of this model.
