# Hireloom job board: a Dafny model of its client and API logic

Hireloom is a Next.js job board. Its front end talks to a Strapi back end. This project models the logic that decides what the front end sends and shows:

- **Job queries.** How the job-list query string is built from pagination and the four search filters, including the `populate` parameters. The duplicated copy in the jobs service is modelled too.
- **Search bar.** The filter pills it shows, and the filter record it emits on every interaction.
- **Query hooks.** The React Query keys and the next-page rule for the infinite job list and the applied-jobs list.
- **Applications service.** The create, status and applied-jobs requests, with their bearer headers.
- **Forms.** The validation rules, the upload state machine and the payloads of the application, sign-up and settings forms.
- **Analysis.** The `POST /api/analyze` route handler, and how the analyser dialog builds its job summary and splits the returned markdown into coloured sections.
- **Session mapping.** How next-auth's `authorize`, `jwt` and `session` callbacks carry the signed-in user into the session.

External effects are parameters. The HTTP call, file upload, completion service and next-auth calls each become an outcome value passed in, and each operation returns or records the request it would make. Stateful React components are classes: hooks of `useState` become fields, and event handlers become methods with `modifies` clauses.

JavaScript's own semantics are written out where they matter:

- truthiness (`""`, `undefined` and `0` are falsy);
- `??` against `||`;
- `String.prototype.split`, `join` and `trim`;
- template interpolation, where `undefined` renders as `"undefined"`;
- `URLSearchParams.set` (replace the first entry, drop the rest, or append) against `append`.

Modules: `Wrappers`, `Text`, `UrlQuery`, `QueryNames`, `JobTypes`, `Sessions`, `Uploads`, `Notices`, `Api`, `JobsServices`, `ApplicationsServices`, `UseJobs`, `UseApplication`, `JobSearch`, `AnalyzeRoute`, `AnalyzerDialog`, `ApplicationDialog`, `Signup`, `Settings`, `AuthSession`.

## Model

| member | source | states |
|---|---|---|
| Text.TrimStartRemovesPrefix | src/components/AIAnalyzerDialog.tsx:113 | the result is a suffix of the input; what was removed is all whitespace; the result does not start with whitespace |
| Text.TrimEndRemovesSuffix | src/components/AIAnalyzerDialog.tsx:113 | the result is a prefix of the input; what was removed is all whitespace; the result does not end with whitespace |
| Text.TrimIsFactor | src/components/AIAnalyzerDialog.tsx:113 | `trim()` returns a contiguous slice of its input, with only whitespace before and after it |
| Text.TrimSolidEnds | src/components/AIAnalyzerDialog.tsx:113 | the trimmed text is empty or neither starts nor ends with whitespace |
| Text.TrimStable | src/components/AIAnalyzerDialog.tsx:113 | a string with no whitespace at either end is left unchanged by `trim()` |
| Text.TrimIdempotent | src/components/AIAnalyzerDialog.tsx:113 | trimming twice gives the same string as trimming once |
| Text.TrimPadded | src/components/AIAnalyzerDialog.tsx:94-113 | trimming whitespace padding off a solid core gives back exactly that core |
| Text.TrimFramed | src/components/AIAnalyzerDialog.tsx:94-113 | with whitespace frames and a core that starts solid, `trim()` equals right-trimming the core |
| Text.JoinSnoc | src/components/AIAnalyzerDialog.tsx:102-112 | joining with one more part appends the separator and that part |
| Text.IndexOf | src/components/AIAnalyzerDialog.tsx:155 | returns the first position where the separator occurs, and None exactly when it does not occur |
| Text.Split | src/components/AIAnalyzerDialog.tsx:153 | `split` yields at least one part; joining the parts back with the separator restores the input; no part contains the separator |
| Text.SplitFirst | src/components/AIAnalyzerDialog.tsx:153 | without an occurrence the split is the whole input; otherwise it is the text before the first occurrence, followed by the split of the rest |
| Text.SplitHeadRest | src/components/AIAnalyzerDialog.tsx:155 | the same head and rest decomposition, stated with `Contains` |
| Text.FirstOccurrenceAfterFree | src/components/AIAnalyzerDialog.tsx:153 | for a separator that cannot overlap itself, its first occurrence in `a + sep + b` is right after `a` when `a` is free of it |
| Text.SplitJoin | src/components/AIAnalyzerDialog.tsx:153 | splitting the join of separator-free parts gives back exactly those parts |
| Text.SplitCount | src/components/AIAnalyzerDialog.tsx:153 | the number of parts is the number of separator occurrences plus one |
| Text.DigitChar | src/lib/api.ts:16-17 | a digit 0-9 maps to its ASCII character |
| Text.NatDigits | src/lib/api.ts:16-17 | a natural's decimal text is non-empty, all digits, and has no leading zero unless it is 0 |
| Text.Decimal | src/lib/api.ts:16-17 | `String(n)` is well-formed decimal text, and starts with '-' exactly when n is negative |
| Text.DecimalRoundTrip | src/lib/api.ts:16-17 | parsing `String(n)` gives back n |
| Text.DecimalInjective | src/lib/api.ts:16-17 | different integers have different decimal texts |
| UrlQuery.FirstIndex | src/lib/api.ts:16 | finds the first entry with the name, or None exactly when no entry has it |
| UrlQuery.Get | src/lib/api.ts:16 | `get` is None exactly when the name is absent, and otherwise the value of the first entry with that name |
| UrlQuery.RemoveAll | src/lib/api.ts:16 | the result has no entry with the name and keeps only entries of the input |
| UrlQuery.SetPairs | src/lib/api.ts:16 | `set` of a new name appends one entry |
| UrlQuery.SetThenGet | src/lib/api.ts:16-22 | after `set`, `get` of that name returns the new value and exactly one entry has the name |
| UrlQuery.SetLeavesOthers | src/lib/api.ts:16-22 | `set` does not change what `get` returns for any other name |
| UrlQuery.SetKeepsDistinct | src/lib/api.ts:15-38 | `set` preserves "no name occurs twice" |
| UrlQuery.GetRemoveOther | src/lib/api.ts:16 | removing one name does not change `get` of another |
| UrlQuery.GetAppend | src/services/applications-services.ts:63-74 | `get` on a concatenation returns the first part's entry when there is one, else the second part's |
| UrlQuery.AppendCount | src/services/applications-services.ts:63-74 | `append` adds exactly one entry with its name |
| UrlQuery.SearchParams.constructor | src/lib/api.ts:15 | `new URLSearchParams()` starts empty |
| UrlQuery.SearchParams.Set | src/lib/api.ts:16-22 | the object's entries become the `set` of the old entries |
| UrlQuery.SearchParams.Append | src/services/applications-services.ts:63-74 | the object's entries become the old entries plus the new one at the end |
| QueryNames.NameInjective | src/lib/api.ts:16-37 | distinct query parameters have distinct literal names |
| QueryNames.Wire | src/lib/api.ts:15-40 | the wire form has the same entries, with each parameter replaced by its literal name |
| QueryNames.WireGet | src/lib/api.ts:15-40 | looking up a literal name in the wire form agrees with looking up the parameter in the model |
| Sessions.UserId | src/components/ApplicationDialog.tsx:140 | `session?.user?.id` is present exactly when the session, the user and the id all are |
| Sessions.UserDetailDocId | src/app/settings/page.tsx:88 | `session?.user?.userDetailDocId` is present exactly when set all along the chain |
| Sessions.SessionJwt | src/components/ApplicationDialog.tsx:141 | `session?.jwt` is present exactly when the session and its jwt are |
| Sessions.SessionResume | src/components/ApplicationDialog.tsx:133 | `session?.user?.resume` is present exactly when set all along the chain |
| Sessions.JsText | src/services/users-services.ts:20 | interpolating a string gives the string itself, and interpolating undefined gives "undefined" |
| Sessions.JsNumberText | src/services/applications-services.ts:40 | interpolating a number gives decimal text that parses back to it; undefined gives "undefined" |
| Uploads.FirstFile | src/components/ApplicationDialog.tsx:120 | `data[0]` is present exactly when the upload returned files, and is then the first one |
| Uploads.UploadedId | src/components/ApplicationDialog.tsx:120 | `data[0]?.id` is present exactly when files came back, and is the first file's id |
| Uploads.UploadRequestFor | src/components/ApplicationDialog.tsx:109-118 | the upload goes to the environment URL plus "/api/upload", with a bearer header for the given token and a multipart content type |
| Uploads.FileInputsSendNoToken | src/components/ApplicationDialog.tsx:229-232 | the file inputs pass an empty token, so the header is the bare "Bearer " |
| Uploads.ExistingResumeId | src/components/ApplicationDialog.tsx:133 | the session's resume id is used exactly when a resume is stored with a non-zero id |
| Uploads.ChooseResumePrefersUpload | src/components/ApplicationDialog.tsx:133 | at most one resume id is named; a fresh upload wins over the session's resume; neither gives null; no named id is 0 |
| Api.ApiUrl | src/lib/api.ts:4 | the base URL is the environment value when it is truthy, else the localhost default; never empty |
| Api.ServiceBase | src/services/jobs-services.ts:39 | `${API_URL}` in a service template renders the imported binding, or "undefined" when it is undefined |
| Api.ServiceBaseAsWritten | src/services/jobs-services.ts:2 | with `API_URL` not exported by src/lib/api.ts:4, the services' base is "undefined", unlike the library's localhost default |
| Api.ServiceBaseExported | src/lib/api.ts:4 | with the constant exported, the services' base is the library's `ApiUrl(env)` |
| Api.Optional | src/lib/api.ts:25-38 | a filter contributes one entry with its value when truthy, else nothing |
| Api.SetJobPopulate | src/lib/api.ts:18-22 | the five `populate` sets append the populate entries in order, since none of their names is in use |
| Api.SetIfTruthy | src/lib/api.ts:25-38 | a guarded `set` appends the optional entry for a fresh name |
| Api.FetchJobs | src/lib/api.ts:6-42 | `fetchJobs` requests the module's own base `ApiUrl(env)` + "/api/jobs" with the query of pagination, populate, then the filters in source order |
| Api.JobsQueryPagination | src/lib/api.ts:16-17 | the query carries `pagination[page]` and `pagination[pageSize]` as decimal texts that parse back to the arguments |
| Api.JobsQueryFilters | src/lib/api.ts:25-38 | each filter parameter is present with the filter's value exactly when that filter is truthy |
| Api.JobsQueryDistinct | src/lib/api.ts:15-38 | no parameter name occurs twice in the job-list query |
| Api.JobsQueryLayout | src/lib/api.ts:16-38 | entries 2 to 6 are the populate block, and the length is 7 plus the number of truthy filters |
| Api.FetchJobsByDocId | src/lib/api.ts:44-56 | the single-job request goes to `ApiUrl(env)` + "/api/jobs/" + documentId with the populate block alone |
| Api.FetchCompanyByDocId | src/lib/api.ts:58-66 | the company request goes to `ApiUrl(env)` + "/api/companies/" + documentId with `populate=*` alone |
| Api.DocIdQueriesHaveNoPaginationOrFilters | src/lib/api.ts:44-66 | neither by-id query carries pagination or a filter |
| Api.JobPopulateDistinct | src/lib/api.ts:18-22 | the populate block has five entries with distinct names |
| JobsServices.SetFilters | src/services/jobs-services.ts:24-37 | the service's four guarded sets append the same optional entries as the library version |
| JobsServices.FetchJobs | src/services/jobs-services.ts:5-41 | the service copy of `fetchJobs` builds the library's query under the base its `${API_URL}` renders to |
| JobsServices.FetchJobsByDocId | src/services/jobs-services.ts:43-55 | the service copy of `fetchJobsByDocId` builds the library's by-id request under the base its `${API_URL}` renders to |
| ApplicationsServices.BearerHeaders | src/services/applications-services.ts:19 | a truthy token gives one `Authorization: Bearer <token>` header, else no header |
| ApplicationsServices.StatusHeaders | src/services/applications-services.ts:37 | any session gives a bearer header from `session.jwt`, even an undefined one; no session gives none |
| ApplicationsServices.HeaderRulesCompared | src/services/applications-services.ts:19-37 | the two header rules agree on a truthy jwt and differ otherwise: the status request can send "Bearer undefined" |
| ApplicationsServices.CreateApplication | src/services/applications-services.ts:4-34 | the POST goes to "/api/applications" with the form's fields in `data` and the bearer rule's headers |
| ApplicationsServices.FetchApplicationStatus | src/services/applications-services.ts:36-44 | the status GET goes to "/api/applications?" + the status filter query, with the status header rule |
| ApplicationsServices.StatusQueryParts | src/services/applications-services.ts:40 | the status query splits on '&' into the job filter and the user filter; a missing user id is sent as "undefined" |
| ApplicationsServices.FetchJobsApplied | src/services/applications-services.ts:46-81 | the applied-jobs GET goes to "/api/applications" with the five appended parameters and the bearer header rule |
| ApplicationsServices.JobsAppliedOrder | src/services/applications-services.ts:63-74 | the parameters come in source order, and no name repeats |
| ApplicationsServices.JobsAppliedStatusAlwaysSent | src/services/applications-services.ts:73-74 | the status filter is always sent with the given value, even when it is empty |
| ApplicationsServices.JobsAppliedNumbers | src/services/applications-services.ts:63-72 | the page, page size and user id are sent as decimal texts that parse back to the arguments |
| UseJobs.JobsKeysSeparate | src/hooks/useJobs.ts:11 | two job-list keys are equal exactly when their filters are |
| UseJobs.JobsPageRequest | src/hooks/useJobs.ts:12-13 | each page goes to `ApiUrl(env)` + "/api/jobs" and reads back `pagination[page]` as the page number and `pagination[pageSize]` as "2" |
| UseJobs.NextPageParam | src/hooks/useJobs.ts:14-20 | there is a next page exactly when page < pageCount, and it is page + 1, at most pageCount |
| UseJobs.PagesFromCounts | src/hooks/useJobs.ts:14-21 | following the next-page rule from a page visits consecutive pages up to pageCount |
| UseJobs.JobsPagesFromStart | src/hooks/useJobs.ts:12-21 | starting from page 1, the list loads pages 1 to pageCount in order; only page 1 when pageCount is at most 1 |
| UseJobs.JobQuery | src/hooks/useJobs.ts:25-30 | the single-job query runs exactly when the document id is non-empty, and then fetches that job from `ApiUrl(env)` |
| UseApplication.MutationForwardsVariables | src/hooks/queries/useApplication.ts:8-29 | the mutation passes every variable through to `createApplication` unchanged |
| UseApplication.StatusQueriesSeparate | src/hooks/queries/useApplication.ts:31-37 | status keys are equal exactly when job and session are, and the stale time is 0 |
| UseApplication.AppliedKeyIgnoresStatus | src/hooks/queries/useApplication.ts:44-61 | two statuses share one cache key although their requests differ |
| UseApplication.AppliedKeysSeparate | src/hooks/queries/useApplication.ts:45 | applied keys are equal exactly when token and user id are |
| UseApplication.AppliedNextPageParam | src/hooks/queries/useApplication.ts:54-60 | the applied list uses the same next-page rule as the job list |
| UseApplication.AppliedPageRequest | src/hooks/queries/useApplication.ts:46-53 | each applied-jobs page goes to the services' base + "/api/applications" with `pagination[page]` equal to the page, `pagination[pageSize]` equal to "2", and the caller's token as bearer |
| UseApplication.AppliedPagesFromStart | src/hooks/queries/useApplication.ts:47-61 | the applied list starts at page 1, as the job list does, and with the shared next-page rule loads pages 1 to pageCount in order |
| JobSearch.Coalesce | src/components/JobSearch.tsx:36-44 | `a ?? b` keeps a when defined, else b; an empty string counts as defined |
| JobSearch.MergeNothing | src/components/JobSearch.tsx:36-44 | an empty partial merges to the current title and the selected values |
| JobSearch.MergeOverrides | src/components/JobSearch.tsx:36-44 | each field of the partial overrides the current one exactly when it is defined |
| JobSearch.Candidate | src/components/JobSearch.tsx:65-76 | a filter yields a pill exactly when truthy, labelled with its prefix and value |
| JobSearch.Present | src/components/JobSearch.tsx:76 | `.filter(Boolean)` never lengthens the list; which entries it keeps and in what order is stated by JobSearch.PresentMembers and JobSearch.PresentOrdered |
| JobSearch.ActiveFilters | src/components/JobSearch.tsx:65-76 | there are at most four pills; which pills they are is stated by JobSearch.ActiveFiltersContents and their order by JobSearch.ActiveFiltersOrdered |
| JobSearch.PresentMembers | src/components/JobSearch.tsx:76 | a pill survives the filter exactly when it was a candidate |
| JobSearch.PresentOrdered | src/components/JobSearch.tsx:65-76 | filtering keeps the candidates' order |
| JobSearch.PresentEmpty | src/components/JobSearch.tsx:76 | nothing survives exactly when every candidate was absent |
| JobSearch.ActiveFiltersContents | src/components/JobSearch.tsx:65-76 | a filter has a pill exactly when it is truthy; the pill's label is the prefix plus the value; every pill is one of these |
| JobSearch.PillsAreCandidates | src/components/JobSearch.tsx:65-76 | a pill is shown exactly when it is the labelled pill of its own truthy field |
| JobSearch.ActiveFiltersOrdered | src/components/JobSearch.tsx:65-76 | pills appear in the order title, type, workplace, seniority, each at most once |
| JobSearch.ClearAllShownIffPills | src/components/JobSearch.tsx:202-205 | "Clear All" shows exactly when there is at least one pill |
| JobSearch.JobSearchBar.constructor | src/components/JobSearch.tsx:23-29 | the bar starts with an empty title, nothing selected and nothing emitted |
| JobSearch.JobSearchBar.HandleJobTitleChange | src/components/JobSearch.tsx:32-34 | typing changes the title only, and emits nothing |
| JobSearch.JobSearchBar.UpdateFilters | src/components/JobSearch.tsx:36-44 | emits the merge of the partial with the current state, and changes no field |
| JobSearch.JobSearchBar.SelectJobType | src/components/JobSearch.tsx:122-128 | choosing an offered type selects it and emits the filters with it |
| JobSearch.JobSearchBar.SelectWorkplace | src/components/JobSearch.tsx:151-157 | choosing an offered workplace selects it and emits the filters with it |
| JobSearch.JobSearchBar.SelectSeniority | src/components/JobSearch.tsx:180-193 | choosing an offered seniority selects it and emits the filters with it |
| JobSearch.JobSearchBar.HandleSearch | src/components/JobSearch.tsx:60-62 | the search button emits the current filters and changes no field |
| JobSearch.JobSearchBar.HandleKeyUp | src/components/JobSearch.tsx:87-91 | Enter emits the current filters; any other key emits nothing |
| JobSearch.JobSearchBar.ClearAll | src/components/JobSearch.tsx:47-58 | clears every field, emits the cleared filters, and leaves no pill and no "Clear All" |
| AnalyzeRoute.UserContentHoldsInputs | src/app/api/analyze/route.ts:31 | the user message is "Job details: " + details + "\n\nCandidate skills: " + skills, with both inputs recoverable at fixed offsets |
| AnalyzeRoute.AnalysisText | src/app/api/analyze/route.ts:37-38 | the analysis is the content when truthy, else the fallback text; never empty |
| AnalyzeRoute.Post | src/app/api/analyze/route.ts:10-48 | 400 exactly when an input is falsy, with no call made; otherwise one call, then 200 with an analysis or 500 with the error |
| AnalyzeRoute.UpstreamFailureIs500 | src/app/api/analyze/route.ts:41-47 | a failing completion call with valid inputs gives 500 "Failed to generate analysis" |
| AnalyzeRoute.SuccessCarriesContent | src/app/api/analyze/route.ts:37-40 | a successful call returns 200 with the content or the fallback |
| AnalyzeRoute.WhitespaceInputsAccepted | src/app/api/analyze/route.ts:13 | whitespace-only inputs pass the guard, because it tests truthiness, not content |
| AnalyzeRoute.CallShape | src/app/api/analyze/route.ts:21-35 | the one call sends the system prompt, then the user message |
| AnalyzeRoute.SectionStartsWithHeading | src/app/api/analyze/route.ts:27 | each prompt section starts with its "## " heading |
| AnalyzeRoute.HeadingsAtOffsets | src/app/api/analyze/route.ts:27 | in the concatenated prompt sections, each "## " heading sits at the sum of the lengths of the sections before it, and offsets strictly increase |
| AnalyzeRoute.SystemPromptHeadingOrder | src/app/api/analyze/route.ts:27 | the system prompt names the four headings, in the order the dialog colours them |
| AnalyzerDialog.BulletLines | src/components/AIAnalyzerDialog.tsx:102-112 | each item becomes "- " + item, one line per item |
| AnalyzerDialog.BulletsLines | src/components/AIAnalyzerDialog.tsx:102-112 | the bullet block is empty for no items, and otherwise splits on newlines into exactly the bullet lines |
| AnalyzerDialog.RemoteLine | src/components/AIAnalyzerDialog.tsx:99 | the remote line reads "Yes" exactly when the job is remote |
| AnalyzerDialog.JobDetailsShape | src/components/AIAnalyzerDialog.tsx:94-113 | the trimmed summary starts with "Job Title: " + title and is the six blocks joined by blank lines, right-trimmed |
| AnalyzerDialog.JobDetailsNonEmpty | src/components/AIAnalyzerDialog.tsx:94-113 | the summary is never empty, so the route's guard never rejects it |
| AnalyzerDialog.Classify | src/components/AIAnalyzerDialog.tsx:161-176 | a section's category matches its trimmed heading, and is Other exactly when no heading matches |
| AnalyzerDialog.ClassifyHeading | src/components/AIAnalyzerDialog.tsx:161-176 | a known heading with whitespace around it gets its category |
| AnalyzerDialog.SectionClassInjective | src/components/AIAnalyzerDialog.tsx:161-176 | distinct categories have distinct styles |
| AnalyzerDialog.UnlistedHeadingIsGray | src/components/AIAnalyzerDialog.tsx:174-175 | any other trimmed heading is styled gray |
| AnalyzerDialog.LowerCaseHeadingIsGray | src/components/AIAnalyzerDialog.tsx:161-176 | the match is case-sensitive: "strong points" is gray |
| AnalyzerDialog.ParseSection | src/components/AIAnalyzerDialog.tsx:155-157 | the heading is the text before the first newline and the body the rest; with no newline, the body is empty |
| AnalyzerDialog.ParseSectionOf | src/components/AIAnalyzerDialog.tsx:155-157 | a chunk built from a heading without a newline and a body parses back into that heading and that body |
| AnalyzerDialog.Sections | src/components/AIAnalyzerDialog.tsx:153-157 | one section per chunk after the first, in order |
| AnalyzerDialog.RenderAnalysis | src/components/AIAnalyzerDialog.tsx:147-157 | nothing is rendered exactly when the analysis is missing or empty; otherwise the sections are |
| AnalyzerDialog.ChunksRoundTrip | src/components/AIAnalyzerDialog.tsx:153 | the chunks joined with "## " restore the analysis, and no chunk holds "## " |
| AnalyzerDialog.SectionCount | src/components/AIAnalyzerDialog.tsx:153 | there are as many sections as "## " occurrences |
| AnalyzerDialog.SectionTexts | src/components/AIAnalyzerDialog.tsx:153-157 | each composed section text is heading, newline, body |
| AnalyzerDialog.SectionsOfComposed | src/components/AIAnalyzerDialog.tsx:153-157 | text composed from clean headings and bodies renders back into exactly those sections |
| AnalyzerDialog.TwoSectionsRendered | src/components/AIAnalyzerDialog.tsx:147-157 | two composed sections render as those two sections |
| AnalyzerDialog.ExampleCategories | src/components/AIAnalyzerDialog.tsx:161-176 | the literal headings get their categories |
| AnalyzerDialog.TwoSectionExample | src/components/AIAnalyzerDialog.tsx:147-176 | a concrete two-section reply renders with its headings, bodies and categories |
| AnalyzerDialog.Received | src/components/AIAnalyzerDialog.tsx:127-138 | the dialog takes the data exactly when the status is 2xx; any other status fails |
| AnalyzerDialog.Analyzer.constructor | src/components/AIAnalyzerDialog.tsx:94-119 | the dialog starts with the built summary, no skills, an empty analysis and no error |
| AnalyzerDialog.Analyzer.SetSkills | src/components/AIAnalyzerDialog.tsx:207 | typing changes the skills only |
| AnalyzerDialog.Analyzer.BeginAnalyze | src/components/AIAnalyzerDialog.tsx:122-131 | starting sets loading, clears the error and the analysis, and returns the POST to "/api/analyze" carrying the job details and the current skills |
| AnalyzerDialog.Analyzer.CompleteAnalyze | src/components/AIAnalyzerDialog.tsx:136-143 | success stores the analysis; failure stores the error message; loading always ends |
| AnalyzerDialog.Analyzer.HandleAnalyze | src/components/AIAnalyzerDialog.tsx:121-144 | a click returns the request it sent (the job details and the skills at the click), which the route never answers with 400 when the button was enabled; it ends with loading off and either the new analysis with no error, or an empty analysis with the error |
| AnalyzerDialog.Analyzer.LoadingDisablesAnalyze | src/components/AIAnalyzerDialog.tsx:217 | `AnalyzeEnabled` (the negated `disabled` rule) is false while a request is loading |
| AnalyzerDialog.Analyzer.EnabledAnalyzeIsAccepted | src/components/AIAnalyzerDialog.tsx:217 | when the button is enabled, the request a click would send (`PendingCall`, the one `HandleAnalyze` returns) never gets the route's 400 answer |
| AnalyzerDialog.EnabledRequestIsAccepted | src/components/AIAnalyzerDialog.tsx:127-135 | an enabled request never hits the route's 400 branch, and its reply is received exactly when it is 200 |
| ApplicationDialog.InterestReasonError | src/components/ApplicationDialog.tsx:80-83 | no error exactly when 1 to 200 characters; empty gives the required message; too long gives the length message |
| ApplicationDialog.SkillsError | src/components/ApplicationDialog.tsx:84 | no error exactly when non-empty; otherwise the required message |
| ApplicationDialog.FormValidBounds | src/components/ApplicationDialog.tsx:79-86 | the form is valid exactly when the reason has 1 to 200 characters and the skills are non-empty |
| ApplicationDialog.SubmittedApplication | src/components/ApplicationDialog.tsx:132-143 | the posted application carries the form's text, the job, the session's user and token, and the resume rule's choice |
| ApplicationDialog.AfterSubmit | src/components/ApplicationDialog.tsx:144-152 | success toasts and navigates to "/jobs"; failure shows the error toast and stays |
| ApplicationDialog.UploadToast | src/components/ApplicationDialog.tsx:121-124 | the success toast shows exactly when the upload succeeded |
| ApplicationDialog.ProfileForm.constructor | src/components/ApplicationDialog.tsx:88-92 | the form starts not uploading with no resume |
| ApplicationDialog.ProfileForm.StartUpload | src/components/ApplicationDialog.tsx:103-118 | a chosen file sets uploading and makes the upload request with an empty token; no file changes nothing |
| ApplicationDialog.ProfileForm.FinishUpload | src/components/ApplicationDialog.tsx:118-127 | uploading ends; success stores the first file's id; failure keeps the old id |
| ApplicationDialog.ProfileForm.HandleFileChange | src/components/ApplicationDialog.tsx:229-232 | a selected file is uploaded with the empty-token upload request, its toast is the upload's toast, and the flag is reset after; with no file nothing happens |
| ApplicationDialog.ProfileForm.Submit | src/components/ApplicationDialog.tsx:132-143 | a valid form submits the variables built from it, the resume id and the session |
| ApplicationDialog.ProfileForm.UploadDisablesSubmit | src/components/ApplicationDialog.tsx:270 | `SubmitEnabled` (the negated `disabled` rule over `isPending` and `uploading`) is false during an upload, whatever the mutation state |
| Signup.FirstNameError | src/app/signup/page.tsx:23 | no error exactly when non-empty |
| Signup.LastNameError | src/app/signup/page.tsx:24 | no error exactly when non-empty |
| Signup.EmailError | src/app/signup/page.tsx:25-27 | no error exactly when well formed and non-empty; malformed gives the invalid-email message |
| Signup.EmailRequiredUnreachable | src/app/signup/page.tsx:25-27 | "Email is required" can show only for an empty address that counts as well formed |
| Signup.PasswordError | src/app/signup/page.tsx:28-30 | no error exactly when at least 6 characters; otherwise the length message |
| Signup.FormValidBounds | src/app/signup/page.tsx:22-32 | the form is valid exactly when both names and the email are non-empty, the email is well formed and the password has 6 or more characters |
| Signup.RegisterRequest | src/app/signup/page.tsx:83-90 | registration posts the email as both user name and email, with the password |
| Signup.DetailsResume | src/app/signup/page.tsx:102 | the details record names the uploaded resume when there is one, else none |
| Signup.UserDetailsRequest | src/app/signup/page.tsx:95-110 | the details post carries the names, the new user's id and the resume, with the new jwt as bearer |
| Signup.FailureMessage | src/app/signup/page.tsx:116-119 | the server's message when truthy, else the generic one; never empty |
| Signup.SignupSettled | src/app/signup/page.tsx:112-119 | navigation to "/login" happens exactly when both posts succeed; otherwise the failing step's message is toasted |
| Signup.SignupForm.constructor | src/app/signup/page.tsx:36-38 | the form starts idle, with no resume and no posts |
| Signup.SignupForm.StartUpload | src/app/signup/page.tsx:51-66 | a chosen file sets uploading and makes the upload request; no file changes nothing |
| Signup.SignupForm.FinishUpload | src/app/signup/page.tsx:68-75 | uploading ends; success stores the first file's id; failure keeps the old one |
| Signup.SignupForm.BeginSubmit | src/app/signup/page.tsx:80-90 | submitting sets loading and posts the registration |
| Signup.SignupForm.CompleteSubmit | src/app/signup/page.tsx:92-122 | the details post follows only a successful registration; loading ends either way |
| Signup.SignupForm.HandleSubmit | src/app/signup/page.tsx:78-123 | the whole submit posts registration, then the details post with the form's resume id when registration succeeded, and settles; the upload flag and the resume id are left as they were |
| Signup.SignupForm.UploadLeavesSubmitEnabled | src/app/signup/page.tsx:220 | `SubmitEnabled` (`disabled={loading}`, negated) stays true during an upload when no registration is in flight |
| Signup.SignupForm.LoadingDisablesSubmit | src/app/signup/page.tsx:220 | `SubmitEnabled` is false while the registration is in flight |
| Settings.FormValidBounds | src/app/settings/page.tsx:23-30 | the form is valid exactly when both names and the email are non-empty and the email is well formed |
| Settings.OrEmpty | src/app/settings/page.tsx:41-46 | a truthy value is kept and anything else becomes "" |
| Settings.DefaultsFromSession | src/app/settings/page.tsx:41-46 | the form's defaults are the session user's names and email, or empty |
| Settings.UpdateIgnoresEmail | src/app/settings/page.tsx:83-89 | the update ignores the email field, and takes the document id and token from the session |
| Settings.UpdateUrl | src/services/users-services.ts:19-20 | the PUT goes to "/api/user-details/" + documentId, or "/api/user-details/undefined" without one |
| Settings.SessionUpdateFor | src/app/settings/page.tsx:95-99 | the argument passed to `update()` holds the new names, and the uploaded file exactly when a resume id is set, else the session's resume |
| Settings.SentAndSessionResumeAgree | src/app/settings/page.tsx:66-67 | after a consistent upload, the resume sent and the resume in the argument passed to `update()` are the same file; without one, that argument keeps the session's resume |
| Settings.AfterSave | src/app/settings/page.tsx:90-106 | success yields the argument passed to `update()`, the success toast and "/jobs"; failure yields no `update()` call and the error toast |
| Settings.SettingsForm.constructor | src/app/settings/page.tsx:35-37 | the form starts not uploading, with no resume |
| Settings.SettingsForm.StartUpload | src/app/settings/page.tsx:49-62 | a chosen file sets uploading and makes the upload request; the stored resume is unchanged |
| Settings.SettingsForm.FinishUpload | src/app/settings/page.tsx:63-75 | success stores the first file and its id together; failure keeps both |
| Settings.SettingsForm.Submit | src/app/settings/page.tsx:79-89 | submits the update built from the form, the resume id and the session |
| Settings.SettingsForm.Saved | src/app/settings/page.tsx:90-106 | settles the save; after a successful save with an upload, the argument passed to `update()` carries the uploaded file |
| Settings.SettingsForm.UploadLeavesSubmitEnabled | src/app/settings/page.tsx:241 | `SubmitEnabled` (`disabled={isPending}`, negated) is true during an upload unless the save is pending, unlike the application form |
| AuthSession.SettingsSaveTargetsUndefined | src/app/settings/page.tsx:88 | with the callbacks as written, every save PUTs to "/api/user-details/undefined" |
| AuthSession.TokenFixAloneTargetsUndefined | src/app/settings/page.tsx:88 | correcting the token alone is not enough: the session callback as written drops the id, so the save still PUTs to "undefined" |
| AuthSession.SettingsSaveTargetsOwnRecord | src/app/settings/page.tsx:88 | with both the token and the session callback corrected, a save PUTs to the user's own detail record with the user's jwt |
| AuthSession.SessionUpdateIgnored | src/app/settings/page.tsx:95-99 | as written, the session after `update()` and the form defaults read from it equal those from before the save; a new first name never reaches the session |
| AuthSession.SessionUpdateApplied | src/app/settings/page.tsx:95-99 | with an update branch in the `jwt` callback, the saved names and kept resume reach the session and the form defaults, and the jwt, id and detail record are kept |

Six `AuthSession` members model the NextAuth route file, whose directory name `[...nextauth]` has brackets a table path cannot carry; they are listed here instead:

- `AuthSession.OrNull` — `src/app/api/auth/[...nextauth]/route.ts:52-54`: the `or null` fallback keeps a truthy value and turns anything else into null.
- `AuthSession.TokenAsWritten` — `src/app/api/auth/[...nextauth]/route.ts:47-69`: the token as the callbacks build it carries the jwt and id, but never a user-detail document id.
- `AuthSession.SessionOf` — `src/app/api/auth/[...nextauth]/route.ts:70-77`: the session copies the token's jwt, id, names and resume, and never has a user-detail document id, whatever the token holds.
- `AuthSession.SessionWithDetailDoc` — `src/app/api/auth/[...nextauth]/route.ts:70-77`: the corrected session callback gives the same session plus the token's user-detail document id.
- `AuthSession.TokenWithDetailDoc` — `src/app/api/auth/[...nextauth]/route.ts:47-69`: the corrected token carries the detail record's document id and is otherwise unchanged.
- `AuthSession.JwtOnUpdateCorrected` — `src/app/api/auth/[...nextauth]/route.ts:60-69`: the corrected `jwt` callback, on an `update` call, takes the names and resume passed to `update()` and keeps every other token field.

## Left out

- The network, file uploads, the completion service, next-auth sign-in and the router are not modelled as effects; `update()` is modelled only through the `jwt` and `session` callbacks it runs (`AuthSession.JwtOnUpdate`). Each call is an outcome passed in, and the model returns the request or the navigation the code would make.
- `req.json()` on a malformed body is not modelled, and neither is a non-object body. The route receives its two fields as optional strings.
- The markdown-to-HTML rendering of section bodies (`marked`) is left out. A section body is kept as its markdown text.
- Percent-encoding of query strings (section 5.2 of the WHATWG URL Standard) is left out. Query entries are kept as decoded name/value pairs.
- `Signup.EmailError` does not model zod's email pattern. Whether the address is well formed is a boolean parameter.
- `trim()` and the zod length checks (`.min`/`.max` in src/components/ApplicationDialog.tsx:82-83 and src/app/signup/page.tsx:28-30): strings are sequences of characters, while JavaScript counts UTF-16 code units. A character outside the Basic Multilingual Plane counts once here and twice in the source, so, for example, 101 emoji (202 code units) fail "Maximum 200 characters." in the source but pass `ApplicationDialog.InterestReasonError`. The whitespace set is the ECMAScript one over single code units.
- Text.Decimal: matches `String(n)` only for integers of magnitude below 10^21 that a double holds exactly (at most 2^53). Beyond 10^21 JavaScript prints exponent form, and above 2^53 the number itself has already lost precision. The same bound applies to `Sessions.JsNumberText`.
- The `console.error` calls in the analyze route's `catch` and in the upload and submit `catch` blocks of the forms are left out. They write to the console only and change no state.
- The services' `apiUrl` parameter (`JobsServices`, `ApplicationsServices`, `Settings.UpdateUrl`, `UseApplication`) stands for the text their `${API_URL}` renders to. That is `Api.ServiceBase` of the imported binding: "undefined" as written, because src/lib/api.ts:4 does not export the constant, and `Api.ApiUrl(env)` once it does. A build that rejects the missing export outright is not modelled.
- NaN, Infinity and non-integer page numbers are not modelled. Pages and ids are integers.
- React batching, asynchronous interleaving of handlers, and React Query caching and retries are left out. Only the keys, enable flags, stale time and page rules are modelled.
- The UI-only files are `Navbar.tsx`, `JobCard.tsx`, the page shells, `JobDetailsPage.tsx`, `CompanyOverviewPage.tsx` and `skeleton.tsx`. Their `moment` date formatting is left out too.
- The login page and the thin hook wrappers (`useCompany`, `useUserDetails`) are left out. They add no logic beyond the services they call.
- Uploads.UploadRequestFor: the upload URL uses `NEXT_PUBLIC_API_URL` directly, without the localhost default. An unset variable gives "undefined/api/upload", as the code does.
- ApplicationDialog.ProfileForm.HandleFileChange: an upload that throws half-way is modelled only as the failure outcome.

## Findings

| source | as written | input that shows it | evidently intended | confidence | as-written member | corrected member |
|---|---|---|---|---|---|---|
| src/app/api/auth/[...nextauth]/route.ts:47-77 with src/app/settings/page.tsx:88 | `authorize`, `jwt` and `session` never copy the user-detail document id, yet the settings page sends `session.user.userDetailDocId` as the record to update | any signed-in user who saves the settings form: the PUT goes to `/api/user-details/undefined` | `authorize` and `jwt` put the detail record's document id into the token (`AuthSession.TokenWithDetailDoc`) and `session` copies it into the session (`AuthSession.SessionWithDetailDoc`), so the save updates the user's own record; fixing the token alone still targets undefined (`AuthSession.TokenFixAloneTargetsUndefined`) | not executed | AuthSession.SettingsSaveTargetsUndefined | AuthSession.SettingsSaveTargetsOwnRecord |
| src/app/settings/page.tsx:95-99 with src/app/api/auth/[...nextauth]/route.ts:60-77 | after a save the page calls `update()` with the new names and resume, but the `jwt` callback copies fields only `if (user)`, which holds at sign-in alone, and ignores the update data; the session is rebuilt from the unchanged token | a user whose session first name is "Ann" saves "Anna": the session, and the settings form's default, still say "Ann" | the `jwt` callback applies the data of an `update` call, so the session shows the saved names and resume | not executed | AuthSession.SessionUpdateIgnored | AuthSession.SessionUpdateApplied |
| src/services/jobs-services.ts:2 with src/lib/api.ts:4 | the four service modules import `API_URL` from src/lib/api.ts, which declares it without `export`; the binding is undefined, so `${API_URL}` renders "undefined" | any service request, e.g. the applied-jobs list: with `NEXT_PUBLIC_API_URL` unset the library goes to `http://localhost:1337/api/jobs` and the service to `undefined/api/applications` | `export const API_URL`, so the services use the library's base | not executed; assumes a bundler that binds a missing export to undefined rather than rejecting the build | Api.ServiceBaseAsWritten | Api.ServiceBaseExported |
