/** Query construction in src/lib/api.ts: the API base URL, and the parameter lists
    `fetchJobs`, `fetchJobsByDocId` and `fetchCompanyByDocId` build with
    `URLSearchParams.set` before their GET requests. The request itself is not made:
    each method returns the path and the ordered parameter list it would send. */
module Api {
  import opened Wrappers
  import opened Text
  import opened UrlQuery
  import opened QueryNames
  import opened JobTypes
  import Sessions

  const DefaultApiUrl := "http://localhost:1337"

  /** `process.env.NEXT_PUBLIC_API_URL || 'http://localhost:1337'`. */
  function ApiUrl(env: Option<string>): (url: string)
    ensures Truthy(env) ==> url == env.value
    ensures !Truthy(env) ==> url == DefaultApiUrl
    ensures url != ""
  {
    if Truthy(env) then env.value else DefaultApiUrl
  }

  /** What `import { API_URL } from '@/lib/api'` binds in the service modules. The
      constant at src/lib/api.ts:4 is declared without `export`, so the binding is
      undefined wherever the build lets the import through. */
  const ImportedApiUrl: Option<string> := None

  /** The binding with the constant exported: the truthy env value or the default. */
  function ExportedApiUrl(env: Option<string>): Option<string> {
    Some(ApiUrl(env))
  }

  /** The text `${API_URL}` contributes to a service's URL template. */
  function ServiceBase(imported: Option<string>): (base: string)
    ensures imported.Some? ==> base == imported.value
    ensures imported.None? ==> base == "undefined"
  {
    Sessions.JsText(imported)
  }

  /** As written, every service URL starts with "undefined", not with the API base: with no
      env value the library goes to localhost and the services do not. */
  lemma ServiceBaseAsWritten()
    ensures ServiceBase(ImportedApiUrl) == "undefined"
    ensures ServiceBase(ImportedApiUrl) != ApiUrl(None)
    ensures ServiceBase(ImportedApiUrl) + "/api/jobs" == "undefined/api/jobs"
  {
  }

  /** With the constant exported, the services use the library's base. */
  lemma ServiceBaseExported(env: Option<string>)
    ensures ServiceBase(ExportedApiUrl(env)) == ApiUrl(env)
    ensures !Truthy(env) ==> ServiceBase(ExportedApiUrl(env)) == DefaultApiUrl
  {
  }

  /** A GET request: the URL up to `?`, and the query parameters in order. */
  datatype GetRequest = GetRequest(path: string, query: seq<Pair<Param>>)

  /** The five `populate` parameters that make a job response carry its lists and its
      company's logo. */
  const JobPopulate: seq<Pair<Param>> :=
    [ (PopulateBenefits, "true"), (PopulateAboutRole, "true"), (PopulateWhatWeDo, "true"),
      (PopulateWaysToWork, "true"), (PopulateCompanyLogo, "logo") ]

  /** A parameter that is set only when the filter value is truthy. */
  function Optional(key: Param, value: Option<string>): (ps: seq<Pair<Param>>)
    ensures Truthy(value) ==> ps == [(key, value.value)]
    ensures !Truthy(value) ==> ps == []
  {
    if Truthy(value) then [(key, value.value)] else []
  }

  /** The pagination and populate parameters of `fetchJobs`. */
  function JobsHead(page: int, pageSize: int): seq<Pair<Param>> {
    [(Page, Decimal(page)), (PageSize, Decimal(pageSize))] + JobPopulate
  }

  /** The parameters `fetchJobs` sends, as a list: pagination, the populate keys, then
      each filter that is truthy. */
  function JobsQuery(page: int, pageSize: int, filters: JobFilters): seq<Pair<Param>> {
    JobsHead(page, pageSize)
    + Optional(TitleContains, filters.search) + Optional(JobTypeIs, filters.jobType)
    + Optional(WorkplaceIs, filters.workplace) + Optional(SeniorityIs, filters.seniority)
  }

  /** Every name in `ps` is one of `used`. */
  predicate NamesIn(ps: seq<Pair<Param>>, used: set<Param>) {
    forall i :: 0 <= i < |ps| ==> ps[i].0 in used
  }

  /** `set` of a name not used yet appends it. */
  lemma SetFresh(ps: seq<Pair<Param>>, used: set<Param>, name: Param, value: string)
    requires NamesIn(ps, used) && name !in used
    ensures SetPairs(ps, name, value) == ps + [(name, value)]
    ensures NamesIn(ps + [(name, value)], used + {name})
  {
  }

  /** The five `populate` calls `fetchJobs` and `fetchJobsByDocId` both make. */
  method SetJobPopulate(query: SearchParams<Param>)
    requires NamesIn(query.pairs, {Page, PageSize})
    modifies query
    ensures query.pairs == old(query.pairs) + JobPopulate
    ensures NamesIn(query.pairs, {Page, PageSize, PopulateBenefits, PopulateAboutRole, PopulateWhatWeDo,
                                  PopulateWaysToWork, PopulateCompanyLogo})
  {
    SetFresh(query.pairs, {Page, PageSize}, PopulateBenefits, "true");
    query.Set(PopulateBenefits, "true");
    SetFresh(query.pairs, {Page, PageSize, PopulateBenefits}, PopulateAboutRole, "true");
    query.Set(PopulateAboutRole, "true");
    SetFresh(query.pairs, {Page, PageSize, PopulateBenefits, PopulateAboutRole}, PopulateWhatWeDo, "true");
    query.Set(PopulateWhatWeDo, "true");
    SetFresh(query.pairs, {Page, PageSize, PopulateBenefits, PopulateAboutRole, PopulateWhatWeDo},
             PopulateWaysToWork, "true");
    query.Set(PopulateWaysToWork, "true");
    SetFresh(query.pairs, {Page, PageSize, PopulateBenefits, PopulateAboutRole, PopulateWhatWeDo, PopulateWaysToWork},
             PopulateCompanyLogo, "logo");
    query.Set(PopulateCompanyLogo, "logo");
  }

  /** One `if (filters.x) { query.set(key, filters.x); }` step, for a name not used yet. */
  method SetIfTruthy(query: SearchParams<Param>, key: Param, value: Option<string>, ghost used: set<Param>)
    requires NamesIn(query.pairs, used) && key !in used
    modifies query
    ensures query.pairs == old(query.pairs) + Optional(key, value)
    ensures NamesIn(query.pairs, used + {key})
  {
    if Truthy(value) {
      SetFresh(query.pairs, used, key, value.value);
      query.Set(key, value.value);
    }
  }

  /** The names `fetchJobs` has set before it looks at the filters. */
  const HeadNames: set<Param> := {Page, PageSize, PopulateBenefits, PopulateAboutRole, PopulateWhatWeDo,
                                  PopulateWaysToWork, PopulateCompanyLogo}

  /** The first seven `set` calls of `fetchJobs`, on a new `URLSearchParams`. */
  method NewJobsQuery(page: int, pageSize: int) returns (query: SearchParams<Param>)
    ensures fresh(query)
    ensures query.pairs == JobsHead(page, pageSize)
    ensures NamesIn(query.pairs, HeadNames)
  {
    query := new SearchParams<Param>();
    query.Set(Page, Decimal(page));
    SetFresh(query.pairs, {Page}, PageSize, Decimal(pageSize));
    query.Set(PageSize, Decimal(pageSize));
    SetJobPopulate(query);
  }

  /** `fetchJobs`: the query built by successive `set` calls is `JobsQuery`. */
  method FetchJobs(env: Option<string>, page: int, pageSize: int, filters: JobFilters) returns (request: GetRequest)
    ensures request == GetRequest(ApiUrl(env) + "/api/jobs", JobsQuery(page, pageSize, filters))
  {
    var query := NewJobsQuery(page, pageSize);
    ghost var used := HeadNames;
    SetIfTruthy(query, TitleContains, filters.search, used);
    SetIfTruthy(query, JobTypeIs, filters.jobType, used + {TitleContains});
    SetIfTruthy(query, WorkplaceIs, filters.workplace, used + {TitleContains, JobTypeIs});
    SetIfTruthy(query, SeniorityIs, filters.seniority, used + {TitleContains, JobTypeIs, WorkplaceIs});
    assert query.pairs == JobsQuery(page, pageSize, filters);
    request := GetRequest(ApiUrl(env) + "/api/jobs", query.pairs);
  }

  /** `fetchJobsByDocId`: the five populate parameters only. */
  method FetchJobsByDocId(env: Option<string>, documentId: string) returns (request: GetRequest)
    ensures request == GetRequest(ApiUrl(env) + "/api/jobs/" + documentId, JobPopulate)
  {
    var query := new SearchParams<Param>();
    SetJobPopulate(query);
    request := GetRequest(ApiUrl(env) + "/api/jobs/" + documentId, query.pairs);
  }

  /** `fetchCompanyByDocId`: the single parameter `populate=*`. */
  method FetchCompanyByDocId(env: Option<string>, documentId: string) returns (request: GetRequest)
    ensures request == GetRequest(ApiUrl(env) + "/api/companies/" + documentId, [(PopulateAll, "*")])
  {
    var query := new SearchParams<Param>();
    query.Set(PopulateAll, "*");
    request := GetRequest(ApiUrl(env) + "/api/companies/" + documentId, query.pairs);
  }

  /** Names that do not occur in a list. */
  predicate Absent(ps: seq<Pair<Param>>, key: Param) {
    forall i :: 0 <= i < |ps| ==> ps[i].0 != key
  }

  /** Reading back an optional parameter whose name occurs nowhere else. */
  lemma GetOptional(front: seq<Pair<Param>>, key: Param, value: Option<string>, back: seq<Pair<Param>>)
    requires Absent(front, key) && Absent(back, key)
    ensures Get(front + Optional(key, value) + back, key) == if Truthy(value) then Some(value.value) else None
  {
    GetAppend(front, Optional(key, value), key);
    GetAppend(front + Optional(key, value), back, key);
  }

  /** The page and page size are sent in decimal and read back as the numbers given. */
  lemma JobsQueryPagination(page: int, pageSize: int, filters: JobFilters)
    ensures Get(JobsQuery(page, pageSize, filters), Page) == Some(Decimal(page))
    ensures Get(JobsQuery(page, pageSize, filters), PageSize) == Some(Decimal(pageSize))
    ensures ParseDecimal(Get(JobsQuery(page, pageSize, filters), Page).value) == page
    ensures ParseDecimal(Get(JobsQuery(page, pageSize, filters), PageSize).value) == pageSize
  {
    FirstIndexAt(JobsQuery(page, pageSize, filters), PageSize, 1);
    DecimalRoundTrip(page);
    DecimalRoundTrip(pageSize);
  }

  /** No filter name is among them. */
  lemma JobsHeadHasNoFilter(page: int, pageSize: int, key: Param)
    requires key in {TitleContains, JobTypeIs, WorkplaceIs, SeniorityIs}
    ensures Absent(JobsHead(page, pageSize), key)
  {
  }

  lemma OptionalAbsent(key: Param, value: Option<string>, other: Param)
    requires key != other
    ensures Absent(Optional(key, value), other)
  {
  }

  lemma AbsentConcat(ps: seq<Pair<Param>>, qs: seq<Pair<Param>>, key: Param)
    requires Absent(ps, key) && Absent(qs, key)
    ensures Absent(ps + qs, key)
  {
  }

  /** The title filter, the first of the four. */
  lemma TitleFilterSent(page: int, pageSize: int, filters: JobFilters)
    ensures Get(JobsQuery(page, pageSize, filters), TitleContains)
            == if Truthy(filters.search) then Some(filters.search.value) else None
  {
    var h := JobsHead(page, pageSize);
    var t := Optional(TitleContains, filters.search);
    var j := Optional(JobTypeIs, filters.jobType);
    var w := Optional(WorkplaceIs, filters.workplace);
    var s := Optional(SeniorityIs, filters.seniority);
    assert JobsQuery(page, pageSize, filters) == h + t + (j + w + s);
    JobsHeadHasNoFilter(page, pageSize, TitleContains);
    OptionalAbsent(JobTypeIs, filters.jobType, TitleContains);
    OptionalAbsent(WorkplaceIs, filters.workplace, TitleContains);
    OptionalAbsent(SeniorityIs, filters.seniority, TitleContains);
    AbsentConcat(j, w, TitleContains);
    AbsentConcat(j + w, s, TitleContains);
    GetOptional(h, TitleContains, filters.search, j + w + s);
  }

  lemma JobTypeFilterSent(page: int, pageSize: int, filters: JobFilters)
    ensures Get(JobsQuery(page, pageSize, filters), JobTypeIs)
            == if Truthy(filters.jobType) then Some(filters.jobType.value) else None
  {
    var h := JobsHead(page, pageSize);
    var t := Optional(TitleContains, filters.search);
    var j := Optional(JobTypeIs, filters.jobType);
    var w := Optional(WorkplaceIs, filters.workplace);
    var s := Optional(SeniorityIs, filters.seniority);
    assert JobsQuery(page, pageSize, filters) == (h + t) + j + (w + s);
    JobsHeadHasNoFilter(page, pageSize, JobTypeIs);
    OptionalAbsent(TitleContains, filters.search, JobTypeIs);
    OptionalAbsent(WorkplaceIs, filters.workplace, JobTypeIs);
    OptionalAbsent(SeniorityIs, filters.seniority, JobTypeIs);
    AbsentConcat(h, t, JobTypeIs);
    AbsentConcat(w, s, JobTypeIs);
    GetOptional(h + t, JobTypeIs, filters.jobType, w + s);
  }

  lemma WorkplaceFilterSent(page: int, pageSize: int, filters: JobFilters)
    ensures Get(JobsQuery(page, pageSize, filters), WorkplaceIs)
            == if Truthy(filters.workplace) then Some(filters.workplace.value) else None
  {
    var h := JobsHead(page, pageSize);
    var t := Optional(TitleContains, filters.search);
    var j := Optional(JobTypeIs, filters.jobType);
    var w := Optional(WorkplaceIs, filters.workplace);
    var s := Optional(SeniorityIs, filters.seniority);
    assert JobsQuery(page, pageSize, filters) == (h + t + j) + w + s;
    JobsHeadHasNoFilter(page, pageSize, WorkplaceIs);
    OptionalAbsent(TitleContains, filters.search, WorkplaceIs);
    OptionalAbsent(JobTypeIs, filters.jobType, WorkplaceIs);
    OptionalAbsent(SeniorityIs, filters.seniority, WorkplaceIs);
    AbsentConcat(h, t, WorkplaceIs);
    AbsentConcat(h + t, j, WorkplaceIs);
    GetOptional(h + t + j, WorkplaceIs, filters.workplace, s);
  }

  lemma SeniorityFilterSent(page: int, pageSize: int, filters: JobFilters)
    ensures Get(JobsQuery(page, pageSize, filters), SeniorityIs)
            == if Truthy(filters.seniority) then Some(filters.seniority.value) else None
  {
    var h := JobsHead(page, pageSize);
    var t := Optional(TitleContains, filters.search);
    var j := Optional(JobTypeIs, filters.jobType);
    var w := Optional(WorkplaceIs, filters.workplace);
    var s := Optional(SeniorityIs, filters.seniority);
    assert JobsQuery(page, pageSize, filters) == (h + t + j + w) + s + [];
    JobsHeadHasNoFilter(page, pageSize, SeniorityIs);
    OptionalAbsent(TitleContains, filters.search, SeniorityIs);
    OptionalAbsent(JobTypeIs, filters.jobType, SeniorityIs);
    OptionalAbsent(WorkplaceIs, filters.workplace, SeniorityIs);
    AbsentConcat(h, t, SeniorityIs);
    AbsentConcat(h + t, j, SeniorityIs);
    AbsentConcat(h + t + j, w, SeniorityIs);
    GetOptional(h + t + j + w, SeniorityIs, filters.seniority, []);
  }

  /** Each filter is sent exactly when its value is truthy, and then with that value. */
  lemma JobsQueryFilters(page: int, pageSize: int, filters: JobFilters)
    ensures Get(JobsQuery(page, pageSize, filters), TitleContains)
            == if Truthy(filters.search) then Some(filters.search.value) else None
    ensures Get(JobsQuery(page, pageSize, filters), JobTypeIs)
            == if Truthy(filters.jobType) then Some(filters.jobType.value) else None
    ensures Get(JobsQuery(page, pageSize, filters), WorkplaceIs)
            == if Truthy(filters.workplace) then Some(filters.workplace.value) else None
    ensures Get(JobsQuery(page, pageSize, filters), SeniorityIs)
            == if Truthy(filters.seniority) then Some(filters.seniority.value) else None
  {
    TitleFilterSent(page, pageSize, filters);
    JobTypeFilterSent(page, pageSize, filters);
    WorkplaceFilterSent(page, pageSize, filters);
    SeniorityFilterSent(page, pageSize, filters);
  }

  /** Appending an optional parameter with a fresh name keeps the names distinct. */
  lemma DistinctOptional(ps: seq<Pair<Param>>, key: Param, value: Option<string>)
    requires DistinctKeys(ps) && Absent(ps, key)
    ensures DistinctKeys(ps + Optional(key, value))
  {
  }

  /** Every parameter of `fetchJobs` is sent at most once. */
  lemma JobsQueryDistinct(page: int, pageSize: int, filters: JobFilters)
    ensures DistinctKeys(JobsQuery(page, pageSize, filters))
  {
    var head := JobsHead(page, pageSize);
    var t := Optional(TitleContains, filters.search);
    var j := Optional(JobTypeIs, filters.jobType);
    var w := Optional(WorkplaceIs, filters.workplace);
    assert DistinctKeys(head + t) by {
      assert DistinctKeys(head);
      JobsHeadHasNoFilter(page, pageSize, TitleContains);
      DistinctOptional(head, TitleContains, filters.search);
    }
    assert DistinctKeys(head + t + j) by {
      JobsHeadHasNoFilter(page, pageSize, JobTypeIs);
      OptionalAbsent(TitleContains, filters.search, JobTypeIs);
      AbsentConcat(head, t, JobTypeIs);
      DistinctOptional(head + t, JobTypeIs, filters.jobType);
    }
    assert DistinctKeys(head + t + j + w) by {
      JobsHeadHasNoFilter(page, pageSize, WorkplaceIs);
      OptionalAbsent(TitleContains, filters.search, WorkplaceIs);
      OptionalAbsent(JobTypeIs, filters.jobType, WorkplaceIs);
      AbsentConcat(head, t, WorkplaceIs);
      AbsentConcat(head + t, j, WorkplaceIs);
      DistinctOptional(head + t + j, WorkplaceIs, filters.workplace);
    }
    assert DistinctKeys(head + t + j + w + Optional(SeniorityIs, filters.seniority)) by {
      JobsHeadHasNoFilter(page, pageSize, SeniorityIs);
      OptionalAbsent(TitleContains, filters.search, SeniorityIs);
      OptionalAbsent(JobTypeIs, filters.jobType, SeniorityIs);
      OptionalAbsent(WorkplaceIs, filters.workplace, SeniorityIs);
      AbsentConcat(head, t, SeniorityIs);
      AbsentConcat(head + t, j, SeniorityIs);
      AbsentConcat(head + t + j, w, SeniorityIs);
      DistinctOptional(head + t + j + w, SeniorityIs, filters.seniority);
    }
  }

  /** `fetchJobs` sends the same populate parameters as `fetchJobsByDocId`, right after
      the pagination, and one parameter per truthy filter after them. */
  lemma JobsQueryLayout(page: int, pageSize: int, filters: JobFilters)
    ensures JobsQuery(page, pageSize, filters)[2..7] == JobPopulate
    ensures |JobsQuery(page, pageSize, filters)|
            == 7 + |Optional(TitleContains, filters.search)| + |Optional(JobTypeIs, filters.jobType)|
               + |Optional(WorkplaceIs, filters.workplace)| + |Optional(SeniorityIs, filters.seniority)|
  {
  }

  /** `fetchJobsByDocId` and `fetchCompanyByDocId` send no pagination and no filters. */
  lemma DocIdQueriesHaveNoPaginationOrFilters(key: Param)
    requires key in {Page, PageSize, TitleContains, JobTypeIs, WorkplaceIs, SeniorityIs}
    ensures Get(JobPopulate, key) == None
    ensures Get([(PopulateAll, "*")], key) == None
  {
  }

  /** Every parameter of `fetchJobsByDocId` is sent once. */
  lemma JobPopulateDistinct()
    ensures DistinctKeys(JobPopulate)
    ensures |JobPopulate| == 5
  {
  }
}
