/** src/services/jobs-services.ts: a second copy of the job queries of src/lib/api.ts,
    written out again with its own `set` calls. Its methods are proved to build exactly
    the requests `Api` specifies. Their `apiUrl` is the text `${API_URL}` renders to:
    `Api.ServiceBase(Api.ImportedApiUrl)`, that is "undefined", as written, and the
    library's base once the constant is exported (`Api.ServiceBaseExported`). */
module JobsServices {
  import opened Wrappers
  import opened Text
  import opened UrlQuery
  import opened QueryNames
  import opened JobTypes
  import Api

  /** The four guarded `set` calls of `fetchJobs`, each taken only for a truthy filter. */
  method SetFilters(query: SearchParams<Param>, filters: JobFilters)
    requires Api.NamesIn(query.pairs, Api.HeadNames)
    modifies query
    ensures query.pairs == old(query.pairs) + Api.Optional(TitleContains, filters.search)
                           + Api.Optional(JobTypeIs, filters.jobType) + Api.Optional(WorkplaceIs, filters.workplace)
                           + Api.Optional(SeniorityIs, filters.seniority)
  {
    Api.SetIfTruthy(query, TitleContains, filters.search, Api.HeadNames);
    Api.SetIfTruthy(query, JobTypeIs, filters.jobType, Api.HeadNames + {TitleContains});
    Api.SetIfTruthy(query, WorkplaceIs, filters.workplace, Api.HeadNames + {TitleContains, JobTypeIs});
    Api.SetIfTruthy(query, SeniorityIs, filters.seniority, Api.HeadNames + {TitleContains, JobTypeIs, WorkplaceIs});
  }

  /** `fetchJobs`, step by step; for the library's base the result is the request of `Api.FetchJobs`. */
  method FetchJobs(apiUrl: string, page: int, pageSize: int, filters: JobFilters) returns (request: Api.GetRequest)
    ensures request == Api.GetRequest(apiUrl + "/api/jobs", Api.JobsQuery(page, pageSize, filters))
  {
    var query := new SearchParams<Param>();
    query.Set(Page, Decimal(page));
    Api.SetFresh(query.pairs, {Page}, PageSize, Decimal(pageSize));
    query.Set(PageSize, Decimal(pageSize));
    Api.SetJobPopulate(query);
    SetFilters(query, filters);
    request := Api.GetRequest(apiUrl + "/api/jobs", query.pairs);
  }

  /** `fetchJobsByDocId`: the five populate parameters, nothing else. */
  method FetchJobsByDocId(apiUrl: string, documentId: string) returns (request: Api.GetRequest)
    ensures request == Api.GetRequest(apiUrl + "/api/jobs/" + documentId, Api.JobPopulate)
  {
    var query := new SearchParams<Param>();
    Api.SetJobPopulate(query);
    request := Api.GetRequest(apiUrl + "/api/jobs/" + documentId, query.pairs);
  }
}
