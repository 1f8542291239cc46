/** src/hooks/queries/useApplication.ts: the application mutation, the status query and
    the infinite applied-jobs query, as the options they hand to React Query. */
module UseApplication {
  import opened Wrappers
  import opened JobTypes
  import opened Sessions
  import opened Uploads
  import opened UseJobs
  import opened ApplicationsServices
  import Api
  import Text
  import UrlQuery
  import QueryNames

  /** The six variables of the application mutation. */
  datatype ApplicationVariables = ApplicationVariables(resume: ResumeField, interestReason: string, skills: string,
                                                       job: string, userId: Option<int>, token: Option<string>)

  /** `useCreateApplication`'s `mutationFn`: the request `createApplication` makes. */
  function MutationRequest(apiUrl: string, v: ApplicationVariables): ApplicationPost {
    CreateApplication(apiUrl, v.resume, v.interestReason, v.skills, v.job, v.userId, v.token)
  }

  /** Each variable ends up unchanged in the body or the header. */
  lemma MutationForwardsVariables(apiUrl: string, v: ApplicationVariables)
    ensures MutationRequest(apiUrl, v).data == ApplicationData(v.resume, v.interestReason, v.skills, v.job, v.userId)
    ensures MutationRequest(apiUrl, v).headers == BearerHeaders(v.token)
    ensures MutationRequest(apiUrl, v).url == apiUrl + "/api/applications"
  {
  }

  /** Query options: its key and `staleTime`. */
  datatype QueryOptions = QueryOptions(key: QueryKey, staleTime: int)

  /** `useApplicationStatus`: keyed by job and session; never served from cache as fresh. */
  function StatusQueryOptions(jobDocId: string, s: Option<Session>): QueryOptions {
    QueryOptions([Tag("application"), TextPart(jobDocId), SessionPart(s)], 0)
  }

  lemma StatusQueriesSeparate(j1: string, s1: Option<Session>, j2: string, s2: Option<Session>)
    ensures StatusQueryOptions(j1, s1).key == StatusQueryOptions(j2, s2).key <==> j1 == j2 && s1 == s2
    ensures StatusQueryOptions(j1, s1).staleTime == 0
  {
    if StatusQueryOptions(j1, s1).key == StatusQueryOptions(j2, s2).key {
      assert StatusQueryOptions(j1, s1).key[1] == StatusQueryOptions(j2, s2).key[1];
      assert StatusQueryOptions(j1, s1).key[2] == StatusQueryOptions(j2, s2).key[2];
    }
  }

  /** `['jobs-applied', token, userId]`; the status is not part of it. */
  function AppliedKey(token: string, userId: int, applicationStatus: string): QueryKey {
    [Tag("jobs-applied"), TextPart(token), NumberPart(userId)]
  }

  /** The applied list's `initialPageParam`, also the `pageParam = 1` default of its `queryFn`. */
  const AppliedInitialPageParam: int := 1

  /** The request for one applied-jobs page: `fetchJobsApplied` with page size 2, sent
      with the caller's token as bearer. */
  function AppliedPageRequest(apiUrl: string, pageParam: int, token: string, userId: int,
                              applicationStatus: string): (r: AuthorizedGet)
    ensures r.request.path == apiUrl + "/api/applications"
    ensures UrlQuery.Get(r.request.query, QueryNames.Page) == Some(Text.Decimal(pageParam))
    ensures UrlQuery.Get(r.request.query, QueryNames.PageSize) == Some("2")
    ensures r.headers == BearerHeaders(Some(token))
  {
    JobsAppliedNumbers(pageParam, JobsPageSize, userId, applicationStatus);
    assert Text.Decimal(2) == "2";
    AuthorizedGet(Api.GetRequest(apiUrl + "/api/applications",
                                 JobsAppliedQuery(pageParam, JobsPageSize, userId, applicationStatus)),
                  BearerHeaders(Some(token)))
  }

  /** Two uses that differ only in status share a cache entry, although they would
      request different pages. */
  lemma AppliedKeyIgnoresStatus(apiUrl: string, pageParam: int, token: string, userId: int, s1: string, s2: string)
    requires s1 != s2
    ensures AppliedKey(token, userId, s1) == AppliedKey(token, userId, s2)
    ensures AppliedPageRequest(apiUrl, pageParam, token, userId, s1) != AppliedPageRequest(apiUrl, pageParam, token, userId, s2)
  {
    assert AppliedPageRequest(apiUrl, pageParam, token, userId, s1).request.query[4].1 == s1;
  }

  /** The key tells apart tokens and user ids. */
  lemma AppliedKeysSeparate(t1: string, u1: int, s1: string, t2: string, u2: int, s2: string)
    ensures AppliedKey(t1, u1, s1) == AppliedKey(t2, u2, s2) <==> t1 == t2 && u1 == u2
  {
    if AppliedKey(t1, u1, s1) == AppliedKey(t2, u2, s2) {
      assert AppliedKey(t1, u1, s1)[1] == AppliedKey(t2, u2, s2)[1];
      assert AppliedKey(t1, u1, s1)[2] == AppliedKey(t2, u2, s2)[2];
    }
  }

  /** The applied-jobs `getNextPageParam`, the same rule as the job list's. */
  function AppliedNextPageParam(last: Pagination): (next: Option<int>)
    ensures next.Some? <==> last.page < last.pageCount
    ensures next.Some? ==> next.value == last.page + 1 && next.value <= last.pageCount
  {
    NextPageParam(last)
  }

  /** From its first page the applied list, like the job list, loads pages
      1, 2, ..., pageCount in order and then stops. */
  lemma AppliedPagesFromStart(pageCount: int, total: int)
    ensures AppliedInitialPageParam == InitialPageParam
    ensures forall last: Pagination :: AppliedNextPageParam(last) == NextPageParam(last)
    ensures var pages := PagesFrom(AppliedInitialPageParam, pageCount, total);
            |pages| == (if pageCount > 1 then pageCount else 1)
            && (forall i :: 0 <= i < |pages| ==> pages[i] == i + 1)
  {
    JobsPagesFromStart(pageCount, total);
  }
}
