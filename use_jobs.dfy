/** src/hooks/useJobs.ts: the infinite job-list query and the single-job query, as the
    options they hand to React Query: the key, the request each page makes, the
    next-page rule and the enable condition. */
module UseJobs {
  import opened Wrappers
  import opened JobTypes
  import opened Sessions
  import Api
  import Text
  import UrlQuery
  import QueryNames

  /** One element of a query key array. */
  datatype KeyPart = Tag(name: string) | FiltersPart(filters: JobFilters) | TextPart(text: string)
                   | NumberPart(n: int) | SessionPart(session: Option<Session>)

  type QueryKey = seq<KeyPart>

  const InitialPageParam: int := 1
  const JobsPageSize: int := 2

  /** `['jobs', filters]`. */
  function JobsKey(filters: JobFilters): QueryKey {
    [Tag("jobs"), FiltersPart(filters)]
  }

  /** Different filters are different queries. */
  lemma JobsKeysSeparate(f: JobFilters, g: JobFilters)
    ensures JobsKey(f) == JobsKey(g) <==> f == g
  {
    if JobsKey(f) == JobsKey(g) {
      assert JobsKey(f)[1] == JobsKey(g)[1];
    }
  }

  /** The request for one page: `fetchJobs` with page size 2. */
  function JobsPageRequest(env: Option<string>, pageParam: int, filters: JobFilters): (r: Api.GetRequest)
    ensures r.path == Api.ApiUrl(env) + "/api/jobs"
    ensures UrlQuery.Get(r.query, QueryNames.Page) == Some(Text.Decimal(pageParam))
    ensures UrlQuery.Get(r.query, QueryNames.PageSize) == Some("2")
  {
    Api.JobsQueryPagination(pageParam, JobsPageSize, filters);
    assert Text.Decimal(2) == "2";
    Api.GetRequest(Api.ApiUrl(env) + "/api/jobs", Api.JobsQuery(pageParam, JobsPageSize, filters))
  }

  /** `getNextPageParam`: the page after the last one received, while there is one. */
  function NextPageParam(last: Pagination): (next: Option<int>)
    ensures next.Some? <==> last.page < last.pageCount
    ensures next.Some? ==> next.value == last.page + 1
    ensures next.Some? ==> last.page < next.value <= last.pageCount
  {
    if last.page < last.pageCount then Some(last.page + 1) else None
  }

  /** The pages fetched from `page` on, when every answer reports the page asked for and
      the same `pageCount`. */
  function PagesFrom(page: int, pageCount: int, total: int): seq<int>
    decreases pageCount - page
  {
    match NextPageParam(Pagination(page, JobsPageSize, pageCount, total))
    case None => [page]
    case Some(next) => [page] + PagesFrom(next, pageCount, total)
  }

  /** From `page`, the hook asks for `page`, `page + 1`, ... up to `pageCount` (just
      `page` when that is already the last), each once, in rising order. */
  lemma {:induction false} PagesFromCounts(page: int, pageCount: int, total: int)
    ensures |PagesFrom(page, pageCount, total)| == if page < pageCount then pageCount - page + 1 else 1
    ensures forall i :: 0 <= i < |PagesFrom(page, pageCount, total)| ==> PagesFrom(page, pageCount, total)[i] == page + i
    decreases pageCount - page
  {
    if page < pageCount {
      PagesFromCounts(page + 1, pageCount, total);
      var r := PagesFrom(page, pageCount, total);
      assert r == [page] + PagesFrom(page + 1, pageCount, total);
      forall i | 0 < i < |r| ensures r[i] == page + i {
        assert r[i] == PagesFrom(page + 1, pageCount, total)[i - 1];
      }
    }
  }

  /** Starting from the initial page 1 the hook visits pages 1 to `pageCount`, and only
      page 1 when there are no more. */
  lemma JobsPagesFromStart(pageCount: int, total: int)
    ensures var pages := PagesFrom(InitialPageParam, pageCount, total);
            |pages| == (if pageCount > 1 then pageCount else 1)
            && (forall i :: 0 <= i < |pages| ==> pages[i] == i + 1)
  {
    PagesFromCounts(InitialPageParam, pageCount, total);
  }

  /** `useJob`'s key, `['job', documentId]`. */
  function JobKey(documentId: string): QueryKey {
    [Tag("job"), TextPart(documentId)]
  }

  /** `enabled: !!documentId`, and the request the enabled query makes. */
  function JobQuery(env: Option<string>, documentId: string): (r: Option<Api.GetRequest>)
    ensures r.Some? <==> documentId != ""
    ensures r.Some? ==> r.value == Api.GetRequest(Api.ApiUrl(env) + "/api/jobs/" + documentId, Api.JobPopulate)
  {
    if documentId != "" then Some(Api.GetRequest(Api.ApiUrl(env) + "/api/jobs/" + documentId, Api.JobPopulate)) else None
  }
}
