/** src/services/applications-services.ts: the token-conditional Authorization header,
    the body of `createApplication`, the URL of `fetchApplicationStatus` and the query
    `fetchJobsApplied` builds by `append` calls. Requests are returned, not sent. The
    `apiUrl` parameters are the text `${API_URL}` renders to, `Api.ServiceBase` of the
    imported binding (see `Api.ServiceBaseAsWritten`). */
module ApplicationsServices {
  import opened Wrappers
  import opened Text
  import opened UrlQuery
  import opened QueryNames
  import opened Sessions
  import opened Uploads
  import Api

  /** `token ? { Authorization: `Bearer ${token}` } : {}`. */
  function BearerHeaders(token: Option<string>): (h: seq<Header>)
    ensures Truthy(token) ==> h == [("Authorization", "Bearer " + token.value)]
    ensures !Truthy(token) ==> h == []
  {
    if Truthy(token) then [("Authorization", "Bearer " + token.value)] else []
  }

  /** `fetchApplicationStatus`'s rule: a header whenever there is a session, carrying
      whatever `session?.jwt` renders as. */
  function StatusHeaders(s: Option<Session>): (h: seq<Header>)
    ensures s.Some? ==> h == [("Authorization", "Bearer " + JsText(SessionJwt(s)))]
    ensures s.None? ==> h == []
  {
    if s.Some? then [("Authorization", "Bearer " + JsText(SessionJwt(s)))] else []
  }

  /** The two header rules agree on a session with a non-empty jwt; a session without
      one still gets a header ("Bearer undefined" or "Bearer "), where the token rule
      sends none. */
  lemma HeaderRulesCompared(s: Option<Session>)
    ensures s.Some? && Truthy(SessionJwt(s)) ==> StatusHeaders(s) == BearerHeaders(SessionJwt(s))
    ensures s.Some? && !Truthy(SessionJwt(s)) ==> BearerHeaders(SessionJwt(s)) == [] && |StatusHeaders(s)| == 1
    ensures s.Some? && SessionJwt(s).None? ==> StatusHeaders(s) == [("Authorization", "Bearer " + "undefined")]
    ensures s.None? ==> StatusHeaders(s) == [] && BearerHeaders(SessionJwt(s)) == []
  {
  }

  /** The `data` object of an application: exactly these five fields. */
  datatype ApplicationData = ApplicationData(resume: ResumeField, interestReason: string, skills: string,
                                             job: string, user: Option<int>)

  datatype ApplicationPost = ApplicationPost(url: string, data: ApplicationData, headers: seq<Header>)

  /** `createApplication`: the body forwards its five inputs, with `userId` as `user`. */
  function CreateApplication(apiUrl: string, resume: ResumeField, interestReason: string, skills: string,
                             job: string, userId: Option<int>, token: Option<string>): (r: ApplicationPost)
    ensures r.url == apiUrl + "/api/applications"
    ensures r.data.resume == resume && r.data.interestReason == interestReason && r.data.skills == skills
    ensures r.data.job == job && r.data.user == userId
    ensures r.headers == BearerHeaders(token)
  {
    ApplicationPost(apiUrl + "/api/applications", ApplicationData(resume, interestReason, skills, job, userId),
                    BearerHeaders(token))
  }

  const JobDocFilter := "filters[job][documentId][$eq]="
  const UserIdFilter := "filters[user][id][$eq]="

  /** The query text of `fetchApplicationStatus`, written out by hand: both values are
      pasted in as they are, without encoding. */
  function StatusQuery(jobDocId: string, s: Option<Session>): string {
    Join("&", [JobDocFilter + jobDocId, UserIdFilter + JsNumberText(UserId(s))])
  }

  /** A GET with headers, its URL given as text. */
  datatype TextGet = TextGet(url: string, headers: seq<Header>)

  function FetchApplicationStatus(apiUrl: string, jobDocId: string, s: Option<Session>): (r: TextGet)
    ensures r.url == apiUrl + "/api/applications?" + StatusQuery(jobDocId, s)
    ensures r.headers == StatusHeaders(s)
  {
    TextGet(apiUrl + "/api/applications?" + StatusQuery(jobDocId, s), StatusHeaders(s))
  }

  lemma DecimalHasNoAmpersand(t: string)
    requires IsDecimal(t)
    ensures '&' !in t
  {
    assert t == [t[0]] + t[1..];
    if t[0] != '-' {
      assert forall k :: 0 <= k < |t| ==> '0' <= t[k] <= '9';
    } else {
      assert forall k :: 0 <= k < |t[1..]| ==> '0' <= t[1..][k] <= '9';
    }
  }

  lemma FilterNamesHaveNoAmpersand()
    ensures '&' !in JobDocFilter && '&' !in UserIdFilter && '&' !in "undefined"
  {
  }

  /** The user id renders without an ampersand, whether it is a number or missing. */
  lemma UserIdTextHasNoAmpersand(s: Option<Session>)
    ensures '&' !in JsNumberText(UserId(s))
  {
    if UserId(s).Some? {
      DecimalHasNoAmpersand(JsNumberText(UserId(s)));
    }
  }

  /** With no `&` in the job id, the query splits at `&` into the job filter carrying the
      id verbatim and the user filter carrying the session user's id ("undefined" when
      there is none). */
  lemma StatusQueryParts(jobDocId: string, s: Option<Session>)
    requires '&' !in jobDocId
    ensures Split(StatusQuery(jobDocId, s), "&") == [JobDocFilter + jobDocId, UserIdFilter + JsNumberText(UserId(s))]
    ensures UserId(s).None? ==> Split(StatusQuery(jobDocId, s), "&")[1] == UserIdFilter + "undefined"
  {
    var a := JobDocFilter + jobDocId;
    var b := UserIdFilter + JsNumberText(UserId(s));
    FilterNamesHaveNoAmpersand();
    UserIdTextHasNoAmpersand(s);
    NoOccurrenceWithoutLead(a, "&");
    NoOccurrenceWithoutLead(b, "&");
    SplitJoin([a, b], "&");
  }

  /** The parameters of `fetchJobsApplied`, in `append` order. */
  function JobsAppliedQuery(page: int, pageSize: int, userId: int, applicationStatus: string): seq<Pair<Param>> {
    [(PopulateJobCompanyLogoUrl, "url"), (Page, Decimal(page)), (PageSize, Decimal(pageSize)),
     (UserIdIs, Decimal(userId)), (ApplicationStatusIs, applicationStatus)]
  }

  /** A GET with headers. */
  datatype AuthorizedGet = AuthorizedGet(request: Api.GetRequest, headers: seq<Header>)

  /** `fetchJobsApplied`, by successive `append` calls. */
  method FetchJobsApplied(apiUrl: string, page: int, pageSize: int, token: Option<string>, userId: int,
                          applicationStatus: string) returns (r: AuthorizedGet)
    ensures r == AuthorizedGet(Api.GetRequest(apiUrl + "/api/applications",
                                              JobsAppliedQuery(page, pageSize, userId, applicationStatus)),
                               BearerHeaders(token))
  {
    var headers := BearerHeaders(token);
    var query := new SearchParams<Param>();
    query.Append(PopulateJobCompanyLogoUrl, "url");
    query.Append(Page, Decimal(page));
    query.Append(PageSize, Decimal(pageSize));
    query.Append(UserIdIs, Decimal(userId));
    query.Append(ApplicationStatusIs, applicationStatus);
    r := AuthorizedGet(Api.GetRequest(apiUrl + "/api/applications", query.pairs), headers);
  }

  /** The names come in the order logo-url populate, page, page size, user, status, each
      once. */
  lemma JobsAppliedOrder(page: int, pageSize: int, userId: int, applicationStatus: string)
    ensures var q := JobsAppliedQuery(page, pageSize, userId, applicationStatus);
            |q| == 5 && q[0].0 == PopulateJobCompanyLogoUrl && q[1].0 == Page && q[2].0 == PageSize
            && q[3].0 == UserIdIs && q[4].0 == ApplicationStatusIs
    ensures DistinctKeys(JobsAppliedQuery(page, pageSize, userId, applicationStatus))
  {
  }

  /** The status filter is sent whatever its value, the empty string included. */
  lemma JobsAppliedStatusAlwaysSent(page: int, pageSize: int, userId: int, applicationStatus: string)
    ensures Get(JobsAppliedQuery(page, pageSize, userId, applicationStatus), ApplicationStatusIs) == Some(applicationStatus)
  {
    FirstIndexAt(JobsAppliedQuery(page, pageSize, userId, applicationStatus), ApplicationStatusIs, 4);
  }

  /** The three numbers are sent as decimal text that reads back as the numbers. */
  lemma JobsAppliedNumbers(page: int, pageSize: int, userId: int, applicationStatus: string)
    ensures Get(JobsAppliedQuery(page, pageSize, userId, applicationStatus), Page) == Some(Decimal(page))
            && ParseDecimal(Get(JobsAppliedQuery(page, pageSize, userId, applicationStatus), Page).value) == page
    ensures Get(JobsAppliedQuery(page, pageSize, userId, applicationStatus), PageSize) == Some(Decimal(pageSize))
            && ParseDecimal(Get(JobsAppliedQuery(page, pageSize, userId, applicationStatus), PageSize).value) == pageSize
    ensures Get(JobsAppliedQuery(page, pageSize, userId, applicationStatus), UserIdIs) == Some(Decimal(userId))
            && ParseDecimal(Get(JobsAppliedQuery(page, pageSize, userId, applicationStatus), UserIdIs).value) == userId
  {
    var q := JobsAppliedQuery(page, pageSize, userId, applicationStatus);
    FirstIndexAt(q, Page, 1);
    FirstIndexAt(q, PageSize, 2);
    FirstIndexAt(q, UserIdIs, 3);
    DecimalRoundTrip(page);
    DecimalRoundTrip(pageSize);
    DecimalRoundTrip(userId);
  }
}
