/** The fixed query-parameter names the request builders send (src/lib/api.ts,
    src/services/jobs-services.ts, src/services/applications-services.ts). A parameter list
    is kept over this datatype; `Name` gives the literal name that goes on the wire. */
module QueryNames {
  import opened UrlQuery

  datatype Param =
    | Page | PageSize
    | PopulateBenefits | PopulateAboutRole | PopulateWhatWeDo | PopulateWaysToWork | PopulateCompanyLogo
    | TitleContains | JobTypeIs | WorkplaceIs | SeniorityIs
    | PopulateAll
    | PopulateJobCompanyLogoUrl | UserIdIs | ApplicationStatusIs

  function Name(p: Param): string {
    match p
    case Page => "pagination[page]"
    case PageSize => "pagination[pageSize]"
    case PopulateBenefits => "populate[benefits]"
    case PopulateAboutRole => "populate[aboutRole]"
    case PopulateWhatWeDo => "populate[whatWeDo]"
    case PopulateWaysToWork => "populate[waysToWork]"
    case PopulateCompanyLogo => "populate[company][populate]"
    case TitleContains => "filters[jobTitle][$containsi]"
    case JobTypeIs => "filters[jobType][$eq]"
    case WorkplaceIs => "filters[workplace][$eq]"
    case SeniorityIs => "filters[seniority][$eq]"
    case PopulateAll => "populate"
    case PopulateJobCompanyLogoUrl => "populate[job][populate][company][populate][logo][fields][]"
    case UserIdIs => "filters[user][id][$eq]"
    case ApplicationStatusIs => "filters[applicationStatus][$eq]"
  }

  /** Different parameters have different names, so a list over `Param` behaves under
      `set`, `get` and `append` exactly as the list of their names would. */
  lemma NameInjective(p: Param, q: Param)
    requires Name(p) == Name(q)
    ensures p == q
  {
    if p.Page? || p.PageSize? || p.PopulateBenefits? || p.PopulateAboutRole? || p.PopulateWhatWeDo? {
      NamesDifferFirst(p, q);
    } else if p.PopulateWaysToWork? || p.PopulateCompanyLogo? || p.TitleContains? || p.JobTypeIs? || p.WorkplaceIs? {
      NamesDifferMiddle(p, q);
    } else {
      NamesDifferLast(p, q);
    }
  }

  lemma NamesDifferFirst(p: Param, q: Param)
    requires p.Page? || p.PageSize? || p.PopulateBenefits? || p.PopulateAboutRole? || p.PopulateWhatWeDo?
    requires Name(p) == Name(q)
    ensures p == q
  {
  }

  lemma NamesDifferMiddle(p: Param, q: Param)
    requires p.PopulateWaysToWork? || p.PopulateCompanyLogo? || p.TitleContains? || p.JobTypeIs? || p.WorkplaceIs?
    requires Name(p) == Name(q)
    ensures p == q
  {
  }

  lemma NamesDifferLast(p: Param, q: Param)
    requires p.SeniorityIs? || p.PopulateAll? || p.PopulateJobCompanyLogoUrl? || p.UserIdIs? || p.ApplicationStatusIs?
    requires Name(p) == Name(q)
    ensures p == q
  {
  }

  /** The list as sent: each parameter replaced by its name, in order. */
  function Wire(ps: seq<Pair<Param>>): (w: seq<(string, string)>)
    ensures |w| == |ps|
    ensures forall i :: 0 <= i < |ps| ==> w[i] == (Name(ps[i].0), ps[i].1)
  {
    seq(|ps|, i requires 0 <= i < |ps| => (Name(ps[i].0), ps[i].1))
  }

  /** Looking a name up in the sent list finds what looking its parameter up in the model
      finds, so every `Get` fact about a parameter list holds of the literal names. */
  lemma {:induction false} WireGet(ps: seq<Pair<Param>>, p: Param)
    ensures Get(Wire(ps), Name(p)) == Get(ps, p)
    decreases |ps|
  {
    if ps != [] {
      WireGet(ps[1..], p);
      assert Wire(ps)[1..] == Wire(ps[1..]);
      GetCons(Wire(ps), Name(p));
      GetCons(ps, p);
      assert Name(ps[0].0) == Name(p) <==> ps[0].0 == p by {
        if Name(ps[0].0) == Name(p) {
          NameInjective(ps[0].0, p);
        }
      }
    }
  }
}
