/** src/components/JobSearch.tsx: the job-search bar. It holds a title text and three
    optional dropdown selections, emits a `JobFilters` record to its parent on search,
    on a dropdown choice and on Clear All, and shows one pill per non-empty field. */
module JobSearch {
  import opened Wrappers
  import opened JobTypes

  const JobTypeOptions: seq<string> := ["Full-time", "Part-time", "Contract"]
  const WorkplaceOptions: seq<string> := ["Remote", "Hybrid", "On-site"]
  const SeniorityOptions: seq<string> :=
    ["Entry Level", "Mid Level", "Senior", "Manager", "Director", "Executive"]

  /** `(a ?? b)`: the given value when there is one, else the fallback; `null` and a
      missing field are both `None`. */
  function Coalesce(a: Option<string>, b: Option<string>): (r: Option<string>)
    ensures a.Some? ==> r == a
    ensures a.None? ==> r == b
  {
    if a.Some? then a else b
  }

  /** `updateFilters`: each field of the partial record that is given wins over the
      current state. */
  function MergeFilters(partial: JobFilters, jobTitle: string, jobType: Option<string>,
                        workplace: Option<string>, seniority: Option<string>): JobFilters
  {
    JobFilters(Coalesce(partial.search, Some(jobTitle)), Coalesce(partial.jobType, jobType),
               Coalesce(partial.workplace, workplace), Coalesce(partial.seniority, seniority))
  }

  /** An empty partial record emits the current state. */
  lemma MergeNothing(jobTitle: string, jobType: Option<string>, workplace: Option<string>, seniority: Option<string>)
    ensures MergeFilters(JobFilters(None, None, None, None), jobTitle, jobType, workplace, seniority)
            == JobFilters(Some(jobTitle), jobType, workplace, seniority)
  {
  }

  /** Given fields override, the others keep the state; the title is always sent. */
  lemma MergeOverrides(partial: JobFilters, jobTitle: string, jobType: Option<string>,
                       workplace: Option<string>, seniority: Option<string>)
    ensures MergeFilters(partial, jobTitle, jobType, workplace, seniority).search.Some?
    ensures partial.jobType.Some? ==> MergeFilters(partial, jobTitle, jobType, workplace, seniority).jobType == partial.jobType
    ensures partial.jobType.None? ==> MergeFilters(partial, jobTitle, jobType, workplace, seniority).jobType == jobType
    ensures partial.workplace.Some? ==> MergeFilters(partial, jobTitle, jobType, workplace, seniority).workplace == partial.workplace
    ensures partial.workplace.None? ==> MergeFilters(partial, jobTitle, jobType, workplace, seniority).workplace == workplace
    ensures partial.seniority.Some? ==> MergeFilters(partial, jobTitle, jobType, workplace, seniority).seniority == partial.seniority
    ensures partial.seniority.None? ==> MergeFilters(partial, jobTitle, jobType, workplace, seniority).seniority == seniority
  {
  }

  /** The `key` of a pill: the `JobFilters` field it shows. */
  datatype FilterKey = SearchKey | JobTypeKey | WorkplaceKey | SeniorityKey

  /** A pill: its label text and the field it comes from. */
  datatype Pill = Pill(text: string, key: FilterKey)

  /** Display order of the pills. */
  function Rank(k: FilterKey): nat {
    match k
    case SearchKey => 0
    case JobTypeKey => 1
    case WorkplaceKey => 2
    case SeniorityKey => 3
  }

  function LabelPrefix(k: FilterKey): string {
    match k
    case SearchKey => "Title: "
    case JobTypeKey => "Type: "
    case WorkplaceKey => "Workplace: "
    case SeniorityKey => "Seniority: "
  }

  /** The state field behind a key; the title box always holds a string. */
  function FieldOf(k: FilterKey, jobTitle: string, jobType: Option<string>, workplace: Option<string>,
                   seniority: Option<string>): Option<string>
  {
    match k
    case SearchKey => Some(jobTitle)
    case JobTypeKey => jobType
    case WorkplaceKey => workplace
    case SeniorityKey => seniority
  }

  /** One entry of the array literal: a pill when the field is truthy, else `null`. */
  function Candidate(k: FilterKey, field: Option<string>): (c: Option<Pill>)
    ensures c.Some? <==> Truthy(field)
    ensures c.Some? ==> c.value == Pill(LabelPrefix(k) + field.value, k)
  {
    if Truthy(field) then Some(Pill(LabelPrefix(k) + field.value, k)) else None
  }

  /** `.filter(Boolean)`: the non-null entries, in order. */
  function Present(cs: seq<Option<Pill>>): (r: seq<Pill>)
    ensures |r| <= |cs|
    decreases |cs|
  {
    if cs == [] then []
    else (if cs[0].Some? then [cs[0].value] else []) + Present(cs[1..])
  }

  /** `activeFilters`. */
  function ActiveFilters(jobTitle: string, jobType: Option<string>, workplace: Option<string>,
                         seniority: Option<string>): (pills: seq<Pill>)
    ensures |pills| <= 4
  {
    Present([Candidate(SearchKey, Some(jobTitle)), Candidate(JobTypeKey, jobType),
             Candidate(WorkplaceKey, workplace), Candidate(SeniorityKey, seniority)])
  }

  /** The Clear All button's condition. */
  predicate AnyFilterSet(jobTitle: string, jobType: Option<string>, workplace: Option<string>,
                         seniority: Option<string>)
  {
    jobTitle != "" || Truthy(jobType) || Truthy(workplace) || Truthy(seniority)
  }

  /** `Present` keeps exactly the non-null entries. */
  lemma {:induction false} PresentMembers(cs: seq<Option<Pill>>, p: Pill)
    ensures p in Present(cs) <==> Some(p) in cs
    decreases |cs|
  {
    if cs != [] {
      PresentMembers(cs[1..], p);
      assert cs == [cs[0]] + cs[1..];
    }
  }

  /** `Present` keeps the order of the entries: when the keys of the non-null entries
      rise in rank, so do those of the pills. */
  lemma {:induction false} PresentOrdered(cs: seq<Option<Pill>>)
    requires forall i, j :: 0 <= i < j < |cs| && cs[i].Some? && cs[j].Some? ==> Rank(cs[i].value.key) < Rank(cs[j].value.key)
    ensures forall i, j :: 0 <= i < j < |Present(cs)| ==> Rank(Present(cs)[i].key) < Rank(Present(cs)[j].key)
    decreases |cs|
  {
    if cs != [] {
      var rest := Present(cs[1..]);
      PresentOrdered(cs[1..]);
      if cs[0].Some? {
        forall p | p in rest ensures Rank(cs[0].value.key) < Rank(p.key) {
          PresentMembers(cs[1..], p);
          var j :| 0 <= j < |cs[1..]| && cs[1..][j] == Some(p);
          assert cs[j + 1] == Some(p);
        }
        assert Present(cs) == [cs[0].value] + rest;
      }
    }
  }

  /** `Present` of a list without nulls is empty exactly when every entry is null. */
  lemma {:induction false} PresentEmpty(cs: seq<Option<Pill>>)
    ensures Present(cs) == [] <==> forall i :: 0 <= i < |cs| ==> cs[i].None?
    decreases |cs|
  {
    if cs != [] {
      PresentEmpty(cs[1..]);
      assert forall i :: 1 <= i < |cs| ==> cs[i] == cs[1..][i - 1];
    }
  }

  /** The pills are those of the truthy fields, each labelled with its prefix and value,
      in the order title, type, workplace, seniority. */
  lemma ActiveFiltersContents(jobTitle: string, jobType: Option<string>, workplace: Option<string>,
                              seniority: Option<string>, k: FilterKey)
    ensures var v := FieldOf(k, jobTitle, jobType, workplace, seniority);
            (exists p :: p in ActiveFilters(jobTitle, jobType, workplace, seniority) && p.key == k) <==> Truthy(v)
    ensures var v := FieldOf(k, jobTitle, jobType, workplace, seniority);
            Truthy(v) ==> Pill(LabelPrefix(k) + v.value, k) in ActiveFilters(jobTitle, jobType, workplace, seniority)
    ensures forall p :: p in ActiveFilters(jobTitle, jobType, workplace, seniority)
                        ==> Truthy(FieldOf(p.key, jobTitle, jobType, workplace, seniority))
                            && p == Pill(LabelPrefix(p.key) + FieldOf(p.key, jobTitle, jobType, workplace, seniority).value, p.key)
  {
    var pills := ActiveFilters(jobTitle, jobType, workplace, seniority);
    var v := FieldOf(k, jobTitle, jobType, workplace, seniority);
    forall p ensures p in pills <==> IsPillOf(p, jobTitle, jobType, workplace, seniority) {
      PillsAreCandidates(jobTitle, jobType, workplace, seniority, p);
    }
    if Truthy(v) {
      assert IsPillOf(Pill(LabelPrefix(k) + v.value, k), jobTitle, jobType, workplace, seniority);
    }
  }

  /** `p` is the pill its key's field yields. */
  predicate IsPillOf(p: Pill, jobTitle: string, jobType: Option<string>, workplace: Option<string>,
                     seniority: Option<string>)
  {
    var v := FieldOf(p.key, jobTitle, jobType, workplace, seniority);
    Truthy(v) && p == Pill(LabelPrefix(p.key) + v.value, p.key)
  }

  lemma PillsAreCandidates(jobTitle: string, jobType: Option<string>, workplace: Option<string>,
                           seniority: Option<string>, p: Pill)
    ensures p in ActiveFilters(jobTitle, jobType, workplace, seniority)
            <==> IsPillOf(p, jobTitle, jobType, workplace, seniority)
  {
    var cs := [Candidate(SearchKey, Some(jobTitle)), Candidate(JobTypeKey, jobType),
               Candidate(WorkplaceKey, workplace), Candidate(SeniorityKey, seniority)];
    PresentMembers(cs, p);
    assert Some(p) in cs <==> IsPillOf(p, jobTitle, jobType, workplace, seniority) by {
      assert Some(p) in cs <==> Some(p) == cs[0] || Some(p) == cs[1] || Some(p) == cs[2] || Some(p) == cs[3];
    }
  }

  lemma ActiveFiltersOrdered(jobTitle: string, jobType: Option<string>, workplace: Option<string>, seniority: Option<string>)
    ensures var pills := ActiveFilters(jobTitle, jobType, workplace, seniority);
            forall i, j :: 0 <= i < j < |pills| ==> Rank(pills[i].key) < Rank(pills[j].key)
  {
    PresentOrdered([Candidate(SearchKey, Some(jobTitle)), Candidate(JobTypeKey, jobType),
                    Candidate(WorkplaceKey, workplace), Candidate(SeniorityKey, seniority)]);
  }

  /** Clear All is shown exactly when there is at least one pill. */
  lemma ClearAllShownIffPills(jobTitle: string, jobType: Option<string>, workplace: Option<string>, seniority: Option<string>)
    ensures AnyFilterSet(jobTitle, jobType, workplace, seniority) <==> ActiveFilters(jobTitle, jobType, workplace, seniority) != []
  {
    var cs := [Candidate(SearchKey, Some(jobTitle)), Candidate(JobTypeKey, jobType),
               Candidate(WorkplaceKey, workplace), Candidate(SeniorityKey, seniority)];
    PresentEmpty(cs);
    assert (forall i :: 0 <= i < |cs| ==> cs[i].None?)
           <==> cs[0].None? && cs[1].None? && cs[2].None? && cs[3].None?;
  }

  /** A selection is absent or one of its dropdown's options. */
  predicate Offered(choice: Option<string>, options: seq<string>) {
    choice.None? || choice.value in options
  }

  /** The component's state, with `emitted` the filters handed to `onChangeFilters`,
      oldest first. */
  class JobSearchBar {
    var jobTitle: string
    var selectedJobType: Option<string>
    var selectedWorkplace: Option<string>
    var selectedSeniority: Option<string>
    var emitted: seq<JobFilters>

    /** Every selection comes from its dropdown. */
    predicate Valid()
      reads this
    {
      Offered(selectedJobType, JobTypeOptions) && Offered(selectedWorkplace, WorkplaceOptions)
      && Offered(selectedSeniority, SeniorityOptions)
    }

    constructor()
      ensures jobTitle == "" && selectedJobType == None && selectedWorkplace == None && selectedSeniority == None
      ensures emitted == []
      ensures Valid()
    {
      jobTitle := "";
      selectedJobType := None;
      selectedWorkplace := None;
      selectedSeniority := None;
      emitted := [];
    }

    function Pills(): seq<Pill>
      reads this
    {
      ActiveFilters(jobTitle, selectedJobType, selectedWorkplace, selectedSeniority)
    }

    predicate ShowClearAll()
      reads this
    {
      AnyFilterSet(jobTitle, selectedJobType, selectedWorkplace, selectedSeniority)
    }

    /** `handleJobTitleChange`: only the title changes; nothing is emitted. */
    method HandleJobTitleChange(value: string)
      requires Valid()
      modifies this
      ensures jobTitle == value
      ensures selectedJobType == old(selectedJobType) && selectedWorkplace == old(selectedWorkplace)
      ensures selectedSeniority == old(selectedSeniority) && emitted == old(emitted)
      ensures Valid()
    {
      jobTitle := value;
    }

    /** `updateFilters(partial)`: emits the merge of the partial record with the state. */
    method UpdateFilters(partial: JobFilters)
      modifies this
      ensures emitted == old(emitted) + [MergeFilters(partial, jobTitle, selectedJobType, selectedWorkplace, selectedSeniority)]
      ensures jobTitle == old(jobTitle) && selectedJobType == old(selectedJobType)
      ensures selectedWorkplace == old(selectedWorkplace) && selectedSeniority == old(selectedSeniority)
    {
      emitted := emitted + [MergeFilters(partial, jobTitle, selectedJobType, selectedWorkplace, selectedSeniority)];
    }

    /** Choosing the `i`-th job type: the selection is set, and the emitted filters carry
        the choice with the rest of the state as it was. */
    method SelectJobType(i: nat)
      requires i < |JobTypeOptions| && Valid()
      modifies this
      ensures selectedJobType == Some(JobTypeOptions[i])
      ensures jobTitle == old(jobTitle) && selectedWorkplace == old(selectedWorkplace)
      ensures selectedSeniority == old(selectedSeniority)
      ensures emitted == old(emitted) + [JobFilters(Some(jobTitle), Some(JobTypeOptions[i]), selectedWorkplace, selectedSeniority)]
      ensures Valid()
    {
      var choice := JobTypeOptions[i];
      selectedJobType := Some(choice);
      UpdateFilters(JobFilters(None, Some(choice), None, None));
    }

    /** Choosing the `i`-th workplace. */
    method SelectWorkplace(i: nat)
      requires i < |WorkplaceOptions| && Valid()
      modifies this
      ensures selectedWorkplace == Some(WorkplaceOptions[i])
      ensures jobTitle == old(jobTitle) && selectedJobType == old(selectedJobType)
      ensures selectedSeniority == old(selectedSeniority)
      ensures emitted == old(emitted) + [JobFilters(Some(jobTitle), selectedJobType, Some(WorkplaceOptions[i]), selectedSeniority)]
      ensures Valid()
    {
      var choice := WorkplaceOptions[i];
      selectedWorkplace := Some(choice);
      UpdateFilters(JobFilters(None, None, Some(choice), None));
    }

    /** Choosing the `i`-th seniority level. */
    method SelectSeniority(i: nat)
      requires i < |SeniorityOptions| && Valid()
      modifies this
      ensures selectedSeniority == Some(SeniorityOptions[i])
      ensures jobTitle == old(jobTitle) && selectedJobType == old(selectedJobType)
      ensures selectedWorkplace == old(selectedWorkplace)
      ensures emitted == old(emitted) + [JobFilters(Some(jobTitle), selectedJobType, selectedWorkplace, Some(SeniorityOptions[i]))]
      ensures Valid()
    {
      var choice := SeniorityOptions[i];
      selectedSeniority := Some(choice);
      UpdateFilters(JobFilters(None, None, None, Some(choice)));
    }

    /** `handleSearch`, from the button or the Enter key: emits the title with the three
        selections unchanged. */
    method HandleSearch()
      requires Valid()
      modifies this
      ensures jobTitle == old(jobTitle) && selectedJobType == old(selectedJobType)
      ensures selectedWorkplace == old(selectedWorkplace) && selectedSeniority == old(selectedSeniority)
      ensures emitted == old(emitted) + [JobFilters(Some(jobTitle), selectedJobType, selectedWorkplace, selectedSeniority)]
      ensures Valid()
    {
      UpdateFilters(JobFilters(Some(jobTitle), None, None, None));
    }

    /** `onKeyUp`: Enter searches; any other key does nothing. */
    method HandleKeyUp(key: string)
      requires Valid()
      modifies this
      ensures jobTitle == old(jobTitle) && selectedJobType == old(selectedJobType)
      ensures selectedWorkplace == old(selectedWorkplace) && selectedSeniority == old(selectedSeniority)
      ensures key == "Enter" ==> emitted == old(emitted) + [JobFilters(Some(jobTitle), selectedJobType, selectedWorkplace, selectedSeniority)]
      ensures key != "Enter" ==> emitted == old(emitted)
      ensures Valid()
    {
      if key == "Enter" {
        HandleSearch();
      }
    }

    /** `clearAll`: everything is reset and the empty filters are emitted; afterwards no
        pill and no Clear All button are shown. */
    method ClearAll()
      modifies this
      ensures jobTitle == "" && selectedJobType == None && selectedWorkplace == None && selectedSeniority == None
      ensures emitted == old(emitted) + [JobFilters(Some(""), None, None, None)]
      ensures Pills() == [] && !ShowClearAll()
      ensures Valid()
    {
      jobTitle := "";
      selectedJobType := None;
      selectedWorkplace := None;
      selectedSeniority := None;
      emitted := emitted + [JobFilters(Some(""), None, None, None)];
      ClearAllShownIffPills("", None, None, None);
    }
  }
}
