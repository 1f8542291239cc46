/** The data shapes of src/types/job.ts that the modelled code reads. */
module JobTypes {
  import opened Wrappers

  /** `JobFilters`: every field may be missing; the three selections may also be null. */
  datatype JobFilters = JobFilters(search: Option<string>, jobType: Option<string>,
                                   workplace: Option<string>, seniority: Option<string>)

  /** `meta.pagination` of a list response. */
  datatype Pagination = Pagination(page: int, pageSize: int, pageCount: int, total: int)
}
