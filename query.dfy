/** The query parameters that the module-level `apiCall` sends with its GET request. */
module Query {

  import opened Options
  import opened Entries

  /** The default of `apiCall`'s `page` parameter. */
  const DefaultPage: int := 1

  /** The `params` record of the request. */
  datatype Params = Params(page: int, level: Option<Level>, worker: Option<Worker>)

  /** `apiCall(page = 1, level?, worker?)`: the page falls back to 1 when it is not
      given; level and worker are passed through, unset ones staying unset. */
  function ApiParams(page: Option<int>, level: Option<Level>, worker: Option<Worker>): (p: Params)
    ensures p.page == (if page.Some? then page.value else DefaultPage)
    ensures p.level == level && p.worker == worker
  {
    match page
    case Some(n) => Params(n, level, worker)
    case None => Params(DefaultPage, level, worker)
  }

  /** The worked examples: page 2 with level "warn" and no worker, and the defaults. */
  lemma ApiParamsExamples()
    ensures ApiParams(Some(2), Some("warn"), None) == Params(2, Some("warn"), None)
    ensures ApiParams(None, None, None) == Params(1, None, None)
  {
  }

}
