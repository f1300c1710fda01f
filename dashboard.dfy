/** The `App` component's view state (`IAppState`) and its event handlers: the page
    input, the level and worker selects, and the fetch whose response replaces the
    entries and redraws the chart. */
module Dashboard {

  import opened Options
  import opened Entries
  import opened Series
  import opened Query

  /** A value read from a form control (`target.value`, typed `any`): the guards
      compare it with `Set.has`, which never converts between numbers and strings. */
  datatype JsValue = Num(n: int) | Str(s: string)

  /** The level select's guard `levels.has(val) ? val : undefined`. */
  function LevelGuard(val: JsValue): (r: Option<Level>)
    ensures r.Some? <==> val.Str? && val.s in LevelNames
    ensures r.Some? ==> val == Str(r.value)
  {
    if val.Str? && val.s in LevelNames then Some(val.s) else None
  }

  /** The worker select's guard `workers.has(val) ? val : undefined`. */
  function WorkerGuard(val: JsValue): (r: Option<Worker>)
    ensures r.Some? <==> val.Num? && val.n in WorkerCodes
    ensures r.Some? ==> val == Num(r.value)
  {
    if val.Num? && val.n in WorkerCodes then Some(val.n) else None
  }

  /** Every option of the level select is accepted as itself, and the dashed
      placeholder option is turned into "no level". */
  lemma LevelSelectOptions()
    ensures forall v :: v in ["debug", "info", "error", "verbose", "warn"] ==> LevelGuard(Str(v)) == Some(v)
    ensures LevelGuard(Str("-----")) == None
  {
  }

  /** The worker guard accepts the numeric codes 0..3 and nothing else; in particular
      it accepts no string, not even the digits of a valid code. */
  lemma WorkerGuardCodes(k: int, s: string)
    ensures WorkerGuard(Num(k)) == (if 0 <= k <= 3 then Some(k) else None)
    ensures WorkerGuard(Str(s)) == None
  {
  }

  /** The top-level component: the four fields of `IAppState`. */
  class App {
    var entries: seq<Entry>
    var page: int
    var worker: Option<Worker>
    var level: Option<Level>

    /** The constructor: the bundled placeholder entries, page 1, no filters. */
    constructor (placeholder: seq<Entry>)
      ensures entries == placeholder && page == 1 && worker == None && level == None
    {
      entries := placeholder;
      page := 1;
      worker := None;
      level := None;
    }

    /** The page input's `onChange`: sets the page and nothing else. */
    method OnPageChange(value: int)
      modifies this
      ensures page == value
      ensures entries == old(entries) && worker == old(worker) && level == old(level)
    {
      page := value;
    }

    /** The level select's `onChange`: the level becomes the chosen value when it is an
        allowed level name and unset otherwise; nothing else changes. */
    method OnLevelChange(value: JsValue)
      modifies this
      ensures level == LevelGuard(value)
      ensures level.Some? <==> value.Str? && value.s in LevelNames
      ensures entries == old(entries) && page == old(page) && worker == old(worker)
    {
      level := LevelGuard(value);
    }

    /** The worker select's `onChange`: the worker becomes the chosen value when it is
        an allowed worker code and unset otherwise; nothing else changes. */
    method OnWorkerChange(value: JsValue)
      modifies this
      ensures worker == WorkerGuard(value)
      ensures worker.Some? <==> value.Num? && value.n in WorkerCodes
      ensures entries == old(entries) && page == old(page) && level == old(level)
    {
      worker := WorkerGuard(value);
    }

    /** The request parameters the component's `apiCall` sends: the current page and
        filters, always with an explicit page. */
    method Request() returns (params: Params)
      ensures params == ApiParams(Some(page), level, worker)
      ensures params.page == page && params.level == level && params.worker == worker
    {
      params := ApiParams(Some(page), level, worker);
    }

    /** `updateChart`: the three datasets, each aligned with the current entries. */
    method UpdateChart() returns (datasets: seq<Dataset>)
      ensures datasets == ChartDatasets(entries)
      ensures |datasets| == 3 && forall j :: 0 <= j < 3 ==> |datasets[j].data| == |entries|
    {
      datasets := ChartDatasets(entries);
    }

    /** The component's `apiCall`: sends a request built from the current state and,
        once `response` arrives, replaces the entries wholesale and redraws the chart.
        A failed request (`None`) rejects before `setState`, so the state is left as it
        was and no chart is drawn. Page and filters are never changed. */
    method ApiCall(response: Option<seq<Entry>>) returns (params: Params, chart: Option<seq<Dataset>>)
      modifies this
      ensures params == ApiParams(Some(old(page)), old(level), old(worker))
      ensures response.Some? ==> entries == response.value && chart == Some(ChartDatasets(response.value))
      ensures response.None? ==> entries == old(entries) && chart == None
      ensures page == old(page) && level == old(level) && worker == old(worker)
    {
      params := Request();
      match response
      case None =>
        chart := None;
      case Some(data) =>
        entries := data;
        var datasets := UpdateChart();
        chart := Some(datasets);
    }
  }

}
