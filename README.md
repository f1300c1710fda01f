# winston-logs-front: a Dafny model of the dashboard's core

The dashboard polls a log API for a page of log entries, with an optional severity
level and worker filter. It lists the entries and draws a memory chart from them.
This project models the logic in `src/App.tsx`:

- the log-entry record (`IApiEntry`), with the `Level` and `Worker` enumerations and
  their `levels` / `workers` sets (module `Entries`, `entries.dfy`);
- the series extractor `dataTransf`, plus the three datasets that `updateChart`
  builds from it for workers 0, 1 and 3 on the heap-used field `mhu` (module `Series`,
  `series.dfy`). The "no value" sentinel, `Number.NaN` in the source, is `None`;
- the label helpers `getLevelClass`, `getThreadClass` and `getThreadText` (module
  `Labels`, `labels.dfy`);
- the parameter record built by the module-level `apiCall` (module `Query`, `query.dfy`);
- the `App` component's view state `IAppState`, modelled as a class with one method
  per handler (module `Dashboard`, `dashboard.dfy`). The handlers are the constructor,
  the page input, the level select, the worker select, and the fetch, whose response
  replaces the entries and redraws the chart. The select guards
  `levels.has(val) ? val : undefined` and `workers.has(val) ? val : undefined` are
  functions beside the class.

Modelling choices:

- The network response is a parameter of `App.ApiCall`. `None` means the request
  failed. In that case the awaited promise rejects before `setState` runs, so the
  state is left unchanged.
- The placeholder dataset `tempdata` is a constructor parameter.
- The value a select hands to its guard has type `any` in the source. Here it is a
  `JsValue`, either a number or a string. `Set.has` compares without type conversion,
  so the worker guard accepts only numbers 0..3 and the level guard accepts only the
  five level strings.
- The helpers' callers (`src/App.tsx:256-266`) cast an entry's raw `l` and `w` fields
  without checking them. So `LevelClass` takes any string, and `ThreadClass` and
  `ThreadText` take any integer. `ThreadText` is `None` (the switch falls through to
  `undefined`) for every code outside 0..3.

Three points about what the code does and does not guarantee:

- `dataTransf` has no case for an absent field. `IApiEntry` declares every numeric
  field as required, and the model takes that declaration at its word. The response
  body is not checked against it, though: `res.data` is untyped and is stored as
  `entries` as it is. The model assumes a well-formed response (see `Dashboard.App.ApiCall`
  under "## Left out").
- The filter of `dataTransf` is typed `Worker` (0..3), so every series is drawn for a
  known worker. An entry whose own worker code is outside 0..3 gets the sentinel in
  every series (`UnmappedWorkerNeverDrawn`).
- A failed fetch keeps the previous entries, because the awaited promise rejects
  before `setState` runs. `App.ApiCall` states this.

## Model

| member | source | states |
|---|---|---|
| `Entries.Field` | src/App.tsx:37-50 | Each numeric key selects the `IApiEntry` field of the same name, as `e[key]` does in `dataTransf`. |
| `Series.DataTransf` | src/App.tsx:62-68 | The output has one element per entry. Element i is defined exactly when entry i comes from the filtered worker, and then it equals that entry's field. |
| `Series.DataTransfAllSentinels` | src/App.tsx:67 | The series is all sentinels if and only if no entry comes from the filtered worker. The series of an empty list is empty. |
| `Series.UnmappedWorkerNeverDrawn` | src/App.tsx:67 | An entry whose worker code is not in the enumeration gets the sentinel whatever the filter. |
| `Series.DataTransfAppend` | src/App.tsx:67 | Extraction distributes over concatenation, so entry order is kept in the series. |
| `Series.DataTransfExample` | src/App.tsx:67 | Workers 0, 1, 0 with heap used 10, 20, 30 give the worker-0 series [10, sentinel, 30]. |
| `Series.ChartDatasets` | src/App.tsx:133-144 | Gives three datasets with legends `_main_mhu`, `_1_mhu` and `_3_mhu`, each as long as the entry list. |
| `Series.ChartDatasetsExclusive` | src/App.tsx:133-144 | At each index, at most one dataset has a point. Dataset j has a point exactly when the entry comes from worker j's code (0, 1 or 3), and that point is the entry's `mhu`. |
| `Series.ChartOmitsOtherWorkers` | src/App.tsx:133-144 | An entry of worker 2 or of an unknown worker has no point in any dataset. |
| `Labels.LevelClass` | src/App.tsx:16-18 | The class is the prefix `col-level-` followed by the level verbatim. |
| `Labels.LevelClassInjective` | src/App.tsx:16-18 | Two levels give the same class only if they are equal. |
| `Labels.ParseIntDecimal` | src/App.tsx:21 | The decimal rendering of an integer in a template string reads back as the same integer. |
| `Labels.ThreadClass` | src/App.tsx:20-22 | The class is the prefix `col-thread-` followed by a signed decimal that reads back as the worker code. |
| `Labels.ThreadClassInjective` | src/App.tsx:20-22 | Two codes give the same class only if they are equal. |
| `Labels.ThreadText` | src/App.tsx:24-35 | A label exists exactly for the codes in the `workers` set. Any other code gives undefined. |
| `Labels.ThreadTextDistinct` | src/App.tsx:24-35 | The four workers have four different labels. |
| `Query.ApiParams` | src/App.tsx:52-60 | The page is the given one, or 1 when none is given. Level and worker pass through unchanged, including when unset. |
| `Query.ApiParamsExamples` | src/App.tsx:52-60 | Page 2 with level `warn` and no worker gives exactly that record. No arguments give page 1 with no filters. |
| `Dashboard.LevelGuard` | src/App.tsx:178-180 | The result is set if and only if the value is one of the five level strings, and then it is that value. Otherwise it is undefined. |
| `Dashboard.WorkerGuard` | src/App.tsx:202-204 | The result is set if and only if the value is one of the numbers 0..3, and then it is that value. Otherwise it is undefined. |
| `Dashboard.LevelSelectOptions` | src/App.tsx:187-192 | Each level option of the select is accepted as itself. The dashed placeholder gives no level. |
| `Dashboard.WorkerGuardCodes` | src/App.tsx:204 | Codes 0..3 are accepted and every other number is rejected. No string is accepted. |
| `Dashboard.App.constructor` | src/App.tsx:81-90 | The initial state is the placeholder entries, page 1, and no worker or level. |
| `Dashboard.App.OnPageChange` | src/App.tsx:167-169 | The page becomes the input value. Entries, worker and level are unchanged. |
| `Dashboard.App.OnLevelChange` | src/App.tsx:178-185 | The level becomes the guard's result: the chosen value if it is an allowed level, undefined otherwise. Entries, page and worker are unchanged. |
| `Dashboard.App.OnWorkerChange` | src/App.tsx:202-209 | The worker becomes the guard's result: the chosen value if it is an allowed code, undefined otherwise. Entries, page and level are unchanged. |
| `Dashboard.App.Request` | src/App.tsx:92-97 | The request carries the current page, level and worker. The page is always explicit, so the default of 1 never applies here. |
| `Dashboard.App.UpdateChart` | src/App.tsx:107-148 | Gives the three datasets of the current entries, each aligned with the entry list. |
| `Dashboard.App.ApiCall` | src/App.tsx:92-105 | The request is built from the state before the call. A response replaces the entries wholesale and the chart is drawn from it. A failed request leaves the entries as they were. Page, level and worker never change. |

## Left out

- `src/index.tsx`: the DOM bootstrap (`hydrate` / `render`), which has no logic.
- JSX rendering (`render`, `Listao`, `LogEntryView`), CSS as styling, and every `console.log`: presentation and output only.
- The axios GET itself, and how axios serialises or drops unset parameters: a foreign library. Only the parameter record is modelled.
- Chart.js construction and options (`src/App.tsx:110-121`): a foreign library. Only the datasets are modelled.
- `parseInt` on the page input, and `NaN` as a floating-point value: the page is an integer parameter, and the sentinel is `None`.
- The contents of `tempdata`: that file is not part of this model, so the placeholder entries are an opaque constructor parameter.
- Overlapping or out-of-order fetch responses: the code does not order them, and the model runs one `ApiCall` at a time.
- React's asynchronous, merging `setState`: each handler is modelled as an immediate write of its one field.
- Which kind of value the DOM hands to the worker select's guard: this depends on the DOM. The guard is modelled as the membership test it is.
- `Dashboard.App.ApiCall`: assumes the response is a well-formed `IApiEntry[]`. The source stores the untyped `res.data` unchecked. An entry lacking a numeric field would put `undefined` rather than the sentinel into a series. A body that is not an array would make `map` throw in `updateChart` and in the list. The model does not capture either case.
- `Series.DataTransf`: only covers the numeric keys of `IApiEntry`. The source's `key: keyof IApiEntry` also admits the string fields, whose values the `as number[]` cast lets into a series.
- `Labels.ThreadClass`: renders every integer in plain decimal. It does not model JavaScript's exponent notation for magnitudes of 10^21 and above, and it does not model non-integer numbers.
- Entry numeric fields are unbounded integers. The source's 64-bit floating-point numbers are not modelled.
