/** The log-entry record returned by the API, and the two small enumerations
    (severity levels and worker codes) that the dashboard filters on. */
module Entries {

  import opened Options

  /** The allowed severity names: the `levels` set of App.tsx. */
  const LevelNames: set<string> := {"debug", "info", "warn", "error", "verbose"}

  /** The allowed worker codes: the `workers` set of App.tsx. */
  const WorkerCodes: set<int> := {0, 1, 2, 3}

  /** The `Level` union type: a string that is one of the level names. */
  type Level = s: string | s in LevelNames witness "debug"

  /** The `Worker` union type: an integer code 0..3. */
  type Worker = w: int | w in WorkerCodes witness 0

  /** One record of the API's response (`IApiEntry`). Optional fields are `Option`s;
      numeric fields are integers. */
  datatype Entry = Entry(
    id: int,
    cxt: Option<string>,
    message: string,
    w: int,
    mhu: int,
    mht: int,
    mrss: int,
    t: string,
    l: string,
    ct: int,
    cl: int,
    p: Option<string>)

  /** The numeric keys of `IApiEntry`, the ones a chart series can be drawn from. */
  datatype NumericKey = Id | W | Mhu | Mht | Mrss | Ct | Cl

  /** `e[key]` for a numeric key: each key selects the field of the same name. */
  function Field(e: Entry, key: NumericKey): (v: int)
    ensures key == Id ==> v == e.id
    ensures key == W ==> v == e.w
    ensures key == Mhu ==> v == e.mhu
    ensures key == Mht ==> v == e.mht
    ensures key == Mrss ==> v == e.mrss
    ensures key == Ct ==> v == e.ct
    ensures key == Cl ==> v == e.cl
  {
    match key
    case Id => e.id
    case W => e.w
    case Mhu => e.mhu
    case Mht => e.mht
    case Mrss => e.mrss
    case Ct => e.ct
    case Cl => e.cl
  }

}
