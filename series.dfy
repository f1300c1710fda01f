/** The per-worker series extractor `dataTransf` and the three datasets that
    `updateChart` draws from it. */
module Series {

  import opened Options
  import opened Entries

  /** `dataTransf(entries, filter, key)`: one point per entry, in order; the point is
      the entry's `key` field when the entry came from worker `filter` and the
      sentinel otherwise, so that series for different workers stay index-aligned. */
  function DataTransf(entries: seq<Entry>, filter: Worker, key: NumericKey): (r: seq<Option<int>>)
    ensures |r| == |entries|
    ensures forall i :: 0 <= i < |entries| ==> (r[i].Some? <==> entries[i].w == filter)
    ensures forall i :: 0 <= i < |entries| && entries[i].w == filter ==> r[i] == Some(Field(entries[i], key))
  {
    if entries == [] then []
    else
      [if entries[0].w == filter then Some(Field(entries[0], key)) else None]
      + DataTransf(entries[1..], filter, key)
  }

  /** The series is nothing but sentinels exactly when no entry came from the filtered
      worker; in particular the series of an empty list is empty. */
  lemma DataTransfAllSentinels(entries: seq<Entry>, filter: Worker, key: NumericKey)
    ensures (forall i :: 0 <= i < |entries| ==> entries[i].w != filter)
            <==> DataTransf(entries, filter, key) == seq(|entries|, i => None)
    ensures entries == [] ==> DataTransf(entries, filter, key) == []
  {
  }

  /** An entry whose worker code is outside the enumeration gets the sentinel in every
      series, whatever worker is filtered on. */
  lemma UnmappedWorkerNeverDrawn(entries: seq<Entry>, i: nat, filter: Worker, key: NumericKey)
    requires i < |entries| && entries[i].w !in WorkerCodes
    ensures DataTransf(entries, filter, key)[i] == None
  {
  }

  /** Extraction distributes over concatenation: the series of a longer list extends
      the series of its prefix, and order is kept. */
  lemma DataTransfAppend(a: seq<Entry>, b: seq<Entry>, filter: Worker, key: NumericKey)
    ensures DataTransf(a + b, filter, key) == DataTransf(a, filter, key) + DataTransf(b, filter, key)
  {
  }

  /** A chart dataset: the data points and the legend text (Chart.js `label`). */
  datatype Dataset = Dataset(data: seq<Option<int>>, legend: string)

  /** The field the chart plots. */
  const ChartKey: NumericKey := Mhu

  /** The three datasets of `updateChart`: heap used for workers 0, 1 and 3. */
  function ChartDatasets(entries: seq<Entry>): (ds: seq<Dataset>)
    ensures |ds| == 3
    ensures ds[0].legend == "_main_mhu" && ds[1].legend == "_1_mhu" && ds[2].legend == "_3_mhu"
    ensures forall j :: 0 <= j < 3 ==> |ds[j].data| == |entries|
  {
    [ Dataset(DataTransf(entries, 0, ChartKey), "_main_mhu"),
      Dataset(DataTransf(entries, 1, ChartKey), "_1_mhu"),
      Dataset(DataTransf(entries, 3, ChartKey), "_3_mhu") ]
  }

  /** The worker each chart dataset is drawn for, in dataset order. */
  function ChartWorker(j: nat): Worker
    requires j < 3
  {
    [0, 1, 3][j]
  }

  /** At every index at most one of the three datasets has a point, and the one that
      has it is the dataset of the entry's own worker, carrying its heap-used value. */
  lemma ChartDatasetsExclusive(entries: seq<Entry>, i: nat)
    requires i < |entries|
    ensures forall j, k :: 0 <= j < k < 3 ==>
              ChartDatasets(entries)[j].data[i] == None || ChartDatasets(entries)[k].data[i] == None
    ensures forall j :: 0 <= j < 3 ==>
              (ChartDatasets(entries)[j].data[i].Some? <==> entries[i].w == ChartWorker(j))
    ensures forall j :: 0 <= j < 3 && entries[i].w == ChartWorker(j) ==>
              ChartDatasets(entries)[j].data[i] == Some(entries[i].mhu)
  {
  }

  /** An entry of worker 2 (the communicator) or of an unknown worker has no point in
      any dataset: the chart does not draw worker 2. */
  lemma ChartOmitsOtherWorkers(entries: seq<Entry>, i: nat)
    requires i < |entries| && entries[i].w !in {0, 1, 3}
    ensures forall j :: 0 <= j < 3 ==> ChartDatasets(entries)[j].data[i] == None
  {
  }

  /** The worked example: entries of workers 0, 1, 0 with heap used 10, 20, 30 give
      the worker-0 series [10, sentinel, 30]. */
  lemma DataTransfExample()
    ensures
      var e := (w: int, mhu: int) => Entry(0, None, "", w, mhu, 0, 0, "", "", 0, 0, None);
      DataTransf([e(0, 10), e(1, 20), e(0, 30)], 0, Mhu) == [Some(10), None, Some(30)]
  {
  }

}
