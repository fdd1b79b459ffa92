/** The status report protocol of the external worker: how one run of the
    status program changes the job's status code and completion. */
module Worker {
  import opened Json

  /** Status codes the controller itself sets; the others come from the worker. */
  const NOT_STARTED: int := -1
  const ERROR: int := 4

  datatype Progress = Progress(status: int, completion: real)

  /** How waiting for a run of the status program ended: it did not finish,
      or it finished normally or abnormally with what it printed, parsed. */
  datatype StatusRun = NotFinished | Finished(normalExit: bool, stdout: Parsed)

  /** The report carries both required fields. */
  predicate Reports(obj: JsonObject)
  {
    "completion" in obj && "status" in obj
  }

  /** Taking in one finished run: an abnormal exit or unparseable output is
      an error that keeps the completion; a report missing a field changes
      nothing; a full report is taken exactly. */
  function Ingest(p: Progress, normalExit: bool, stdout: Parsed): (q: Progress)
    ensures !normalExit ==> q == Progress(ERROR, p.completion)
    ensures normalExit && stdout.Malformed? ==> q == Progress(ERROR, p.completion)
    ensures normalExit && stdout.Document? && !Reports(AsObject(stdout.root)) ==> q == p
    ensures normalExit && stdout.Document? && Reports(AsObject(stdout.root)) ==>
              var report := AsObject(stdout.root);
              q == Progress(AsInt(report["status"]), AsDouble(report["completion"]))
  {
    if !normalExit then p.(status := ERROR)
    else match stdout
      case Malformed => p.(status := ERROR)
      case Document(root) =>
        var report := AsObject(root);
        if !Reports(report) then p
        else Progress(AsInt(report["status"]), AsDouble(report["completion"]))
  }

  /** The effect of one refresh on a started job. */
  function AfterStatus(p: Progress, run: StatusRun): Progress
  {
    match run
    case NotFinished => p
    case Finished(normalExit, stdout) => Ingest(p, normalExit, stdout)
  }

  /** A report of a completion and a 32-bit status is taken as is. */
  lemma ReportTaken(p: Progress, completion: real, status: int)
    requires INT_MIN <= status <= INT_MAX
    ensures Ingest(p, true, Document(Object(map["completion" := Number(completion), "status" := Number(status as real)])))
            == Progress(status, completion)
  {
    WholeNumberAsInt(status);
  }

  /** A full report overrides whatever came before it: the last one wins. */
  lemma LastReportWins(p: Progress, first: StatusRun, report: JsonObject)
    requires Reports(report)
    ensures AfterStatus(AfterStatus(p, first), Finished(true, Document(Object(report))))
            == AfterStatus(p, Finished(true, Document(Object(report))))
  {
  }
}
