/**
 * The scraping task endpoints (`scrapecraft-repo/backend/app/api/scraping.py`):
 * the in-memory `scraping_tasks` table and the status machine a task goes
 * through — pending when the request is accepted, running when the
 * background job starts, then completed with the service's records or
 * failed with the error text. The fresh task id and the service's outcome
 * are parameters.
 */
module ScrapingApi {
  import opened Base
  import ScrapeGraph

  datatype TaskStatus = Pending | Running | Completed | Failed

  type Record = ScrapeGraph.ScrapeRecord<ScrapeGraph.Reply>

  /** An entry of `scraping_tasks`. */
  datatype Task = Task(status: TaskStatus, results: Option<seq<Record>>, error: Option<string>)

  type Tasks = map<string, Task>

  datatype HttpError = HttpError(status: nat, detail: string)

  const TaskNotFound := HttpError(404, "Task not found")

  /** The status as the endpoints spell it: its lower-case name, so no two statuses read alike. */
  function StatusText(s: TaskStatus): (t: string)
    ensures |t| > 0
    ensures s == Pending <==> t == "pending"
    ensures s == Running <==> t == "running"
    ensures s == Completed <==> t == "completed"
    ensures s == Failed <==> t == "failed"
  {
    match s
    case Pending => "pending"
    case Running => "running"
    case Completed => "completed"
    case Failed => "failed"
  }

  /** Results are present exactly for a completed task, an error exactly for a failed one. */
  predicate WellFormed(t: Task)
  {
    && (t.results.Some? <==> t.status == Completed)
    && (t.error.Some? <==> t.status == Failed)
  }

  predicate AllWellFormed(tasks: Tasks)
  {
    forall id :: id in tasks ==> WellFormed(tasks[id])
  }

  /** The moves of the status machine. */
  predicate Step(a: TaskStatus, b: TaskStatus)
  {
    || (a == Pending && b == Running)
    || (a == Running && b in {Completed, Failed})
  }

  datatype Accepted = Accepted(taskId: string, status: string, message: string)

  /** `execute_scraping`: a pending task with neither results nor error is recorded under the fresh id. */
  function ExecuteScraping(tasks: Tasks, id: string): (r: (Tasks, Accepted))
    ensures id in r.0 && r.0[id] == Task(Pending, None, None) && WellFormed(r.0[id])
    ensures forall x :: x != id ==> (x in r.0 <==> x in tasks) && (x in tasks ==> r.0[x] == tasks[x])
    ensures r.1.taskId == id && r.1.status == StatusText(Pending)
  {
    (tasks[id := Task(Pending, None, None)], Accepted(id, "pending", "Scraping task started"))
  }

  /**
   * The first statement of `run_scraping_task`. A missing task raises
   * `KeyError` in the `try` and again in the `except`, so it escapes.
   */
  function MarkRunning(tasks: Tasks, id: string): (r: Option<Tasks>)
    ensures r.None? <==> id !in tasks
    ensures r.Some? ==> id in r.value && r.value[id] == tasks[id].(status := Running)
    ensures r.Some? ==> forall x :: x != id ==> (x in r.value <==> x in tasks) && (x in tasks ==> r.value[x] == tasks[x])
  {
    if id !in tasks then None else Some(tasks[id := tasks[id].(status := Running)])
  }

  /** How the awaited `execute_pipeline` ended: its records, or the text of what it raised. */
  datatype PipelineRun = RunReturned(records: seq<Record>) | RunRaised(message: string)

  /** The rest of `run_scraping_task`: completed with the records, or failed with the error text. */
  function Finish(tasks: Tasks, id: string, run: PipelineRun): (r: Option<Tasks>)
    ensures r.None? <==> id !in tasks
    ensures r.Some? ==> id in r.value
    ensures r.Some? && run.RunReturned? ==> r.value[id] == tasks[id].(status := Completed, results := Some(run.records))
    ensures r.Some? && run.RunRaised? ==> r.value[id] == tasks[id].(status := Failed, error := Some(run.message))
    ensures r.Some? ==> forall x :: x != id ==> (x in r.value <==> x in tasks) && (x in tasks ==> r.value[x] == tasks[x])
  {
    if id !in tasks then None
    else
      match run
      case RunReturned(rs) => Some(tasks[id := tasks[id].(status := Completed, results := Some(rs))])
      case RunRaised(m) => Some(tasks[id := tasks[id].(status := Failed, error := Some(m))])
  }

  /** `run_scraping_task`: mark running, await the service, record the outcome. */
  function RunScrapingTask(tasks: Tasks, id: string, run: PipelineRun): (r: Option<Tasks>)
    ensures r.None? <==> id !in tasks
    ensures r.Some? ==> id in r.value && r.value[id].status == (if run.RunReturned? then Completed else Failed)
  {
    match MarkRunning(tasks, id)
    case None => None
    case Some(t) => Finish(t, id, run)
  }

  datatype StatusView = StatusView(taskId: string, status: string, error: Option<string>)

  /** `get_scraping_status`. */
  function GetScrapingStatus(tasks: Tasks, id: string): (r: Result<StatusView, HttpError>)
    ensures r.Err? <==> id !in tasks
    ensures r.Err? ==> r.error == TaskNotFound
    ensures r.Ok? ==> r.value.status == StatusText(tasks[id].status) && r.value.error == tasks[id].error
  {
    if id !in tasks then Err(TaskNotFound)
    else Ok(StatusView(id, StatusText(tasks[id].status), tasks[id].error))
  }

  /** `get_scraping_results`: 404 for an unknown task, 400 naming the status unless it is completed. */
  function GetScrapingResults(tasks: Tasks, id: string): (r: Result<Option<seq<Record>>, HttpError>)
    ensures id !in tasks ==> r == Err(TaskNotFound)
    ensures id in tasks && tasks[id].status != Completed ==>
              r == Err(HttpError(400, "Task is " + StatusText(tasks[id].status) + ", not completed"))
    ensures r.Ok? <==> id in tasks && tasks[id].status == Completed
    ensures r.Ok? && WellFormed(tasks[id]) ==> r.value.Some?
  {
    if id !in tasks then Err(TaskNotFound)
    else if tasks[id].status != Completed then
      Err(HttpError(400, "Task is " + StatusText(tasks[id].status) + ", not completed"))
    else Ok(tasks[id].results)
  }

  // ---------------------------------------------------------------------
  // The status machine
  // ---------------------------------------------------------------------

  /** Each update moves a task one step along the machine and keeps every task well formed. */
  lemma UpdatesFollowMachine(tasks: Tasks, id: string, run: PipelineRun)
    requires AllWellFormed(tasks)
    ensures AllWellFormed(ExecuteScraping(tasks, id).0)
    ensures id in tasks && tasks[id].status == Pending ==>
              Step(tasks[id].status, MarkRunning(tasks, id).value[id].status) && AllWellFormed(MarkRunning(tasks, id).value)
    ensures id in tasks && tasks[id].status == Running ==>
              Step(tasks[id].status, Finish(tasks, id, run).value[id].status) && AllWellFormed(Finish(tasks, id, run).value)
  {
  }

  /**
   * A request followed by its background job: the scraping task ends completed
   * with exactly the service's records (its results endpoint answers with
   * them), or failed with the error, which the status endpoint reports.
   */
  lemma RequestLifecycle(tasks: Tasks, id: string, run: PipelineRun)
    requires AllWellFormed(tasks)
    ensures var t := RunScrapingTask(ExecuteScraping(tasks, id).0, id, run);
            && t.Some? && AllWellFormed(t.value)
            && (run.RunReturned? ==> GetScrapingResults(t.value, id) == Ok(Some(run.records)))
            && (run.RunRaised? ==>
                  && GetScrapingStatus(t.value, id) == Ok(StatusView(id, "failed", Some(run.message)))
                  && GetScrapingResults(t.value, id).Err?)
  {
  }

  /** While the job has not finished, results are refused with the current status. */
  lemma PendingResultsRefused(tasks: Tasks, id: string)
    ensures var t := ExecuteScraping(tasks, id).0;
            && GetScrapingResults(t, id) == Err(HttpError(400, "Task is pending, not completed"))
            && GetScrapingResults(MarkRunning(t, id).value, id) == Err(HttpError(400, "Task is running, not completed"))
  {
    assert "Task is " + StatusText(Pending) + ", not completed" == "Task is pending, not completed";
    assert "Task is " + StatusText(Running) + ", not completed" == "Task is running, not completed";
  }

  /** With the service of this model, which reports failures in its records, a job always completes. */
  lemma ServiceRunCompletes(tasks: Tasks, id: string, urls: seq<string>, schema: Dict<ScrapeGraph.Json>,
                            batch: ScrapeGraph.Batch<ScrapeGraph.Reply>)
    requires id in tasks
    ensures var records := ScrapeGraph.ExecutePipelineWithSchema(urls, schema, batch);
            var t := RunScrapingTask(tasks, id, RunReturned(records)).value;
            && t[id].status == Completed && t[id].results == Some(records)
            && |records| <= |urls|
  {
  }
}
