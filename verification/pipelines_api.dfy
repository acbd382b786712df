/**
 * The pipeline endpoints (`backend/app/api/pipelines.py`) over their
 * in-memory `pipelines_store`: create, read, list, partial update,
 * delete, and the guards of run, status, results and export. The store is
 * an ordered dictionary from id to pipeline, so listing follows insertion
 * order as Python's `dict` does. The clock and the fresh UUID are
 * parameters.
 */
module PipelinesApi {
  import opened Base

  datatype PipelineStatus = Idle | Running | Completed | Failed | Cancelled

  /** `Pipeline`; schema values are kept as their text, timestamps as integers. */
  datatype Pipeline = Pipeline(
    id: string,
    name: string,
    description: Option<string>,
    urls: seq<string>,
    schema: Dict<string>,
    code: string,
    status: PipelineStatus,
    createdAt: int,
    updatedAt: int,
    userId: Option<string>,
    resultsCount: nat,
    lastRun: Option<int>)

  datatype PipelineCreate = PipelineCreate(name: string, description: Option<string>,
                                           urls: Option<seq<string>>, schema: Option<Dict<string>>)

  datatype PipelineUpdate = PipelineUpdate(name: Option<string>, description: Option<string>, urls: Option<seq<string>>,
                                           schema: Option<Dict<string>>, code: Option<string>)

  type Store = Dict<Pipeline>

  datatype HttpError = HttpError(status: nat, detail: string)

  const PipelineNotFound := HttpError(404, "Pipeline not found")
  const NoUrls := HttpError(400, "No URLs defined in pipeline")
  const NoSchema := HttpError(400, "No schema defined in pipeline")
  const InvalidFormat := HttpError(400, "Invalid export format")

  /** A store as the endpoints build it: each id once, stored under itself. */
  predicate Valid(store: Store)
  {
    && NoDup(Keys(store))
    && forall i :: 0 <= i < |store| ==> store[i].1.id == store[i].0
  }

  /** `pipeline.urls or []`: a missing or empty list both give `[]`. */
  function OrEmpty<T>(o: Option<seq<T>>): (r: seq<T>)
    ensures o.Some? ==> r == o.value
    ensures o.None? ==> r == []
  {
    o.GetOr([])
  }

  /** `create_pipeline`: a new idle pipeline with empty code, stored under the fresh id `id`. */
  function CreatePipeline(store: Store, id: string, req: PipelineCreate, now: int): (r: (Store, Pipeline))
    ensures r.1 == Pipeline(id, req.name, req.description, OrEmpty(req.urls), OrEmpty(req.schema), "", Idle,
                            now, now, None, 0, None)
    ensures Get(r.0, id) == Some(r.1)
    ensures forall x :: x != id ==> Get(r.0, x) == Get(store, x)
    ensures id !in Keys(store) ==> Keys(r.0) == Keys(store) + [id]
  {
    var p := Pipeline(id, req.name, req.description, OrEmpty(req.urls), OrEmpty(req.schema), "", Idle,
                      now, now, None, 0, None);
    (Put(store, id, p), p)
  }

  /** `get_pipeline`. */
  function GetPipeline(store: Store, id: string): (r: Result<Pipeline, HttpError>)
    ensures r.Err? <==> id !in Keys(store)
    ensures r.Err? ==> r.error == PipelineNotFound
    ensures r.Ok? ==> Get(store, id) == Some(r.value)
  {
    match Get(store, id)
    case None => Err(PipelineNotFound)
    case Some(p) => Ok(p)
  }

  /** `list_pipelines`: the values in insertion order, sliced `[skip:skip + limit]`. */
  function ListPipelines(store: Store, skip: int, limit: int): (r: seq<Pipeline>)
    ensures 0 <= skip && 0 <= limit ==> |r| <= limit
    ensures 0 <= skip && 0 <= limit ==>
              forall i :: 0 <= i < |r| ==> skip + i < |store| && r[i] == store[skip + i].1
    ensures 0 <= skip && 0 <= limit ==> r == Values(store)[Min(skip, |store|)..Min(skip + limit, |store|)]
    ensures 0 <= skip && 0 <= limit ==> |r| == Min(limit, Max(|store| - skip, 0))
  {
    PySlice(Values(store), skip, skip + limit)
  }

  /** Consecutive pages join up: the page after `a` entries continues the first one, and one page from 0 of the store's size lists every pipeline. */
  lemma ListPipelinesPages(store: Store, skip: nat, a: nat, b: nat)
    ensures ListPipelines(store, skip, a) + ListPipelines(store, skip + a, b) == ListPipelines(store, skip, a + b)
    ensures ListPipelines(store, 0, |store|) == Values(store)
  {
    var vs := Values(store);
    var lo, mid, hi := Min(skip, |vs|), Min(skip + a, |vs|), Min(skip + a + b, |vs|);
    assert vs[lo..mid] + vs[mid..hi] == vs[lo..hi];
    assert vs[0..|vs|] == vs;
  }

  /** Each field the update carries replaces the stored one; `updated_at` always moves to `now`. */
  function ApplyUpdate(p: Pipeline, u: PipelineUpdate, now: int): (q: Pipeline)
    ensures q.name == u.name.GetOr(p.name) && q.description == (if u.description.Some? then u.description else p.description)
    ensures q.urls == u.urls.GetOr(p.urls) && q.schema == u.schema.GetOr(p.schema) && q.code == u.code.GetOr(p.code)
    ensures q.updatedAt == now
    ensures q.(name := p.name, description := p.description, urls := p.urls, schema := p.schema, code := p.code,
               updatedAt := p.updatedAt) == p
  {
    p.(name := u.name.GetOr(p.name),
       description := if u.description.Some? then u.description else p.description,
       urls := u.urls.GetOr(p.urls),
       schema := u.schema.GetOr(p.schema),
       code := u.code.GetOr(p.code),
       updatedAt := now)
  }

  /** `update_pipeline`: 404 for an unknown id; otherwise the pipeline is updated in place. */
  function UpdatePipeline(store: Store, id: string, u: PipelineUpdate, now: int): (r: Result<(Store, Pipeline), HttpError>)
    ensures r.Err? <==> id !in Keys(store)
    ensures r.Err? ==> r.error == PipelineNotFound
    ensures r.Ok? ==>
              && r.value.1 == ApplyUpdate(Get(store, id).value, u, now)
              && Keys(r.value.0) == Keys(store)
              && Get(r.value.0, id) == Some(r.value.1)
              && forall x :: x != id ==> Get(r.value.0, x) == Get(store, x)
  {
    match Get(store, id)
    case None => Err(PipelineNotFound)
    case Some(p) =>
      var q := ApplyUpdate(p, u, now);
      Ok((Put(store, id, q), q))
  }

  /** `delete_pipeline`. */
  function DeletePipeline(store: Store, id: string): (r: Result<Store, HttpError>)
    ensures r.Err? <==> id !in Keys(store)
    ensures r.Err? ==> r.error == PipelineNotFound
    ensures r.Ok? ==> Get(r.value, id) == None && forall x :: x != id ==> Get(r.value, x) == Get(store, x)
  {
    if id !in Keys(store) then Err(PipelineNotFound) else Ok(Delete(store, id))
  }

  /**
   * `run_pipeline`: 404, then 400 without URLs, then 400 without schema;
   * otherwise the status becomes running (and nothing else changes, not
   * even `updated_at`).
   */
  function RunPipeline(store: Store, id: string): (r: Result<Store, HttpError>)
    ensures id !in Keys(store) ==> r == Err(PipelineNotFound)
    ensures id in Keys(store) && Get(store, id).value.urls == [] ==> r == Err(NoUrls)
    ensures id in Keys(store) && Get(store, id).value.urls != [] && Get(store, id).value.schema == [] ==> r == Err(NoSchema)
    ensures r.Ok? <==> id in Keys(store) && Get(store, id).value.urls != [] && Get(store, id).value.schema != []
    ensures r.Ok? ==>
              && Keys(r.value) == Keys(store)
              && Get(r.value, id) == Some(Get(store, id).value.(status := Running))
              && forall x :: x != id ==> Get(r.value, x) == Get(store, x)
  {
    match Get(store, id)
    case None => Err(PipelineNotFound)
    case Some(p) =>
      if p.urls == [] then Err(NoUrls)
      else if p.schema == [] then Err(NoSchema)
      else Ok(Put(store, id, p.(status := Running)))
  }

  datatype StatusReply = StatusReply(pipelineId: string, status: PipelineStatus, updatedAt: int)

  /** `get_pipeline_status`. */
  function PipelineStatusOf(store: Store, id: string): (r: Result<StatusReply, HttpError>)
    ensures r.Err? <==> id !in Keys(store)
    ensures r.Err? ==> r.error == PipelineNotFound
    ensures r.Ok? ==> r.value.status == Get(store, id).value.status && r.value.updatedAt == Get(store, id).value.updatedAt
  {
    match Get(store, id)
    case None => Err(PipelineNotFound)
    case Some(p) => Ok(StatusReply(id, p.status, p.updatedAt))
  }

  datatype ResultsReply = ResultsReply(pipelineId: string, results: seq<string>, total: nat, success: nat, failed: nat)

  /** `get_pipeline_results`: a placeholder reply with no results for any known pipeline. */
  function PipelineResults(store: Store, id: string): (r: Result<ResultsReply, HttpError>)
    ensures r.Err? <==> id !in Keys(store)
    ensures r.Err? ==> r.error == PipelineNotFound
    ensures r.Ok? ==> r.value.results == [] && r.value.total == r.value.success + r.value.failed == 0
  {
    if id !in Keys(store) then Err(PipelineNotFound) else Ok(ResultsReply(id, [], 0, 0, 0))
  }

  const ExportFormats := ["json", "csv", "excel"]

  datatype ExportReply = ExportReply(message: string, downloadUrl: string)

  /** `export_pipeline_results`: 404 first, then 400 for a format other than json, csv or excel. */
  function ExportPipelineResults(store: Store, id: string, format: string): (r: Result<ExportReply, HttpError>)
    ensures id !in Keys(store) ==> r == Err(PipelineNotFound)
    ensures id in Keys(store) && format !in ExportFormats ==> r == Err(InvalidFormat)
    ensures r.Ok? <==> id in Keys(store) && format in ExportFormats
    ensures r.Ok? ==> r.value.downloadUrl == "/api/pipelines/" + id + "/download/" + format
  {
    if id !in Keys(store) then Err(PipelineNotFound)
    else if format !in ExportFormats then Err(InvalidFormat)
    else Ok(ExportReply("Results exported as " + format, "/api/pipelines/" + id + "/download/" + format))
  }

  // ---------------------------------------------------------------------
  // Properties across endpoints
  // ---------------------------------------------------------------------

  /** Every endpoint that changes the store keeps it a valid one. */
  lemma EndpointsKeepValid(store: Store, id: string, req: PipelineCreate, u: PipelineUpdate, now: int)
    requires Valid(store)
    ensures Valid(CreatePipeline(store, id, req, now).0)
    ensures UpdatePipeline(store, id, u, now).Ok? ==> Valid(UpdatePipeline(store, id, u, now).value.0)
    ensures DeletePipeline(store, id).Ok? ==> Valid(DeletePipeline(store, id).value)
    ensures RunPipeline(store, id).Ok? ==> Valid(RunPipeline(store, id).value)
  {
    PutValid(store, id, CreatePipeline(store, id, req, now).1);
    if id in Keys(store) {
      var p := Get(store, id).value;
      GetIdMatches(store, id);
      PutValid(store, id, ApplyUpdate(p, u, now));
      PutValid(store, id, p.(status := Running));
      DeleteValid(store, id);
    }
  }

  /** A stored pipeline carries the id it is stored under. */
  lemma {:induction false} GetIdMatches(store: Store, id: string)
    requires Valid(store) && id in Keys(store)
    ensures Get(store, id).value.id == id
  {
    if store[0].0 != id {
      assert Keys(store) == [store[0].0] + Keys(store[1..]);
      assert Valid(store[1..]) by {
        assert Keys(store[1..]) == Keys(store)[1..];
      }
      GetIdMatches(store[1..], id);
    }
  }

  lemma {:induction false} PutValid(store: Store, id: string, p: Pipeline)
    requires Valid(store) && p.id == id
    ensures Valid(Put(store, id, p))
  {
    PutKeepsNoDup(store, id, p);
    var r := Put(store, id, p);
    forall i | 0 <= i < |r| ensures r[i].1.id == r[i].0 {
      var k := r[i].0;
      assert Keys(r)[i] == k;
      GetAt(r, i);
      if k == id {
      } else {
        assert k in Keys(store);
        GetIdMatches(store, k);
      }
    }
  }

  lemma {:induction false} DeleteValid(store: Store, id: string)
    requires Valid(store)
    ensures Valid(Delete(store, id))
  {
    var r := Delete(store, id);
    forall i | 0 <= i < |r| ensures r[i].1.id == r[i].0 {
      var k := r[i].0;
      assert Keys(r)[i] == k;
      GetAt(r, i);
      GetIdMatches(store, k);
    }
  }

  /** A created pipeline can be read back, and once deleted it is 404 again. */
  lemma CreateGetDelete(store: Store, id: string, req: PipelineCreate, now: int)
    ensures var (s1, p) := CreatePipeline(store, id, req, now);
            && GetPipeline(s1, id) == Ok(p)
            && p.status == Idle && p.code == ""
            && DeletePipeline(s1, id).Ok?
            && GetPipeline(DeletePipeline(s1, id).value, id) == Err(PipelineNotFound)
  {
  }

  /** An update without fields changes only `updated_at`; applying the same update twice is applying it once. */
  lemma UpdateIdempotent(p: Pipeline, u: PipelineUpdate, now: int)
    ensures ApplyUpdate(ApplyUpdate(p, u, now), u, now) == ApplyUpdate(p, u, now)
    ensures ApplyUpdate(p, PipelineUpdate(None, None, None, None, None), now) == p.(updatedAt := now)
  {
  }

  /** A run that was accepted can be repeated, and leaves the pipeline's content for status to report. */
  lemma RunThenStatus(store: Store, id: string)
    requires RunPipeline(store, id).Ok?
    ensures PipelineStatusOf(RunPipeline(store, id).value, id).Ok?
    ensures PipelineStatusOf(RunPipeline(store, id).value, id).value.status == Running
    ensures RunPipeline(RunPipeline(store, id).value, id) == RunPipeline(store, id)
  {
    var s1 := RunPipeline(store, id).value;
    PutPresent(s1, id, Get(s1, id).value);
  }
}
