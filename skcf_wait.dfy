/**
 * The wait handlers of the SKE-on-Cloud-Foundry (skcf) service: the
 * resource snapshots they read, the state names they compare against,
 * the check function each handler hands to the polling engine, and the
 * handler constructors with their default timeouts.
 */
module SkcfWait {
  import opened Wrappers
  import opened Probes
  import opened AsyncWait

  const StateHealthy: string := "STATE_HEALTHY"
  const StateFailed: string := "STATE_FAILED"
  const StateDeleting: string := "STATE_DELETING"
  const StateCreated: string := "STATE_CREATED"
  const StateUnhealthy: string := "STATE_UNHEALTHY"

  /** A cluster as read back: its (optional) name and its aggregated status state. */
  datatype Cluster = Cluster(name: Option<string>, aggregated: string)

  /** The answer of a cluster listing. */
  datatype ListClustersResponse = ListClustersResponse(items: seq<Cluster>)

  /** The service status of a project. */
  datatype ProjectResponse = ProjectResponse(projectId: Option<string>, state: string)

  /** The response type of the disable handler, Go's struct{}. */
  type Empty = ()

  // ---------------------------------------------------------------------
  // Cluster create or update

  /**
   * One tick of the create-or-update wait. A client error ends the wait
   * with that error; a healthy cluster ends it with the snapshot; a
   * failed cluster ends it with the snapshot and an error; every other
   * state keeps polling.
   */
  function CreateOrUpdateClusterCheck(probe: ProbeResult<Cluster>): (r: Step<Cluster>)
    ensures probe.Failed? ==> r == Step(false, None, Some(ProbeFailed(probe.error)))
    ensures probe.Found? ==>
      (r.finished <==> probe.snapshot.aggregated == StateHealthy || probe.snapshot.aggregated == StateFailed)
    ensures probe.Found? ==> (r.err.Some? <==> probe.snapshot.aggregated == StateFailed)
    ensures probe.Found? && r.err.Some? ==> r.err == Some(CreateFailed)
    ensures r.resp.Some? <==> r.finished
    ensures r.resp.Some? ==> probe == Found(r.resp.value)
    ensures QuietWhilePending(r)
  {
    match probe
    case Failed(e) => Step(false, None, Some(ProbeFailed(e)))
    case Found(s) =>
      if s.aggregated == StateHealthy then Step(true, Some(s), None)
      else if s.aggregated == StateFailed then Step(true, Some(s), Some(CreateFailed))
      else Step(false, None, None)
  }

  /** CreateOrUpdateClusterWaitHandler: the check above, with a 45-minute timeout. */
  method CreateOrUpdateClusterWaitHandler(projectId: string, name: string) returns (h: AsyncActionHandler<Cluster, Cluster>)
    ensures fresh(h)
    ensures h.check == CreateOrUpdateClusterCheck
    ensures h.timeout == Some(45 * Minute)
  {
    h := new AsyncActionHandler.New(CreateOrUpdateClusterCheck);
    var self := h.SetTimeout(45 * Minute);
  }

  // ---------------------------------------------------------------------
  // Cluster delete

  /** Whether some item of the listing carries the name `name` (a nameless item never does). */
  function Listed(items: seq<Cluster>, name: string): (b: bool)
    ensures b <==> exists i :: 0 <= i < |items| && items[i].name == Some(name)
  {
    if items == [] then false
    else items[0].name == Some(name) || Listed(items[1..], name)
  }

  /**
   * One tick of the delete wait. A client error ends the wait with that
   * error; a listing in which no item is named `name` ends it with the
   * whole listing; otherwise polling goes on. Deletion itself has no
   * failure state.
   */
  function DeleteClusterCheck(name: string, probe: ProbeResult<ListClustersResponse>): (r: Step<ListClustersResponse>)
    ensures probe.Failed? ==> r == Step(false, None, Some(ProbeFailed(probe.error)))
    ensures probe.Found? ==>
      (r.finished <==> forall i :: 0 <= i < |probe.snapshot.items| ==> probe.snapshot.items[i].name != Some(name))
    ensures r.err.Some? ==> probe.Failed?
    ensures r.resp.Some? <==> r.finished
    ensures r.resp.Some? ==> probe == Found(r.resp.value)
    ensures QuietWhilePending(r)
  {
    match probe
    case Failed(e) => Step(false, None, Some(ProbeFailed(e)))
    case Found(s) =>
      if Listed(s.items, name) then Step(false, None, None)
      else Step(true, Some(s), None)
  }

  /** The delete check as the handler runs it: a scan of the listing that stops at the first item named `name`. */
  method DeleteClusterStep(name: string, probe: ProbeResult<ListClustersResponse>) returns (r: Step<ListClustersResponse>)
    ensures r == DeleteClusterCheck(name, probe)
  {
    if probe.Failed? {
      return Step(false, None, Some(ProbeFailed(probe.error)));
    }
    var items := probe.snapshot.items;
    for i := 0 to |items|
      invariant forall j :: 0 <= j < i ==> items[j].name != Some(name)
    {
      var n := items[i].name;
      if n.Some? && n.value == name {
        return Step(false, None, None);
      }
    }
    return Step(true, Some(probe.snapshot), None);
  }

  /** DeleteClusterWaitHandler: the delete check for `name`, with a 45-minute timeout. */
  method DeleteClusterWaitHandler(projectId: string, name: string) returns (h: AsyncActionHandler<ListClustersResponse, ListClustersResponse>)
    ensures fresh(h)
    ensures h.check == ((p: ProbeResult<ListClustersResponse>) => DeleteClusterCheck(name, p))
    ensures h.timeout == Some(45 * Minute)
  {
    h := new AsyncActionHandler.New((p: ProbeResult<ListClustersResponse>) => DeleteClusterCheck(name, p));
    var self := h.SetTimeout(45 * Minute);
  }

  // ---------------------------------------------------------------------
  // Service enable

  /**
   * One tick of the enable wait. A client error ends the wait with that
   * error; a deleting or failed service ends it with an error naming the
   * state and the project and no response; a created service ends it
   * with the snapshot; every other state keeps polling.
   */
  function EnableServiceCheck(projectId: string, probe: ProbeResult<ProjectResponse>): (r: Step<ProjectResponse>)
    ensures probe.Failed? ==> r == Step(false, None, Some(ProbeFailed(probe.error)))
    ensures probe.Found? ==> (r.finished <==> probe.snapshot.state == StateCreated)
    ensures probe.Found? ==>
      (r.err.Some? <==> probe.snapshot.state == StateDeleting || probe.snapshot.state == StateFailed)
    ensures probe.Found? && r.err.Some? ==> r.err == Some(ReceivedState(probe.snapshot.state, projectId))
    ensures r.resp.Some? <==> r.finished
    ensures r.resp.Some? ==> probe == Found(r.resp.value)
    ensures QuietWhilePending(r)
  {
    match probe
    case Failed(e) => Step(false, None, Some(ProbeFailed(e)))
    case Found(s) =>
      if s.state == StateDeleting || s.state == StateFailed then
        Step(false, None, Some(ReceivedState(s.state, projectId)))
      else if s.state == StateCreated then Step(true, Some(s), None)
      else Step(false, None, None)
  }

  /** EnableServiceWaitHandler: the enable check for `projectId`, with a 15-minute timeout. */
  method EnableServiceWaitHandler(projectId: string) returns (h: AsyncActionHandler<ProjectResponse, ProjectResponse>)
    ensures fresh(h)
    ensures h.check == ((p: ProbeResult<ProjectResponse>) => EnableServiceCheck(projectId, p))
    ensures h.timeout == Some(15 * Minute)
  {
    h := new AsyncActionHandler.New((p: ProbeResult<ProjectResponse>) => EnableServiceCheck(projectId, p));
    var self := h.SetTimeout(15 * Minute);
  }

  // ---------------------------------------------------------------------
  // Service disable

  /** Whether a client error says the service status is gone: an API error with status 404 or 403. */
  predicate IsGone(e: ProbeError)
  {
    e.OpenAPIError? && (e.statusCode == StatusNotFound || e.statusCode == StatusForbidden)
  }

  /**
   * One tick of the disable wait. A successful read means the service is
   * still there; an API error with status 404 or 403 ends the wait with
   * neither response nor error; any other API error ends it with that
   * error; an error of another kind ends it with that error wrapped. The
   * snapshot itself is never looked at and never returned.
   */
  function DisableServiceCheck(probe: ProbeResult<ProjectResponse>): (r: Step<Empty>)
    ensures r.resp == None
    ensures r.finished <==> probe.Failed? && IsGone(probe.error)
    ensures r.err.Some? <==> probe.Failed? && !IsGone(probe.error)
    ensures probe.Failed? && probe.error.OpenAPIError? && !IsGone(probe.error) ==>
      r.err == Some(ProbeFailed(probe.error))
    ensures probe.Failed? && probe.error.OtherError? ==> r.err == Some(ConversionFailed(probe.error))
    ensures QuietWhilePending(r)
  {
    match probe
    case Found(_) => Step(false, None, None)
    case Failed(e) =>
      if !e.OpenAPIError? then Step(false, None, Some(ConversionFailed(e)))
      else if e.statusCode == StatusNotFound || e.statusCode == StatusForbidden then Step(true, None, None)
      else Step(false, None, Some(ProbeFailed(e)))
  }

  /** DisableServiceWaitHandler: the disable check, with a 15-minute timeout. */
  method DisableServiceWaitHandler(projectId: string) returns (h: AsyncActionHandler<ProjectResponse, Empty>)
    ensures fresh(h)
    ensures h.check == DisableServiceCheck
    ensures h.timeout == Some(15 * Minute)
  {
    h := new AsyncActionHandler.New(DisableServiceCheck);
    var self := h.SetTimeout(15 * Minute);
  }
}
