/**
 * Whole waits built from the skcf check functions and the engine model:
 * how many probes each handler makes and what it returns, for probe
 * sequences that stay pending for a while and then end, and for the
 * constant mock clients of the handler tests.
 */
module SkcfWaitScenarios {
  import opened Wrappers
  import opened Probes
  import opened AsyncWait
  import opened SkcfWait

  /** A cluster state the create-or-update check keeps polling on. */
  predicate ClusterInProgress(p: ProbeResult<Cluster>)
  {
    p.Found? && p.snapshot.aggregated != StateHealthy && p.snapshot.aggregated != StateFailed
  }

  /**
   * Create or update: after n in-progress snapshots, a healthy snapshot
   * is returned without error, and a failed one with the create-failed
   * error, after exactly n + 1 probes.
   */
  lemma ClusterEndsAfterProgress(probe: nat -> ProbeResult<Cluster>, budget: nat, n: nat, c: Cluster)
    requires n < budget
    requires forall j: nat :: j < n ==> ClusterInProgress(probe(j))
    requires probe(n) == Found(c)
    requires c.aggregated == StateHealthy || c.aggregated == StateFailed
    ensures Run(CreateOrUpdateClusterCheck, probe, budget)
         == WaitResult(Some(c), if c.aggregated == StateFailed then Some(CreateFailed) else None, n + 1)
  {
    RunStopsAt(CreateOrUpdateClusterCheck, probe, budget, n);
  }

  /** Create or update: a cluster that stays in progress until the deadline gives a timeout and no snapshot. */
  lemma ClusterTimesOut(probe: nat -> ProbeResult<Cluster>, budget: nat)
    requires forall j: nat :: j < budget ==> ClusterInProgress(probe(j))
    ensures Run(CreateOrUpdateClusterCheck, probe, budget) == WaitResult(None, Some(TimedOut), budget)
  {
    RunTimesOut(CreateOrUpdateClusterCheck, probe, budget);
  }

  /**
   * For the cluster and enable handlers, and for the disable handler
   * when the error is not one it reads as success, a client error on
   * the first tick ends the wait at once with that error.
   */
  lemma ProbeErrorEndsWaitAtOnce(
    name: string, projectId: string, budget: nat, e: ProbeError,
    pc: nat -> ProbeResult<Cluster>, pl: nat -> ProbeResult<ListClustersResponse>,
    pp: nat -> ProbeResult<ProjectResponse>)
    requires 1 <= budget
    requires pc(0) == Failed(e) && pl(0) == Failed(e) && pp(0) == Failed(e)
    ensures Run(CreateOrUpdateClusterCheck, pc, budget) == WaitResult(None, Some(ProbeFailed(e)), 1)
    ensures Run((p: ProbeResult<ListClustersResponse>) => DeleteClusterCheck(name, p), pl, budget)
         == WaitResult(None, Some(ProbeFailed(e)), 1)
    ensures Run((p: ProbeResult<ProjectResponse>) => EnableServiceCheck(projectId, p), pp, budget)
         == WaitResult(None, Some(ProbeFailed(e)), 1)
    ensures e.OpenAPIError? && !IsGone(e) ==>
      Run(DisableServiceCheck, pp, budget) == WaitResult(None, Some(ProbeFailed(e)), 1)
  {
    RunStopsAt(CreateOrUpdateClusterCheck, pc, budget, 0);
    RunStopsAt((p: ProbeResult<ListClustersResponse>) => DeleteClusterCheck(name, p), pl, budget, 0);
    RunStopsAt((p: ProbeResult<ProjectResponse>) => EnableServiceCheck(projectId, p), pp, budget, 0);
    if e.OpenAPIError? && !IsGone(e) {
      RunStopsAt(DisableServiceCheck, pp, budget, 0);
    }
  }

  /**
   * Delete: while every listing names the cluster, polling goes on; the
   * first listing without it is returned, without error, after exactly
   * n + 1 probes.
   */
  lemma DeleteEndsOnceAbsent(name: string, probe: nat -> ProbeResult<ListClustersResponse>, budget: nat, n: nat, s: ListClustersResponse)
    requires n < budget
    requires forall j: nat :: j < n ==> probe(j).Found? && Listed(probe(j).snapshot.items, name)
    requires probe(n) == Found(s) && !Listed(s.items, name)
    ensures Run((p: ProbeResult<ListClustersResponse>) => DeleteClusterCheck(name, p), probe, budget)
         == WaitResult(Some(s), None, n + 1)
  {
    RunStopsAt((p: ProbeResult<ListClustersResponse>) => DeleteClusterCheck(name, p), probe, budget, n);
  }

  /** Delete: a cluster that stays listed until the deadline gives a timeout and no listing. */
  lemma DeleteTimesOut(name: string, probe: nat -> ProbeResult<ListClustersResponse>, budget: nat)
    requires forall j: nat :: j < budget ==> probe(j).Found? && Listed(probe(j).snapshot.items, name)
    ensures Run((p: ProbeResult<ListClustersResponse>) => DeleteClusterCheck(name, p), probe, budget)
         == WaitResult(None, Some(TimedOut), budget)
  {
    RunTimesOut((p: ProbeResult<ListClustersResponse>) => DeleteClusterCheck(name, p), probe, budget);
  }

  /** Delete: listings of size 0, 1 and 2, with the target present or absent. */
  lemma DeleteListingSizes()
    ensures DeleteClusterCheck("c", Found(ListClustersResponse([]))).finished
    ensures !DeleteClusterCheck("c", Found(ListClustersResponse([Cluster(Some("c"), StateHealthy)]))).finished
    ensures DeleteClusterCheck("c", Found(ListClustersResponse([Cluster(Some("d"), StateHealthy)]))).finished
    ensures DeleteClusterCheck("c", Found(ListClustersResponse([Cluster(None, StateHealthy), Cluster(Some("d"), StateFailed)]))).finished
    ensures !DeleteClusterCheck("c", Found(ListClustersResponse([Cluster(Some("d"), StateHealthy), Cluster(Some("c"), StateDeleting)]))).finished
  {
    assert [Cluster(Some("d"), StateHealthy), Cluster(Some("c"), StateDeleting)][1].name == Some("c");
  }

  /** A service state the enable check keeps polling on. */
  predicate ServiceInProgress(p: ProbeResult<ProjectResponse>)
  {
    && p.Found?
    && p.snapshot.state != StateCreated
    && p.snapshot.state != StateDeleting
    && p.snapshot.state != StateFailed
  }

  /**
   * Enable: after n in-progress snapshots, a created service is returned
   * without error, and a deleting or failed one gives the received-state
   * error and no snapshot, after exactly n + 1 probes.
   */
  lemma EnableEndsAfterProgress(projectId: string, probe: nat -> ProbeResult<ProjectResponse>, budget: nat, n: nat, s: ProjectResponse)
    requires n < budget
    requires forall j: nat :: j < n ==> ServiceInProgress(probe(j))
    requires probe(n) == Found(s) && !ServiceInProgress(probe(n))
    ensures Run((p: ProbeResult<ProjectResponse>) => EnableServiceCheck(projectId, p), probe, budget)
         == if s.state == StateCreated then WaitResult(Some(s), None, n + 1)
            else WaitResult(None, Some(ReceivedState(s.state, projectId)), n + 1)
  {
    RunStopsAt((p: ProbeResult<ProjectResponse>) => EnableServiceCheck(projectId, p), probe, budget, n);
  }

  /**
   * Disable: after n successful reads, an API error with status 404 or
   * 403 ends the wait with neither response nor error, and any other API
   * status ends it with that error, after exactly n + 1 probes.
   */
  lemma DisableEndsOnApiError(probe: nat -> ProbeResult<ProjectResponse>, budget: nat, n: nat, code: int)
    requires n < budget
    requires forall j: nat :: j < n ==> probe(j).Found?
    requires probe(n) == Failed(OpenAPIError(code))
    ensures Run(DisableServiceCheck, probe, budget)
         == if code == StatusNotFound || code == StatusForbidden then WaitResult(None, None, n + 1)
            else WaitResult(None, Some(ProbeFailed(OpenAPIError(code))), n + 1)
  {
    RunStopsAt(DisableServiceCheck, probe, budget, n);
  }

  /** Disable: a service status that can still be read until the deadline gives a timeout. */
  lemma DisableTimesOut(probe: nat -> ProbeResult<ProjectResponse>, budget: nat)
    requires forall j: nat :: j < budget ==> probe(j).Found?
    ensures Run(DisableServiceCheck, probe, budget) == WaitResult(None, Some(TimedOut), budget)
  {
    RunTimesOut(DisableServiceCheck, probe, budget);
  }

  // ---------------------------------------------------------------------
  // The handler tests' mock clients answer every tick alike.

  function MockCluster(state: string): Cluster
  {
    Cluster(Some("cluster"), state)
  }

  function MockProject(state: string): ProjectResponse
  {
    ProjectResponse(Some("pid"), state)
  }

  const InternalServerError: ProbeError := OpenAPIError(500)

  /** The create-or-update test table, for any deadline that lets one probe through. */
  lemma CreateOrUpdateClusterTable(budget: nat)
    requires 1 <= budget
    ensures Run(CreateOrUpdateClusterCheck, (j: nat) => Found(MockCluster(StateHealthy)), budget)
         == WaitResult(Some(MockCluster(StateHealthy)), None, 1)
    ensures Run(CreateOrUpdateClusterCheck, (j: nat) => Found(MockCluster(StateFailed)), budget)
         == WaitResult(Some(MockCluster(StateFailed)), Some(CreateFailed), 1)
    ensures Run(CreateOrUpdateClusterCheck, (j: nat) => Failed(InternalServerError), budget)
         == WaitResult(None, Some(ProbeFailed(InternalServerError)), 1)
    ensures Run(CreateOrUpdateClusterCheck, (j: nat) => Found(MockCluster("ANOTHER STATE")), budget)
         == WaitResult(None, Some(TimedOut), budget)
  {
    ClusterEndsAfterProgress((j: nat) => Found(MockCluster(StateHealthy)), budget, 0, MockCluster(StateHealthy));
    ClusterEndsAfterProgress((j: nat) => Found(MockCluster(StateFailed)), budget, 0, MockCluster(StateFailed));
    RunStopsAt(CreateOrUpdateClusterCheck, (j: nat) => Failed(InternalServerError), budget, 0);
    ClusterTimesOut((j: nat) => Found(MockCluster("ANOTHER STATE")), budget);
  }

  /** The enable test table; its "create_failed" row reads an empty state, which keeps polling. */
  lemma EnableServiceTable(budget: nat)
    requires 1 <= budget
    ensures Run((p: ProbeResult<ProjectResponse>) => EnableServiceCheck("", p), (j: nat) => Found(MockProject(StateCreated)), budget)
         == WaitResult(Some(MockProject(StateCreated)), None, 1)
    ensures Run((p: ProbeResult<ProjectResponse>) => EnableServiceCheck("", p), (j: nat) => Found(MockProject("")), budget)
         == WaitResult(None, Some(TimedOut), budget)
    ensures Run((p: ProbeResult<ProjectResponse>) => EnableServiceCheck("", p), (j: nat) => Failed(InternalServerError), budget)
         == WaitResult(None, Some(ProbeFailed(InternalServerError)), 1)
    ensures Run((p: ProbeResult<ProjectResponse>) => EnableServiceCheck("", p), (j: nat) => Found(MockProject("ANOTHER STATE")), budget)
         == WaitResult(None, Some(TimedOut), budget)
  {
    var check := (p: ProbeResult<ProjectResponse>) => EnableServiceCheck("", p);
    RunStopsAt(check, (j: nat) => Found(MockProject(StateCreated)), budget, 0);
    RunTimesOut(check, (j: nat) => Found(MockProject("")), budget);
    RunStopsAt(check, (j: nat) => Failed(InternalServerError), budget, 0);
    RunTimesOut(check, (j: nat) => Found(MockProject("ANOTHER STATE")), budget);
  }

  /** The disable test table. */
  lemma DisableServiceTable(budget: nat)
    requires 1 <= budget
    ensures Run(DisableServiceCheck, (j: nat) => Failed(OpenAPIError(StatusNotFound)), budget)
         == WaitResult(None, None, 1)
    ensures Run(DisableServiceCheck, (j: nat) => Failed(InternalServerError), budget)
         == WaitResult(None, Some(ProbeFailed(InternalServerError)), 1)
    ensures Run(DisableServiceCheck, (j: nat) => Found(MockProject("ANOTHER STATE")), budget)
         == WaitResult(None, Some(TimedOut), budget)
  {
    DisableEndsOnApiError((j: nat) => Failed(OpenAPIError(StatusNotFound)), budget, 0, StatusNotFound);
    DisableEndsOnApiError((j: nat) => Failed(InternalServerError), budget, 0, 500);
    DisableTimesOut((j: nat) => Found(MockProject("ANOTHER STATE")), budget);
  }

  // ---------------------------------------------------------------------
  // The handler tests' flow: build the handler, shorten its timeout, wait.
  // For the short timeout the tests set, the deadline lets at least one probe through.

  /** TestCreateOrUpdateClusterWaitHandler: an error unless the cluster is healthy; a snapshot exactly for healthy and failed. */
  method CreateOrUpdateClusterTest(getFails: bool, resourceState: string, budget: nat)
    returns (gotRes: Option<Cluster>, err: Option<Error>)
    requires 1 <= budget
    ensures err.Some? <==> getFails || resourceState != StateHealthy
    ensures gotRes == if !getFails && (resourceState == StateHealthy || resourceState == StateFailed)
                      then Some(MockCluster(resourceState)) else None
  {
    var handler := CreateOrUpdateClusterWaitHandler("", "cluster");
    var h := handler.SetTimeout(10 * Millisecond);
    var probe: nat -> ProbeResult<Cluster> :=
      if getFails then (j: nat) => Failed(InternalServerError) else (j: nat) => Found(MockCluster(resourceState));
    var polls;
    gotRes, err, polls := h.WaitWithContext(probe, budget);
    if getFails {
      RunStopsAt(CreateOrUpdateClusterCheck, probe, budget, 0);
    } else if resourceState == StateHealthy || resourceState == StateFailed {
      ClusterEndsAfterProgress(probe, budget, 0, MockCluster(resourceState));
    } else {
      ClusterTimesOut(probe, budget);
    }
  }

  /** TestCreateProjectWaitHandler: an error unless the service is created, and then its snapshot. */
  method EnableServiceTest(getFails: bool, resourceState: string, budget: nat)
    returns (gotRes: Option<ProjectResponse>, err: Option<Error>)
    requires 1 <= budget
    ensures err.Some? <==> getFails || resourceState != StateCreated
    ensures gotRes == if !getFails && resourceState == StateCreated then Some(MockProject(resourceState)) else None
  {
    var handler := EnableServiceWaitHandler("");
    var h := handler.SetTimeout(10 * Millisecond);
    var probe: nat -> ProbeResult<ProjectResponse> :=
      if getFails then (j: nat) => Failed(InternalServerError) else (j: nat) => Found(MockProject(resourceState));
    var polls;
    gotRes, err, polls := h.WaitWithContext(probe, budget);
    if getFails {
      RunStopsAt(h.check, probe, budget, 0);
    } else if ServiceInProgress(probe(0)) {
      RunTimesOut(h.check, probe, budget);
    } else {
      EnableEndsAfterProgress("", probe, budget, 0, MockProject(resourceState));
    }
  }

  /** TestDeleteProjectWaitHandler: no error exactly when the status read answers 404. */
  method DisableServiceTest(getFails: bool, getNotFound: bool, resourceState: string, budget: nat)
    returns (err: Option<Error>)
    requires 1 <= budget
    ensures err.None? <==> !getFails && getNotFound
  {
    var handler := DisableServiceWaitHandler("");
    var h := handler.SetTimeout(10 * Millisecond);
    var probe: nat -> ProbeResult<ProjectResponse> :=
      if getFails then (j: nat) => Failed(InternalServerError)
      else if getNotFound then (j: nat) => Failed(OpenAPIError(StatusNotFound))
      else (j: nat) => Found(MockProject(resourceState));
    var gotRes, polls;
    gotRes, err, polls := h.WaitWithContext(probe, budget);
    if getFails {
      DisableEndsOnApiError(probe, budget, 0, 500);
    } else if getNotFound {
      DisableEndsOnApiError(probe, budget, 0, StatusNotFound);
    } else {
      DisableTimesOut(probe, budget);
    }
  }
}
