# skcf wait handlers

A Dafny model of the wait handlers of the skcf service in the STACKIT Go
SDK (`services/skcf/wait/wait.go`). Each handler turns an asynchronous
control-plane operation (create or update a cluster, delete a cluster,
enable or disable the service for a project) into a blocking wait. It
does so by handing the SDK's polling engine a check function. On every
tick the check reads the resource's status once and classifies the
answer as a triple `(waitFinished, response, err)`. The handler also
sets the engine's timeout: 45 minutes for both cluster handlers, 15
minutes for both service handlers.

The model has four modules:

- `Wrappers` (`wrappers.dfy`): `Option`, standing in for Go's nil-able pointers.
- `Probes` (`probes.dfy`): one probe result (`Found(snapshot)` or
  `Failed(error)`), the probe errors (`OpenAPIError(statusCode)` for the
  SDK's generic API error, `OtherError` for any other error value), the
  errors a wait can end with, and `Step`, the check's triple.
- `AsyncWait` (`async_wait.dfy`): the polling engine, `core/wait`. It is
  an ASSUMPTION, because that package is not part of this model. Its
  behaviour is taken from how the handler tests use it
  (`services/skcf/wait/wait_test.go:105-116` and `:140`). The engine
  polls once per tick. It stops at the first step that is finished or
  carries an error, and returns that step's response and error. When the
  deadline passes first, it returns no response and a timeout error.
  `Run` is the specification. `AsyncActionHandler` is the handler object,
  with its check function and the timeout the caller set.
  `WaitWithContext` is its polling loop, proved equal to `Run`.
- `SkcfWait` (`skcf_wait.dfy`): the state names, the resource snapshots,
  the four check functions and the four handler constructors.
- `SkcfWaitScenarios` (`skcf_wait_scenarios.dfy`): whole waits built from
  the check functions and the engine. They cover the number of probes
  made and the result returned, for probe sequences that stay pending
  and then end. They also replay the shape of the handler tests: constant
  mock clients and a short timeout.

The status client is not modelled as code. A wait reads a probe stream
`probe: nat -> ProbeResult<S>`, where `probe(i)` is what the client
returns on tick `i`. The deadline is a tick budget: the number of ticks
that start before it.

Two details of the handlers differ from a uniform "client errors pass through,
failures carry the snapshot" reading; the model follows the code:
- The disable handler does not pass every client error through
  unchanged. An error that is not the SDK's API error comes back wrapped
  (`ConversionFailed`). An API error with a status other than 404 or 403
  comes back unchanged.
- The enable handler's failure states (`STATE_DELETING`, `STATE_FAILED`)
  end the wait with `waitFinished = false`, an error and no snapshot. The
  cluster handler's `STATE_FAILED` ends it with `waitFinished = true`, the
  snapshot and an error.

## Model

| member | source | states |
|---|---|---|
| `AsyncWait.RunFrom` | services/skcf/wait/wait_test.go:138-146 | A wait from a given tick either times out, with no response, after every remaining tick was pending, or ends on the first terminal step and returns that step's response and error. The number of probes lies between the start tick and the budget. |
| `AsyncWait.RunStopsAt` | services/skcf/wait/wait_test.go:90-109 | If ticks 0..n-1 are pending and tick n, before the deadline, is terminal, the wait returns tick n's response and error after exactly n+1 probes. |
| `AsyncWait.RunTimesOut` | services/skcf/wait/wait_test.go:110-116 | If every tick before the deadline is pending, the wait returns no response and the timeout error after using the whole budget. |
| `AsyncWait.AsyncActionHandler.New` | services/skcf/wait/wait.go:33-49 | A new handler holds the given check function and no timeout of its own (the engine's default). |
| `AsyncWait.AsyncActionHandler.SetTimeout` | services/skcf/wait/wait_test.go:140 | Sets the timeout and returns the same handler, so calls can be chained. |
| `AsyncWait.AsyncActionHandler.WaitWithContext` | services/skcf/wait/wait_test.go:140-146 | The polling loop returns exactly the response, error and probe count of `Run` for its check function. |
| `SkcfWait.CreateOrUpdateClusterCheck` | services/skcf/wait/wait.go:33-49 | A client error gives "not finished, no response" and that same error. A snapshot finishes the wait iff its aggregated state is STATE_HEALTHY or STATE_FAILED. It gives an error iff the state is STATE_FAILED, and that error is "create failed". A response is present iff the step is finished, and it is the probed snapshot. A pending step carries no response. |
| `SkcfWait.CreateOrUpdateClusterWaitHandler` | services/skcf/wait/wait.go:32-52 | Returns a fresh handler with the create/update check and a 45-minute timeout. |
| `SkcfWait.Listed` | services/skcf/wait/wait.go:61-67 | True iff some item of the listing has a non-nil name equal to the target. Nameless items never match. |
| `SkcfWait.DeleteClusterCheck` | services/skcf/wait/wait.go:56-69 | A client error is passed through unchanged. A listing finishes the wait iff no item carries the target name, and the response is then the whole listing. There is never an error without a client error (deletion has no failure state). A pending step carries no response. |
| `SkcfWait.DeleteClusterStep` | services/skcf/wait/wait.go:56-69 | The scan with early return over the listing gives exactly the step `DeleteClusterCheck` specifies. |
| `SkcfWait.DeleteClusterWaitHandler` | services/skcf/wait/wait.go:55-72 | Returns a fresh handler with the delete check for the given name and a 45-minute timeout. |
| `SkcfWait.EnableServiceCheck` | services/skcf/wait/wait.go:76-89 | A client error is passed through unchanged. A snapshot finishes the wait iff its state is STATE_CREATED, and the response is then the snapshot. It gives an error iff the state is STATE_DELETING or STATE_FAILED, and that error names the state and the project. Every other state is pending, with no response. |
| `SkcfWait.EnableServiceWaitHandler` | services/skcf/wait/wait.go:75-92 | Returns a fresh handler with the enable check for the project and a 15-minute timeout. |
| `SkcfWait.DisableServiceCheck` | services/skcf/wait/wait.go:96-109 | Never returns a response. The step is finished iff the probe failed with an API error of status 404 or 403. It carries an error iff the probe failed otherwise. Another API status gives the original error. A non-API error gives that error wrapped. A successful read is pending. |
| `SkcfWait.DisableServiceWaitHandler` | services/skcf/wait/wait.go:95-112 | Returns a fresh handler with the disable check and a 15-minute timeout. |
| `SkcfWaitScenarios.ClusterEndsAfterProgress` | services/skcf/wait/wait.go:38-48 | After n in-progress cluster snapshots, a healthy one is returned without error, and a failed one with the create-failed error, after exactly n+1 probes. |
| `SkcfWaitScenarios.ClusterTimesOut` | services/skcf/wait/wait.go:48 | A cluster that stays in another state until the deadline gives a timeout and no snapshot. |
| `SkcfWaitScenarios.ProbeErrorEndsWaitAtOnce` | services/skcf/wait/wait.go:34-37 | A client error on the first tick ends the cluster, delete and enable waits at once with that error (the disable wait too, for an API status other than 404/403). |
| `SkcfWaitScenarios.DeleteEndsOnceAbsent` | services/skcf/wait/wait.go:61-68 | While every listing names the cluster, polling goes on. The first listing without it is returned, without error, after exactly n+1 probes. |
| `SkcfWaitScenarios.DeleteTimesOut` | services/skcf/wait/wait.go:62-66 | A cluster still listed at every tick before the deadline gives a timeout and no listing. |
| `SkcfWaitScenarios.DeleteListingSizes` | services/skcf/wait/wait.go:61-68 | Listings of size 0, 1 and 2, with the target present or absent (and a nameless item), finish exactly when the target is absent. |
| `SkcfWaitScenarios.EnableEndsAfterProgress` | services/skcf/wait/wait.go:81-88 | After n pending service states, STATE_CREATED returns the snapshot without error, and STATE_DELETING / STATE_FAILED return no snapshot and the received-state error, after exactly n+1 probes. |
| `SkcfWaitScenarios.DisableEndsOnApiError` | services/skcf/wait/wait.go:105-108 | After n successful reads, a 404 or 403 API error ends the wait with neither response nor error. Any other status ends it with that error. Both happen after exactly n+1 probes. |
| `SkcfWaitScenarios.DisableTimesOut` | services/skcf/wait/wait.go:98-100 | A service status that can still be read at every tick gives a timeout. |
| `SkcfWaitScenarios.CreateOrUpdateClusterTable` | services/skcf/wait/wait_test.go:89-117 | The four rows of the create/update test table (healthy, failed, get fails, another state) give exactly the expected response, error and probe count. |
| `SkcfWaitScenarios.EnableServiceTable` | services/skcf/wait/wait_test.go:159-186 | The four rows of the enable test table, including the empty state that keeps polling until the timeout. |
| `SkcfWaitScenarios.DisableServiceTable` | services/skcf/wait/wait_test.go:223-241 | The three rows of the disable test table: 404 succeeds, 500 fails, a readable status times out. |
| `SkcfWaitScenarios.CreateOrUpdateClusterTest` | services/skcf/wait/wait_test.go:118-148 | The test's flow is: build the handler, set a 10 ms timeout, wait. It gives an error unless the cluster is healthy, and it returns the mock snapshot exactly for the healthy and failed states. |
| `SkcfWaitScenarios.EnableServiceTest` | services/skcf/wait/wait_test.go:187-212 | The same flow for the enable handler gives an error unless the state is STATE_CREATED, and then the mock snapshot. |
| `SkcfWaitScenarios.DisableServiceTest` | services/skcf/wait/wait_test.go:242-257 | The same flow for the disable handler ends without error exactly when the status read answers 404. |

## Left out

- The real polling engine (`core/wait`) is not part of this model. The model omits its timers, its sleeps between ticks and its `context` cancellation. The deadline is a tick budget passed to `WaitWithContext`. The handler's `timeout` field is kept as configuration but is not converted into ticks. Cancellation, and an error kind distinct from the timeout for it, are not modelled.
- `AsyncWait.AsyncActionHandler.New`: the engine's own default timeout and poll interval are not part of this model. A fresh handler's timeout is `None`.
- The status clients (`GetClusterExecute`, `ListClustersExecute`, `GetServiceStatusExecute`), the HTTP transport and authentication are replaced by the probe stream. The project id and cluster name that the handlers pass to the client therefore play no part, except where a check itself uses them (the delete target name, the project id in the enable error).
- The `oapierror.GenericOpenAPIError` type assertion is reduced to the `OpenAPIError(statusCode)` / `OtherError` variants. The error's other fields and the text of the error messages are not modelled.
- The source dereferences `s.Status.Aggregated`, `s.Items` and `s.State` without nil checks, so a nil there panics. The model's snapshot types have no nil in those places, so that panic is not modelled.
- `StateUnhealthy` is declared but not read by any check. It is kept as a constant only.
- The example programs (`examples/iaas/iaas.go`, `examples/skcf/skcf.go`), the generated configuration (`services/skcf/configuration.go`) and the generated kubeconfig model (`services/skcf/model_kubeconfig.go`) are left out. They carry no wait logic.
