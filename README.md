# Per-connection RPC dispatch of a BlockDAG node

This project models the RPC server's per-connection logic in `app/rpc/rpc.go`
and proves properties of it in Dafny. The logic has four parts:

- **The dispatch table.** A fixed map from each of the 21 request commands to its
  handler (`Rpc.Handlers`). Handlers are uninterpreted: `Rpc.HandlerFn` maps a
  handler and a request to a response or a non-nil error.
- **`routerInitializer`** (`Rpc.Manager.RouterInitializer`). It collects the table's
  commands into an allow-list, in an order the table does not fix
  (`Rpc.AllowList`, which picks an arbitrary remaining key each time round). It
  opens the incoming route for that list, and a refusal here is a panic. It
  registers the router with the notification manager. It then runs the
  processing task, whose deferred `RemoveListener` runs however the task
  ends.
- **`handleIncomingMessages`** (`Rpc.Manager.HandleIncomingMessages`). It loops:
  dequeue, look up the handler, run it, enqueue exactly one response. It
  returns the first failure. The method is proved equal to the specification
  function `Rpc.Serve`, and the properties are proved about `Serve` in module
  `RpcProperties`.
- **`handleError`** (`Rpc.HandleError`). A timeout means disconnect, a closed route
  means a quiet return, and anything else, nil included, is fatal.

The collaborators appear only at their boundary:

- Go's `error` values and `errors.Is` are in module `Errors`. Wrapping is
  modelled, and `errors.Is` walks down the chain of causes.
- Routes and the router are in `Routing`. An incoming route is a finite script
  of what its `Dequeue` returns. An outgoing route records what is enqueued, and
  a fault table names the enqueue attempts that fail.
- The network connection is in `NetAdapter`: it counts disconnects.
- The notification manager is in `Notifications`: a set of registered routers.

Panics are not control flow here. They are values of `Rpc.Status`:
`InitPanicked(err)`, or `Finished(Fatal(v))`.

**The missing-handler branch follows the code.** When a dequeued command has no
handler, the loop returns `err`, the variable left over from the successful
`Dequeue`. That variable is nil (`Stop.Outcome` maps `NoHandler` to `Returned(Nil)`),
so `handleError` panics with nil. An explicit unknown-command error would
describe this case better; the model keeps the code's behaviour and proves
two things about it:

- the branch leads to `Finished(Fatal(Nil))` (`RpcProperties.MissingHandlerPanicsWithNil`);
- the branch is unreachable when the route delivers only allow-listed commands
  (`RpcProperties.RoutedNeverReturnsNil`).

**Precedence in `handleError`.** The timeout test comes first. In the model an
error is a single chain of wrappers, so it has exactly one innermost cause, and
the modelled `errors.Is` is decided by that cause (`Errors.MatchesIffRoot`). So
no modelled error is both a timeout and a closed route
(`Errors.SentinelsExclusive`), and `HandleError`'s contract can say `Quiet`
exactly when the error is a closed route. Go errors outside the model can match
both sentinels; the "Left out" section says which.

**If the script runs out.** A script that is used up stands for a `Dequeue` that
never returns. The loop then ends as `Blocked`. The processing task has not
finished, so the connection's status is `Serving` and its listener stays
registered.

## Model

| member | source | states |
|---|---|---|
| `Rpc.HandlerTableKeys` | app/rpc/rpc.go:14-36 | the table has a handler for exactly the 21 request commands and for no other command |
| `Rpc.HandlerTableInverse` | app/rpc/rpc.go:14-36 | each command's handler is the one written for that command, so no two commands share a handler |
| `Rpc.AllowList` | app/rpc/rpc.go:39-42 | the allow-list holds exactly the table's commands, each once, so its length is the number of keys; the order is left open |
| `Errors.Is` | app/rpc/rpc.go:80-85 | `errors.Is` is false for nil and true exactly when the innermost cause of the chain is the target sentinel |
| `Errors.MatchesIffRoot` | app/rpc/rpc.go:80-85 | walking the chain of causes finds a sentinel exactly when the innermost cause is that sentinel, however deep the wrapping |
| `Errors.SentinelsExclusive` | app/rpc/rpc.go:80-87 | no modelled error value (a single chain of wrappers) is both a timeout and a closed route, so for these values the order of the two tests never changes the outcome |
| `Rpc.HandleError` | app/rpc/rpc.go:79-89 | Disconnect exactly for a timeout, Quiet exactly for a closed route, Fatal with the error itself as panic value for everything else, nil included |
| `Rpc.Serve` | app/rpc/rpc.go:57-77 | a run never takes more events than the script holds; a run that waits has used the whole script; handlers run once per response, plus once for a request whose handler fails or whose response cannot be enqueued |
| `Rpc.ConnectionStatus` | app/rpc/rpc.go:43-46 | initialisation panics exactly when opening the incoming route fails, and it panics with that failure |
| `Routing.IncomingRoute.Dequeue` | app/rpc/rpc.go:60 | returns the next scripted message with a nil error, or no message with the scripted non-nil error, and advances by one |
| `Routing.OutgoingRoute.Enqueue` | app/rpc/rpc.go:72 | an attempt named in the fault table fails with that error and appends nothing; any other attempt appends the message and returns nil |
| `Routing.Router.AddIncomingRoute` | app/rpc/rpc.go:43 | either the refusal error and no route, or a fresh route for exactly the given commands at the start of the peer's script |
| `Notifications.NotificationManager.AddListener` | app/rpc/rpc.go:47 | the router joins the listener set |
| `Notifications.NotificationManager.RemoveListener` | app/rpc/rpc.go:50 | the router leaves the listener set |
| `NetAdapter.NetConnection.Disconnect` | app/rpc/rpc.go:82 | the connection is disconnected once more |
| `Rpc.Manager.HandleIncomingMessages` | app/rpc/rpc.go:57-77 | the returned error, the events consumed, the responses appended to the outgoing route and the enqueue attempts are exactly those of `Serve` on what the incoming route still holds |
| `Rpc.Manager.HandleNextRequest` | app/rpc/rpc.go:60-75 | one pass of the loop body: on an exhausted script it waits and changes nothing; otherwise it takes exactly one event, and either answers the request (one enqueue attempt, one response appended, the loop goes on) or returns what that step's failure returns, appending nothing |
| `RpcProperties.StepSucceedsIff` | app/rpc/rpc.go:60-75 | a pass goes through exactly when the request dequeues, has a handler, the handler replies and the enqueue attempt is not faulted; then the response is the handler's reply, and a failing pass runs a handler only if the command has one |
| `Rpc.Manager.RouterInitializer` | app/rpc/rpc.go:38-55 | the status is `ConnectionStatus`. A refused route leaves the listener set untouched. A task still serving leaves the router registered. A finished task leaves it deregistered, whatever the loop returned. There is exactly one disconnect when the verdict is Disconnect and none otherwise. The outgoing route gains exactly the run's responses, and its attempt counter advances by exactly the run's enqueue attempts |
| `RpcProperties.ServeAllSucceed` | app/rpc/rpc.go:59-76 | if every request dequeues, has a handler that replies, and is enqueued, then the outgoing route gets exactly one response per request, the handlers' responses in dequeue order, and the loop keeps waiting |
| `RpcProperties.ServeStopsAtFirstFailure` | app/rpc/rpc.go:60-75 | the loop stops at the first failing step, for that step's reason and with that same error. Exactly one event past the earlier successes is consumed. Only the earlier requests are answered. The failing request reaches a handler only if it has one |
| `RpcProperties.ServeWaitingIffAllSucceed` | app/rpc/rpc.go:59-76 | the loop is still waiting exactly when every step of the script went through (both directions) |
| `RpcProperties.FirstFailure` | app/rpc/rpc.go:59-76 | one failing step anywhere in the script stops the loop |
| `RpcProperties.ServeRespondsInOrder` | app/rpc/rpc.go:68-75 | in every run, the i-th response sent is the handler's response to the i-th request dequeued, and that step went through |
| `RpcProperties.RoutedNeverReturnsNil` | app/rpc/rpc.go:39-67 | if the route delivers only commands of an allow-list drawn from the table, the missing-handler branch is never taken and the loop never returns nil |
| `RpcProperties.MissingHandlerPanicsWithNil` | app/rpc/rpc.go:60-88 | a request with no handler, after successful ones, ends the connection in a panic with nil. No handler runs for it, nothing is enqueued for it, and nothing more is dequeued |
| `RpcProperties.RoutedConnectionNeverPanicsWithNil` | app/rpc/rpc.go:39-88 | a connection whose route delivers only allow-listed commands never ends in a panic with nil |
| `RpcProperties.DequeueTimeoutDisconnects` | app/rpc/rpc.go:60-83 | a timeout from `Dequeue` after successful requests makes the connection's verdict Disconnect |
| `RpcProperties.DequeueRouteClosedIsQuiet` | app/rpc/rpc.go:60-86 | a closed route after successful requests ends the connection quietly |
| `RpcProperties.ConnectionFinishedIffStopped` | app/rpc/rpc.go:49-53 | once its route is open, a connection's task finishes exactly when some step of the script fails |

## Left out

- `spawn` and goroutine scheduling: the processing task runs inline, to its end or until its route would block. Nothing is claimed about how connections interleave.
- Notifications that other goroutines push onto the same outgoing route: the outgoing route holds only this loop's responses. Its fault table is numbered by this loop's enqueue attempts.
- Blocking, backpressure and timeouts inside the routes: a route is a script of results. Filtering by the allow-list is the router's job, so it is a hypothesis of the lemmas (`Routed`) rather than something the model enforces.
- Why `AddIncomingRoute` refuses: the router's internals are not part of this model. The refusal is given in advance (`Router.refusal`).
- The handler bodies (`rpchandlers`) and the message payloads (`appmessage`). Handlers are a pure uninterpreted function of handler and request, so their dependence on node state and their side effects (such as subscribing to notifications) are not modelled.
- Errors with their own `Is(error) bool` method, and errors with several causes (`Unwrap() []error`, as built by `errors.Join` or `fmt.Errorf` with several `%w`): `Errors.Error` is a single chain of wrappers, so the modelled `errors.Is` answers from the innermost cause alone. With such an error a value could match both sentinels, and then the timeout test at `rpc.go:80`, which comes first, would make the verdict `Disconnect`; the model cannot show that case.
- `handleError`'s log line and `log.Warnf`: logging has no behaviour here.
- `panic` unwinding and process exit: a panic is a status value. The deferred `RemoveListener`, which Go runs during unwinding, is applied before the `Finished` status is returned.
- The transaction-index tests and the coinbase-manager interface declaration: the first is test fixtures and assertions over a block DAG and index that are not part of this model; the second is an interface with no behaviour of its own.
