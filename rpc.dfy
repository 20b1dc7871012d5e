/**
 * The per-connection RPC dispatcher: the table from request command to
 * handler, the initialiser that opens a connection's incoming route and
 * registers it for notifications, the loop that answers requests one by one,
 * and the classification of the error the loop ends with.
 */
module Rpc {
  import opened Wrappers
  import opened Errors
  import opened AppMessage
  import opened Routing
  import opened NetAdapter
  import opened Notifications

  /** The request handlers of the RPC server. Their bodies are not part of this model. */
  datatype HandlerName =
    | HandleGetCurrentNetwork
    | HandleSubmitBlock
    | HandleGetBlockTemplate
    | HandleNotifyBlockAdded
    | HandleGetPeerAddresses
    | HandleGetSelectedTipHash
    | HandleGetMempoolEntry
    | HandleGetConnectedPeerInfo
    | HandleAddPeer
    | HandleSubmitTransaction
    | HandleNotifyChainChanged
    | HandleGetBlock
    | HandleGetSubnetwork
    | HandleGetChainFromBlock
    | HandleGetBlocks
    | HandleGetBlockCount
    | HandleGetBlockDAGInfo
    | HandleResolveFinalityConflict
    | HandleNotifyFinalityConflicts
    | HandleGetMempoolEntries
    | HandleShutDown

  /** The fixed dispatch table. */
  const Handlers: map<Command, HandlerName> := map[
    GetCurrentNetworkRequest := HandleGetCurrentNetwork,
    SubmitBlockRequest := HandleSubmitBlock,
    GetBlockTemplateRequest := HandleGetBlockTemplate,
    NotifyBlockAddedRequest := HandleNotifyBlockAdded,
    GetPeerAddressesRequest := HandleGetPeerAddresses,
    GetSelectedTipHashRequest := HandleGetSelectedTipHash,
    GetMempoolEntryRequest := HandleGetMempoolEntry,
    GetConnectedPeerInfoRequest := HandleGetConnectedPeerInfo,
    AddPeerRequest := HandleAddPeer,
    SubmitTransactionRequest := HandleSubmitTransaction,
    NotifyChainChangedRequest := HandleNotifyChainChanged,
    GetBlockRequest := HandleGetBlock,
    GetSubnetworkRequest := HandleGetSubnetwork,
    GetChainFromBlockRequest := HandleGetChainFromBlock,
    GetBlocksRequest := HandleGetBlocks,
    GetBlockCountRequest := HandleGetBlockCount,
    GetBlockDAGInfoRequest := HandleGetBlockDAGInfo,
    ResolveFinalityConflictRequest := HandleResolveFinalityConflict,
    NotifyFinalityConflictsRequest := HandleNotifyFinalityConflicts,
    GetMempoolEntriesRequest := HandleGetMempoolEntries,
    ShutDownRequest := HandleShutDown
  ]

  /** The table answers exactly the request commands. */
  lemma HandlerTableKeys(c: Command)
    ensures c in Handlers <==> !c.OtherCommand?
  {
  }

  /** The request command each handler is written for. */
  function Serves(h: HandlerName): (c: Command)
  {
    match h
    case HandleGetCurrentNetwork => GetCurrentNetworkRequest
    case HandleSubmitBlock => SubmitBlockRequest
    case HandleGetBlockTemplate => GetBlockTemplateRequest
    case HandleNotifyBlockAdded => NotifyBlockAddedRequest
    case HandleGetPeerAddresses => GetPeerAddressesRequest
    case HandleGetSelectedTipHash => GetSelectedTipHashRequest
    case HandleGetMempoolEntry => GetMempoolEntryRequest
    case HandleGetConnectedPeerInfo => GetConnectedPeerInfoRequest
    case HandleAddPeer => AddPeerRequest
    case HandleSubmitTransaction => SubmitTransactionRequest
    case HandleNotifyChainChanged => NotifyChainChangedRequest
    case HandleGetBlock => GetBlockRequest
    case HandleGetSubnetwork => GetSubnetworkRequest
    case HandleGetChainFromBlock => GetChainFromBlockRequest
    case HandleGetBlocks => GetBlocksRequest
    case HandleGetBlockCount => GetBlockCountRequest
    case HandleGetBlockDAGInfo => GetBlockDAGInfoRequest
    case HandleResolveFinalityConflict => ResolveFinalityConflictRequest
    case HandleNotifyFinalityConflicts => NotifyFinalityConflictsRequest
    case HandleGetMempoolEntries => GetMempoolEntriesRequest
    case HandleShutDown => ShutDownRequest
  }

  /** The table sends each request command to the handler written for it, so no two commands share a handler. */
  lemma HandlerTableInverse(c: Command)
    requires c in Handlers
    ensures Serves(Handlers[c]) == c
  {
  }

  /** What a handler returns: a response, or a non-nil error (any response beside it is ignored). */
  datatype HandlerReturn = Reply(response: Message) | Fail(err: Error)

  /** The handlers' behaviour, left uninterpreted. */
  type HandlerFn = (HandlerName, Message) -> HandlerReturn

  /** How the processing loop ends: it returns an error value, or it waits in `Dequeue` for good. */
  datatype Exit = Blocked | Returned(err: MaybeError)

  /** Why the processing loop stopped. */
  datatype Stop =
    | Waiting
    | DequeueFailed(err: Error)
      /** The request's command has no handler. */
    | NoHandler(command: Command)
    | HandlerFailed(err: Error)
    | EnqueueFailed(err: Error)
  {
    /** What the loop returns on each kind of stop; a missing handler hands back the nil error of the successful `Dequeue`. */
    function Outcome(): (x: Exit)
    {
      match this
      case Waiting => Blocked
      case DequeueFailed(e) => Returned(Err(e))
      case NoHandler(_) => Returned(Nil)
      case HandlerFailed(e) => Returned(Err(e))
      case EnqueueFailed(e) => Returned(Err(e))
    }
  }

  /** One pass of the loop body: the request was answered, or the loop stops after handing `calls` to handlers. */
  datatype Step = Answered(request: Message, response: Message) | Halted(calls: seq<Message>, stop: Stop)

  /** One pass of the loop body on the event `ev`, with enqueue attempt number `attempt`. */
  function StepOf(handle: HandlerFn, ev: Inbound, faults: map<nat, Error>, attempt: nat): (step: Step)
  {
    match ev
    case Failed(e) => Halted([], DequeueFailed(e))
    case Delivered(request) =>
      if request.command !in Handlers then Halted([], NoHandler(request.command))
      else
        match handle(Handlers[request.command], request)
        case Fail(e) => Halted([request], HandlerFailed(e))
        case Reply(response) =>
          if attempt in faults then Halted([request], EnqueueFailed(faults[attempt]))
          else Answered(request, response)
  }

  /** A run of the processing loop: the requests given to handlers, the responses enqueued, and why it stopped. */
  datatype Trace = Trace(calls: seq<Message>, sent: seq<Message>, stop: Stop)
  {
    /** Events taken from the incoming route: one per response, plus the one the loop stopped on. */
    function Dequeued(): (n: nat)
    {
      |sent| + if stop.Waiting? then 0 else 1
    }

    /** Calls of `Enqueue`: one per response, plus the one that failed. */
    function EnqueueAttempts(): (n: nat)
    {
      |sent| + if stop.EnqueueFailed? then 1 else 0
    }
  }

  /**
   * The processing loop run against the script `events` of the incoming route,
   * with the outgoing route's fault table and its next attempt number.
   */
  function Serve(handle: HandlerFn, events: seq<Inbound>, faults: map<nat, Error>, attempt: nat): (t: Trace)
    ensures t.Dequeued() <= |events|
    ensures t.stop.Waiting? ==> t.Dequeued() == |events|
    ensures |t.calls| == |t.sent| + if t.stop.HandlerFailed? || t.stop.EnqueueFailed? then 1 else 0
    decreases |events|
  {
    if events == [] then Trace([], [], Waiting)
    else
      match StepOf(handle, events[0], faults, attempt)
      case Halted(calls, stop) => Trace(calls, [], stop)
      case Answered(request, response) =>
        var rest := Serve(handle, events[1..], faults, attempt + 1);
        Trace([request] + rest.calls, [response] + rest.sent, rest.stop)
  }

  /** A run whose first request is answered goes on with the rest of the script and the next attempt number. */
  lemma ServeAnswered(handle: HandlerFn, events: seq<Inbound>, faults: map<nat, Error>, attempt: nat)
    requires events != [] && StepOf(handle, events[0], faults, attempt).Answered?
    ensures var step := StepOf(handle, events[0], faults, attempt);
            var rest := Serve(handle, events[1..], faults, attempt + 1);
            Serve(handle, events, faults, attempt) == Trace([step.request] + rest.calls, [step.response] + rest.sent, rest.stop)
  {
  }

  /** What `handleError` does with the error the loop returned. */
  datatype ExitAction = Disconnect | Quiet | Fatal(panicValue: MaybeError)

  /** `handleError`: a timeout disconnects, a closed route ends quietly, anything else (nil included) panics. */
  function HandleError(err: MaybeError): (a: ExitAction)
    ensures a == Disconnect <==> Is(err, ErrTimeout)
    ensures a == Quiet <==> Is(err, ErrRouteClosed)
    ensures a.Fatal? <==> !Is(err, ErrTimeout) && !Is(err, ErrRouteClosed)
    ensures a.Fatal? ==> a.panicValue == err
  {
    SentinelsExclusive(err);
    if Is(err, ErrTimeout) then Disconnect
    else if Is(err, ErrRouteClosed) then Quiet
    else Fatal(err)
  }

  /** Where a connection's processing stands once the initialiser and its task have run. */
  datatype Status =
      /** `AddIncomingRoute` failed and the initialiser panicked with its error. */
    | InitPanicked(reason: Error)
      /** The processing task waits in `Dequeue`. */
    | Serving
      /** The processing task ended and `handleError` chose `action`. */
    | Finished(action: ExitAction)

  /** The status a connection reaches, given the route's answer, the peer's script and the outgoing route. */
  function ConnectionStatus(handle: HandlerFn, refusal: MaybeError, events: seq<Inbound>,
                            faults: map<nat, Error>, attempt: nat): (s: Status)
    ensures refusal.Err? <==> s.InitPanicked?
    ensures s.InitPanicked? ==> s.reason == refusal.error
  {
    if refusal.Err? then InitPanicked(refusal.error)
    else
      match Serve(handle, events, faults, attempt).stop.Outcome()
      case Blocked => Serving
      case Returned(err) => Finished(HandleError(err))
  }

  /** The commands of the dispatch table, each once, in an order the table does not fix. */
  method AllowList() returns (messageTypes: seq<Command>)
    ensures forall c :: c in messageTypes <==> c in Handlers
    ensures forall i, j :: 0 <= i < j < |messageTypes| ==> messageTypes[i] != messageTypes[j]
    ensures |messageTypes| == |Handlers.Keys|
  {
    messageTypes := [];
    var remaining := Handlers.Keys;
    while remaining != {}
      invariant remaining <= Handlers.Keys
      invariant forall c :: c in messageTypes <==> c in Handlers && c !in remaining
      invariant forall i, j :: 0 <= i < j < |messageTypes| ==> messageTypes[i] != messageTypes[j]
      invariant |messageTypes| + |remaining| == |Handlers.Keys|
      decreases remaining
    {
      var messageType :| messageType in remaining;
      messageTypes := messageTypes + [messageType];
      remaining := remaining - {messageType};
    }
  }

  /** The RPC manager: the notification registry of its context and the handlers' behaviour. */
  class Manager {
    const notificationManager: NotificationManager
    const handle: HandlerFn

    constructor (notificationManager: NotificationManager, handle: HandlerFn)
      ensures this.notificationManager == notificationManager && this.handle == handle
    {
      this.notificationManager := notificationManager;
      this.handle := handle;
    }

    /**
     * `handleIncomingMessages`: dequeue, dispatch, enqueue the response, until
     * something fails; the result, the route position and the outgoing route
     * are those of `Serve` on what the incoming route still holds.
     */
    method HandleIncomingMessages(router: Router, incomingRoute: IncomingRoute) returns (exit: Exit)
      requires incomingRoute.Valid()
      modifies incomingRoute, router.outgoing
      ensures incomingRoute.Valid()
      ensures var t := Serve(handle, incomingRoute.events[old(incomingRoute.position)..], router.outgoing.faults, old(router.outgoing.attempts));
              && exit == t.stop.Outcome()
              && incomingRoute.position == old(incomingRoute.position) + t.Dequeued()
              && router.outgoing.messages == old(router.outgoing.messages) + t.sent
              && router.outgoing.attempts == old(router.outgoing.attempts) + t.EnqueueAttempts()
    {
      var outgoingRoute := router.outgoing;
      ghost var total := Serve(handle, incomingRoute.events[incomingRoute.position..], outgoingRoute.faults, outgoingRoute.attempts);
      ghost var sentSoFar: seq<Message> := [];
      while true
        invariant incomingRoute.Valid()
        invariant incomingRoute.position == old(incomingRoute.position) + |sentSoFar|
        invariant outgoingRoute.attempts == old(outgoingRoute.attempts) + |sentSoFar|
        invariant outgoingRoute.messages == old(outgoingRoute.messages) + sentSoFar
        invariant var rest := Serve(handle, incomingRoute.events[incomingRoute.position..], outgoingRoute.faults, outgoingRoute.attempts);
                  total.stop == rest.stop && total.sent == sentSoFar + rest.sent
        decreases |incomingRoute.events| - incomingRoute.position
      {
        ghost var pending := incomingRoute.events[incomingRoute.position..];
        ghost var attempt := outgoingRoute.attempts;
        if pending != [] {
          assert pending[0] == incomingRoute.events[incomingRoute.position];
          assert pending[1..] == incomingRoute.events[incomingRoute.position + 1..];
        }
        var next := HandleNextRequest(router, incomingRoute);
        if next.Some? {
          return next.value;
        }
        ghost var response := StepOf(handle, pending[0], outgoingRoute.faults, attempt).response;
        ServeAnswered(handle, pending, outgoingRoute.faults, attempt);
        ghost var rest := Serve(handle, pending[1..], outgoingRoute.faults, attempt + 1);
        assert incomingRoute.events[incomingRoute.position..] == pending[1..] && outgoingRoute.attempts == attempt + 1;
        assert total.stop == rest.stop;
        assert total.sent == (sentSoFar + [response]) + rest.sent;
        sentSoFar := sentSoFar + [response];
      }
    }

    /**
     * One pass of the loop body: dequeue one request, run its handler and
     * enqueue the response, as `StepOf` says. `None` means the request was
     * answered and the loop goes on.
     */
    method HandleNextRequest(router: Router, incomingRoute: IncomingRoute) returns (exit: Option<Exit>)
      requires incomingRoute.Valid()
      modifies incomingRoute, router.outgoing
      ensures incomingRoute.Valid()
      ensures old(incomingRoute.Drained()) ==>
                && exit == Some(Blocked) && incomingRoute.position == old(incomingRoute.position)
                && router.outgoing.messages == old(router.outgoing.messages)
                && router.outgoing.attempts == old(router.outgoing.attempts)
      ensures !old(incomingRoute.Drained()) ==>
                var step := StepOf(handle, incomingRoute.events[old(incomingRoute.position)], router.outgoing.faults,
                                   old(router.outgoing.attempts));
                && incomingRoute.position == old(incomingRoute.position) + 1
                && (step.Halted? ==>
                      && exit == Some(step.stop.Outcome())
                      && router.outgoing.messages == old(router.outgoing.messages)
                      && router.outgoing.attempts == old(router.outgoing.attempts) + if step.stop.EnqueueFailed? then 1 else 0)
                && (step.Answered? ==>
                      && exit == None
                      && router.outgoing.messages == old(router.outgoing.messages) + [step.response]
                      && router.outgoing.attempts == old(router.outgoing.attempts) + 1)
    {
      var outgoingRoute := router.outgoing;
      if incomingRoute.Drained() {
        // Go's `Dequeue` would block here for good.
        return Some(Blocked);
      }
      var request, err := incomingRoute.Dequeue();
      if err.Err? {
        return Some(Returned(err));
      }
      var command := request.value.command;
      if command !in Handlers {
        // As `handleIncomingMessages` does: the nil error of the successful `Dequeue` is returned.
        return Some(Returned(err));
      }
      var result := handle(Handlers[command], request.value);
      if result.Fail? {
        return Some(Returned(Err(result.err)));
      }
      err := outgoingRoute.Enqueue(result.response);
      if err.Err? {
        return Some(Returned(err));
      }
      exit := None;
    }

    /**
     * `routerInitializer`, with the spawned processing task run to its end:
     * the allow-list, the incoming route (its refusal is fatal before anything
     * is registered), the listener registration, the loop, `handleError`, and
     * the deferred removal of the listener on every way the task ends.
     */
    method RouterInitializer(router: Router, netConnection: NetConnection) returns (status: Status)
      modifies notificationManager, netConnection, router.outgoing
      ensures status == ConnectionStatus(handle, router.refusal, router.peer, router.outgoing.faults, old(router.outgoing.attempts))
      ensures status.InitPanicked? ==> notificationManager.listeners == old(notificationManager.listeners)
      ensures status.Serving? ==> notificationManager.listeners == old(notificationManager.listeners) + {router}
      ensures status.Finished? ==> notificationManager.listeners == old(notificationManager.listeners) - {router}
      ensures netConnection.disconnects == old(netConnection.disconnects) + if status == Finished(Disconnect) then 1 else 0
      ensures router.outgoing.messages == old(router.outgoing.messages)
                + if status.InitPanicked? then [] else Serve(handle, router.peer, router.outgoing.faults, old(router.outgoing.attempts)).sent
      ensures router.outgoing.attempts == old(router.outgoing.attempts)
                + if status.InitPanicked? then 0 else Serve(handle, router.peer, router.outgoing.faults, old(router.outgoing.attempts)).EnqueueAttempts()
    {
      ghost var run := Serve(handle, router.peer, router.outgoing.faults, router.outgoing.attempts);
      var messageTypes := AllowList();
      var incomingRoute, err := router.AddIncomingRoute(messageTypes);
      if err.Err? {
        return InitPanicked(err.error);
      }
      assert incomingRoute.events[incomingRoute.position..] == router.peer;
      notificationManager.AddListener(router);
      var exit := HandleIncomingMessages(router, incomingRoute);
      assert exit == run.stop.Outcome() && router.outgoing.attempts == old(router.outgoing.attempts) + run.EnqueueAttempts();
      match exit
      case Blocked =>
        status := Serving;
      case Returned(loopErr) =>
        var action := HandleError(loopErr);
        if action == Disconnect {
          netConnection.Disconnect();
        }
        // The deferred RemoveListener runs whether handleError returns or panics.
        notificationManager.RemoveListener(router);
        status := Finished(action);
    }
  }
}
