/**
 * Properties of the dispatcher: a run of the processing loop described
 * request by request, the stop at the first failure, the reachability of the
 * missing-handler branch, and what each run means for the connection.
 */
module RpcProperties {
  import opened Errors
  import opened AppMessage
  import opened Routing
  import opened Rpc

  /** The request has a handler in the table. */
  predicate HasHandler(ev: Inbound)
  {
    ev.Delivered? && ev.request.command in Handlers
  }

  /** The response the table's handler gives to `request`. */
  function ReplyTo(handle: HandlerFn, request: Message): (response: Message)
    requires request.command in Handlers && handle(Handlers[request.command], request).Reply?
  {
    handle(Handlers[request.command], request).response
  }

  /** One step of the loop goes through: the request is answered and the loop goes on. */
  predicate StepSucceeds(handle: HandlerFn, ev: Inbound, faults: map<nat, Error>, attempt: nat)
  {
    StepOf(handle, ev, faults, attempt).Answered?
  }

  /** Why a step that does not go through stops the loop. */
  function StepStop(handle: HandlerFn, ev: Inbound, faults: map<nat, Error>, attempt: nat): (stop: Stop)
    requires !StepSucceeds(handle, ev, faults, attempt)
  {
    StepOf(handle, ev, faults, attempt).stop
  }

  /** A step goes through exactly when its request has a handler that replies and its enqueue attempt is not faulted. */
  lemma StepSucceedsIff(handle: HandlerFn, ev: Inbound, faults: map<nat, Error>, attempt: nat)
    ensures StepSucceeds(handle, ev, faults, attempt) <==>
              HasHandler(ev) && handle(Handlers[ev.request.command], ev.request).Reply? && attempt !in faults
    ensures StepSucceeds(handle, ev, faults, attempt) ==>
              StepOf(handle, ev, faults, attempt) == Answered(ev.request, ReplyTo(handle, ev.request))
    ensures !StepSucceeds(handle, ev, faults, attempt) ==>
              StepOf(handle, ev, faults, attempt).calls == if HasHandler(ev) then [ev.request] else []
  {
  }

  /** The first `n` steps of the script, numbered from `attempt`, all go through. */
  ghost predicate AllSucceed(handle: HandlerFn, events: seq<Inbound>, faults: map<nat, Error>, attempt: nat, n: nat)
    requires n <= |events|
  {
    forall i :: 0 <= i < n ==> StepSucceeds(handle, events[i], faults, attempt + i)
  }

  lemma AllSucceedTail(handle: HandlerFn, events: seq<Inbound>, faults: map<nat, Error>, attempt: nat, n: nat)
    requires 0 < n <= |events| && AllSucceed(handle, events, faults, attempt, n)
    ensures StepSucceeds(handle, events[0], faults, attempt)
    ensures AllSucceed(handle, events[1..], faults, attempt + 1, n - 1)
  {
    assert StepSucceeds(handle, events[0], faults, attempt + 0);
    forall i | 0 <= i < n - 1
      ensures StepSucceeds(handle, events[1..][i], faults, attempt + 1 + i)
    {
      assert events[1..][i] == events[i + 1];
      assert StepSucceeds(handle, events[i + 1], faults, attempt + (i + 1));
    }
  }

  /** When every request goes through, each gets its handler's response, in dequeue order, and the loop waits for more. */
  lemma {:induction false} ServeAllSucceed(handle: HandlerFn, events: seq<Inbound>, faults: map<nat, Error>, attempt: nat)
    requires AllSucceed(handle, events, faults, attempt, |events|)
    ensures var t := Serve(handle, events, faults, attempt);
            && t.stop == Waiting
            && |t.sent| == |events| == |t.calls|
            && (forall i :: 0 <= i < |events| ==> t.calls[i] == events[i].request)
            && (forall i :: 0 <= i < |events| ==> t.sent[i] == ReplyTo(handle, events[i].request))
  {
    if events != [] {
      AllSucceedTail(handle, events, faults, attempt, |events|);
      ServeAllSucceed(handle, events[1..], faults, attempt + 1);
      StepSucceedsIff(handle, events[0], faults, attempt);
      var t := Serve(handle, events, faults, attempt);
      forall i | 0 <= i < |events|
        ensures t.calls[i] == events[i].request && t.sent[i] == ReplyTo(handle, events[i].request)
      {
        if i > 0 {
          assert events[1..][i - 1] == events[i];
        }
      }
    }
  }

  /**
   * The loop stops at the first step that does not go through, for that
   * step's reason: the responses are those of the earlier requests, and that
   * step's request reaches a handler only if it has one.
   */
  lemma {:induction false} ServeStopsAtFirstFailure(handle: HandlerFn, events: seq<Inbound>, faults: map<nat, Error>,
                                                     attempt: nat, k: nat)
    requires k < |events| && AllSucceed(handle, events, faults, attempt, k)
    requires !StepSucceeds(handle, events[k], faults, attempt + k)
    ensures var t := Serve(handle, events, faults, attempt);
            && t.stop == StepStop(handle, events[k], faults, attempt + k)
            && t.Dequeued() == k + 1
            && |t.sent| == k
            && (forall i :: 0 <= i < k ==> t.sent[i] == ReplyTo(handle, events[i].request))
            && |t.calls| == k + (if HasHandler(events[k]) then 1 else 0)
            && (forall i :: 0 <= i < |t.calls| ==> events[i].Delivered? && t.calls[i] == events[i].request)
  {
    if k > 0 {
      AllSucceedTail(handle, events, faults, attempt, k);
      assert events[1..][k - 1] == events[k];
      ServeStopsAtFirstFailure(handle, events[1..], faults, attempt + 1, k - 1);
      StepSucceedsIff(handle, events[0], faults, attempt);
      var t := Serve(handle, events, faults, attempt);
      forall i | 0 <= i < |t.calls|
        ensures events[i].Delivered? && t.calls[i] == events[i].request
        ensures i < k ==> t.sent[i] == ReplyTo(handle, events[i].request)
      {
        if i > 0 {
          assert events[1..][i - 1] == events[i];
        }
      }
    }
  }

  /** The loop waits for more exactly when every step of the script goes through. */
  lemma {:induction false} ServeWaitingIffAllSucceed(handle: HandlerFn, events: seq<Inbound>, faults: map<nat, Error>, attempt: nat)
    ensures Serve(handle, events, faults, attempt).stop.Waiting? <==> AllSucceed(handle, events, faults, attempt, |events|)
  {
    if AllSucceed(handle, events, faults, attempt, |events|) {
      ServeAllSucceed(handle, events, faults, attempt);
    } else {
      var k :| 0 <= k < |events| && !StepSucceeds(handle, events[k], faults, attempt + k);
      FirstFailure(handle, events, faults, attempt, k);
    }
  }

  /** Below a failing step there is a first failing step. */
  lemma {:induction false} FirstFailure(handle: HandlerFn, events: seq<Inbound>, faults: map<nat, Error>, attempt: nat, k: nat)
    requires k < |events| && !StepSucceeds(handle, events[k], faults, attempt + k)
    ensures !Serve(handle, events, faults, attempt).stop.Waiting?
  {
    if AllSucceed(handle, events, faults, attempt, k) {
      ServeStopsAtFirstFailure(handle, events, faults, attempt, k);
    } else {
      var j :| 0 <= j < k && !StepSucceeds(handle, events[j], faults, attempt + j);
      FirstFailure(handle, events, faults, attempt, j);
    }
  }

  /** In every run, the i-th response sent answers the i-th request dequeued, whose step went through. */
  lemma {:induction false} ServeRespondsInOrder(handle: HandlerFn, events: seq<Inbound>, faults: map<nat, Error>, attempt: nat)
    ensures var t := Serve(handle, events, faults, attempt);
            forall i :: 0 <= i < |t.sent| ==>
              i < |events| && StepSucceeds(handle, events[i], faults, attempt + i)
              && t.sent[i] == ReplyTo(handle, events[i].request)
  {
    var t := Serve(handle, events, faults, attempt);
    if events != [] && StepSucceeds(handle, events[0], faults, attempt) {
      StepSucceedsIff(handle, events[0], faults, attempt);
      ServeRespondsInOrder(handle, events[1..], faults, attempt + 1);
      forall i | 0 <= i < |t.sent|
        ensures i < |events| && StepSucceeds(handle, events[i], faults, attempt + i)
                && t.sent[i] == ReplyTo(handle, events[i].request)
      {
        if i > 0 {
          assert events[1..][i - 1] == events[i];
        }
      }
    }
  }

  /** Every request the script delivers carries one of the commands in `allowed`. */
  predicate Routed(events: seq<Inbound>, allowed: seq<Command>)
  {
    forall i :: 0 <= i < |events| && events[i].Delivered? ==> events[i].request.command in allowed
  }

  /**
   * When the route only delivers commands of an allow-list drawn from the
   * table, the missing-handler branch is never taken: the loop either waits
   * or returns a non-nil error.
   */
  lemma {:induction false} RoutedNeverReturnsNil(handle: HandlerFn, events: seq<Inbound>, faults: map<nat, Error>,
                                                  attempt: nat, allowed: seq<Command>)
    requires forall c :: c in allowed ==> c in Handlers
    requires Routed(events, allowed)
    ensures !Serve(handle, events, faults, attempt).stop.NoHandler?
    ensures Serve(handle, events, faults, attempt).stop.Outcome() != Returned(Nil)
  {
    if events != [] && StepSucceeds(handle, events[0], faults, attempt) {
      assert Routed(events[1..], allowed) by {
        forall i | 0 <= i < |events[1..]| && events[1..][i].Delivered?
          ensures events[1..][i].request.command in allowed
        {
          assert events[1..][i] == events[i + 1];
        }
      }
      RoutedNeverReturnsNil(handle, events[1..], faults, attempt + 1, allowed);
    } else if events != [] && events[0].Delivered? {
      assert events[0].request.command in allowed;
    }
  }

  /**
   * A request without a handler, after requests that went through, ends the
   * connection in a panic with the nil error: no handler runs for it, nothing
   * is enqueued for it, and nothing is disconnected.
   */
  lemma MissingHandlerPanicsWithNil(handle: HandlerFn, events: seq<Inbound>, faults: map<nat, Error>, attempt: nat, k: nat)
    requires k < |events| && AllSucceed(handle, events, faults, attempt, k)
    requires events[k].Delivered? && events[k].request.command !in Handlers
    ensures ConnectionStatus(handle, Nil, events, faults, attempt) == Finished(Fatal(Nil))
    ensures var t := Serve(handle, events, faults, attempt);
            |t.sent| == |t.calls| == k && t.Dequeued() == k + 1
  {
    ServeStopsAtFirstFailure(handle, events, faults, attempt, k);
  }

  /** A connection whose route only delivers allow-listed commands never panics with nil. */
  lemma RoutedConnectionNeverPanicsWithNil(handle: HandlerFn, refusal: MaybeError, events: seq<Inbound>,
                                           faults: map<nat, Error>, attempt: nat, allowed: seq<Command>)
    requires forall c :: c in allowed ==> c in Handlers
    requires Routed(events, allowed)
    ensures ConnectionStatus(handle, refusal, events, faults, attempt) != Finished(Fatal(Nil))
  {
    RoutedNeverReturnsNil(handle, events, faults, attempt, allowed);
  }

  /** A timeout from `Dequeue`, after requests that went through, disconnects the connection. */
  lemma DequeueTimeoutDisconnects(handle: HandlerFn, events: seq<Inbound>, faults: map<nat, Error>, attempt: nat, k: nat)
    requires k < |events| && AllSucceed(handle, events, faults, attempt, k)
    requires events[k].Failed? && Is(Err(events[k].err), ErrTimeout)
    ensures ConnectionStatus(handle, Nil, events, faults, attempt) == Finished(Disconnect)
  {
    ServeStopsAtFirstFailure(handle, events, faults, attempt, k);
  }

  /** A closed route, after requests that went through, ends the connection quietly. */
  lemma DequeueRouteClosedIsQuiet(handle: HandlerFn, events: seq<Inbound>, faults: map<nat, Error>, attempt: nat, k: nat)
    requires k < |events| && AllSucceed(handle, events, faults, attempt, k)
    requires events[k].Failed? && Is(Err(events[k].err), ErrRouteClosed)
    ensures ConnectionStatus(handle, Nil, events, faults, attempt) == Finished(Quiet)
  {
    ServeStopsAtFirstFailure(handle, events, faults, attempt, k);
  }

  /** A connection ends with `handleError`'s verdict on the error its loop returned, and only if its loop stopped. */
  lemma {:induction false} ConnectionFinishedIffStopped(handle: HandlerFn, events: seq<Inbound>, faults: map<nat, Error>, attempt: nat)
    ensures ConnectionStatus(handle, Nil, events, faults, attempt).Finished?
            <==> !AllSucceed(handle, events, faults, attempt, |events|)
  {
    ServeWaitingIffAllSucceed(handle, events, faults, attempt);
  }
}
