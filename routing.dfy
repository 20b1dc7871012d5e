/**
 * The router package as the dispatcher sees it. A connection's router hands
 * out an incoming route, filtered to a list of commands, and owns one outgoing
 * route. Handing out routes, filtering and blocking belong to the router and
 * are not modelled: an incoming route is a finite script of what its
 * `Dequeue` returns, and an outgoing route records what was enqueued and
 * fails the enqueue attempts named in its fault table.
 */
module Routing {
  import opened Wrappers
  import opened Errors
  import opened AppMessage

  /** One result of `Dequeue`: a message, or a (non-nil) error. */
  datatype Inbound = Delivered(request: Message) | Failed(err: Error)

  /** An incoming route: the commands it was opened for and the script of its results. */
  class IncomingRoute {
    const commands: seq<Command>
    const events: seq<Inbound>
    var position: nat

    ghost predicate Valid()
      reads this
    {
      position <= |events|
    }

    /** The script is used up: a `Dequeue` now would block forever. */
    predicate Drained()
      reads this
    {
      position >= |events|
    }

    constructor (commands: seq<Command>, events: seq<Inbound>)
      ensures Valid() && this.commands == commands && this.events == events && position == 0
    {
      this.commands := commands;
      this.events := events;
      position := 0;
    }

    /** `Dequeue`: the next message with a nil error, or no message and the route's error. */
    method Dequeue() returns (request: Option<Message>, err: MaybeError)
      requires Valid() && !Drained()
      modifies this
      ensures Valid() && position == old(position) + 1
      ensures events[old(position)].Delivered? ==> request == Some(events[old(position)].request) && err == Nil
      ensures events[old(position)].Failed? ==> request == None && err == Err(events[old(position)].err)
    {
      match events[position] {
        case Delivered(m) => request, err := Some(m), Nil;
        case Failed(e) => request, err := None, Err(e);
      }
      position := position + 1;
    }
  }

  /** The outgoing route: the messages delivered so far and the enqueue attempts that fail. */
  class OutgoingRoute {
    const faults: map<nat, Error>
    var attempts: nat
    var messages: seq<Message>

    constructor (faults: map<nat, Error>)
      ensures this.faults == faults && attempts == 0 && messages == []
    {
      this.faults := faults;
      attempts := 0;
      messages := [];
    }

    /** `Enqueue`: attempt number `attempts` either fails as `faults` says or appends the message. */
    method Enqueue(message: Message) returns (err: MaybeError)
      modifies this
      ensures attempts == old(attempts) + 1
      ensures old(attempts) in faults ==> err == Err(faults[old(attempts)]) && messages == old(messages)
      ensures old(attempts) !in faults ==> err == Nil && messages == old(messages) + [message]
    {
      if attempts in faults {
        err := Err(faults[attempts]);
      } else {
        err := Nil;
        messages := messages + [message];
      }
      attempts := attempts + 1;
    }
  }

  /**
   * A connection's router: its outgoing route, the script its peer will
   * produce on an incoming route, and the answer `AddIncomingRoute` gives.
   */
  class Router {
    const outgoing: OutgoingRoute
    const peer: seq<Inbound>
    const refusal: MaybeError

    constructor (outgoing: OutgoingRoute, peer: seq<Inbound>, refusal: MaybeError)
      ensures this.outgoing == outgoing && this.peer == peer && this.refusal == refusal
    {
      this.outgoing := outgoing;
      this.peer := peer;
      this.refusal := refusal;
    }

    /** `AddIncomingRoute`: a fresh route for `messageTypes` at the start of the peer's script, or the refusal. */
    method AddIncomingRoute(messageTypes: seq<Command>) returns (route: IncomingRoute?, err: MaybeError)
      ensures err == refusal
      ensures refusal.Err? ==> route == null
      ensures refusal.Nil? ==> route != null && fresh(route) && route.Valid() && route.position == 0
                               && route.commands == messageTypes && route.events == peer
    {
      if refusal.Err? {
        route, err := null, refusal;
      } else {
        route := new IncomingRoute(messageTypes, peer);
        err := Nil;
      }
    }
  }
}
