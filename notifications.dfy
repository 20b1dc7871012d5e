/** The process-wide registry of routers that receive asynchronous notifications. */
module Notifications {
  import opened Routing

  class NotificationManager {
    var listeners: set<Router>

    constructor ()
      ensures listeners == {}
    {
      listeners := {};
    }

    method AddListener(router: Router)
      modifies this
      ensures listeners == old(listeners) + {router}
    {
      listeners := listeners + {router};
    }

    method RemoveListener(router: Router)
      modifies this
      ensures listeners == old(listeners) - {router}
    {
      listeners := listeners - {router};
    }
  }
}
