/** The network connection behind a router; only its `Disconnect` is used. */
module NetAdapter {

  class NetConnection {
    /** How many times `Disconnect` has been called. */
    var disconnects: nat

    constructor ()
      ensures disconnects == 0
    {
      disconnects := 0;
    }

    method Disconnect()
      modifies this
      ensures disconnects == old(disconnects) + 1
    {
      disconnects := disconnects + 1;
    }
  }
}
