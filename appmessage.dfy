/**
 * The part of the message layer the RPC dispatcher sees: every message
 * carries a command tag, and the payload is opaque to the dispatcher.
 */
module AppMessage {

  /** The request commands the RPC server has handlers for, and every other command of the protocol. */
  datatype Command =
    | GetCurrentNetworkRequest
    | SubmitBlockRequest
    | GetBlockTemplateRequest
    | NotifyBlockAddedRequest
    | GetPeerAddressesRequest
    | GetSelectedTipHashRequest
    | GetMempoolEntryRequest
    | GetConnectedPeerInfoRequest
    | AddPeerRequest
    | SubmitTransactionRequest
    | NotifyChainChangedRequest
    | GetBlockRequest
    | GetSubnetworkRequest
    | GetChainFromBlockRequest
    | GetBlocksRequest
    | GetBlockCountRequest
    | GetBlockDAGInfoRequest
    | ResolveFinalityConflictRequest
    | NotifyFinalityConflictsRequest
    | GetMempoolEntriesRequest
    | ShutDownRequest
      /** Any other command (responses, notifications, peer-to-peer messages), told apart by a number. */
    | OtherCommand(code: nat)

  /** A message: its command tag and an opaque payload. */
  datatype Message = Message(command: Command, payload: nat)
}
