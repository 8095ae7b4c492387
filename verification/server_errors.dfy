/** The errors of the server side of a call. */
module ServerErrors {

  /**
    `RpcServerError`: everything that can go wrong on the server side.
    `UnexpectedStartMessage` is declared by the source but produced by none
    of the operations modelled here.
   */
  datatype RpcServerError<+AE, +RE, +SE> =
    | AcceptBiError(acceptError: AE)
    | EarlyClose
    | UnexpectedStartMessage
    | RecvError(recvError: RE)
    | SendError(sendError: SE)
    | UnexpectedUpdateMessage
}
