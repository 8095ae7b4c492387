/**
  The service model: which interaction pattern a message type uses, and how
  the message, its update type and its response type convert to and from the
  service-wide request and response types.
 */
module Service {
  import opened Wrappers

  /** The four interaction patterns; a message type is bound to exactly one. */
  datatype Pattern = Rpc | ClientStreaming | ServerStreaming | BidiStreaming

  /**
    The `Msg` declaration of a message type `M` of a service whose request
    type is `Req` and whose response type is `Res`: its pattern, and the
    `Into`/`TryFrom` conversions of `M`, of its update type `U` and of its
    response type `R`. In the source the pattern is a type and the
    conversions are trait impls; here they are fields, and every operation
    requires the pattern it is written for.
   */
  datatype MsgType<!M, !U, !R, !Req, !Res> = MsgType(
    pattern: Pattern,
    into: M -> Req,
    tryFrom: Req -> Option<M>,
    updateInto: U -> Req,
    updateTryFrom: Req -> Option<U>,
    responseInto: R -> Res,
    responseTryFrom: Res -> Option<R>)

  /** The `RpcMsg` declaration: the message's own conversions and its response type. */
  datatype RpcMsgType<!M, !R, !Req, !Res> = RpcMsgType(
    into: M -> Req,
    tryFrom: Req -> Option<M>,
    responseInto: R -> Res,
    responseTryFrom: Res -> Option<R>)

  /**
    The blanket `Msg` impl for every `RpcMsg`: the pattern is `Rpc`, the
    update type is the message itself and the response type is kept.
   */
  function AsMsg<M, R, Req, Res>(d: RpcMsgType<M, R, Req, Res>): (t: MsgType<M, M, R, Req, Res>)
    ensures t.pattern == Rpc
    ensures t.updateInto == d.into && t.updateTryFrom == d.tryFrom
    ensures t.into == d.into && t.tryFrom == d.tryFrom
    ensures t.responseInto == d.responseInto && t.responseTryFrom == d.responseTryFrom
  {
    MsgType(Rpc, d.into, d.tryFrom, d.into, d.tryFrom, d.responseInto, d.responseTryFrom)
  }

  /**
    Reads an `RpcMsg` declaration back out of a `Msg` declaration; this
    succeeds exactly for Rpc-patterned messages whose update conversions are
    the message's own.
   */
  ghost function AsRpcMsg<M, R, Req, Res>(t: MsgType<M, M, R, Req, Res>): Option<RpcMsgType<M, R, Req, Res>>
  {
    if t.pattern == Rpc && t.updateInto == t.into && t.updateTryFrom == t.tryFrom
    then Some(RpcMsgType(t.into, t.tryFrom, t.responseInto, t.responseTryFrom))
    else None
  }

  /** `AsMsg` loses nothing, and its image is exactly what `AsRpcMsg` accepts. */
  lemma RpcMsgRoundTrip<M, R, Req, Res>(d: RpcMsgType<M, R, Req, Res>, t: MsgType<M, M, R, Req, Res>)
    ensures AsRpcMsg(AsMsg(d)) == Some(d)
    ensures AsRpcMsg(t).Some? <==> t.pattern == Rpc && t.updateInto == t.into && t.updateTryFrom == t.tryFrom
    ensures AsRpcMsg(t).Some? ==> AsMsg(AsRpcMsg(t).value) == t
  {
  }

  /** `tryFrom` undoes `into`, as the derived conversions of a service's enums do. */
  ghost predicate Inverse<A(!new), W>(into: A -> W, tryFrom: W -> Option<A>)
  {
    forall a :: tryFrom(into(a)) == Some(a)
  }

  /** All three conversion pairs of a message type are inverse. */
  ghost predicate Coherent<M(!new), U(!new), R(!new), Req, Res>(t: MsgType<M, U, R, Req, Res>)
  {
    && Inverse(t.into, t.tryFrom)
    && Inverse(t.updateInto, t.updateTryFrom)
    && Inverse(t.responseInto, t.responseTryFrom)
  }
}
