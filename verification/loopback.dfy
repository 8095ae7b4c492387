/**
  Client and server connected by an ideal transport, one call per pattern:
  what one side hands to its sink arrives at the other side, in order, as
  `Ok` items, and no send fails. With conversions that round-trip, every
  pattern delivers the handler's result to the caller unchanged and in
  production order. For client streaming this holds with the corrected race;
  against the code as written the same call panics the server task when
  the error branch is polled before the response send completes.
 */
module Loopback {
  import opened Wrappers
  import opened Service
  import opened Channel
  import opened Downcaster
  import Client
  import Server
  import Race

  /** Every value as an `Ok` item: what an ideal transport delivers of a sent sequence. */
  function Oks<T, E>(values: seq<T>): seq<Result<T, E>>
  {
    Map(x => Ok(x), values)
  }

  /** Updates converted by the client come out of the server's downcaster unchanged, with nothing reported. */
  lemma UpdatesOverWire<M, U(!new), R, Req, Res, AE, RE, SE>(t: MsgType<M, U, R, Req, Res>, updates: seq<U>)
    requires Inverse(t.updateInto, t.updateTryFrom)
    ensures Updates(Oks<Req, RE>(Map(t.updateInto, updates)), t.updateTryFrom) == updates
    ensures FirstError<Req, U, AE, RE, SE>(Oks<Req, RE>(Map(t.updateInto, updates)), t.updateTryFrom).None?
  {
  }

  /** A unary call: the client gets exactly the handler's answer to its message. */
  lemma RpcLoopback<M(!new), U(!new), R(!new), Req, Res, OE, SE, RE, AE>(
    t: MsgType<M, U, R, Req, Res>, msg: M, handler: M -> R)
    requires t.pattern == Pattern.Rpc && Coherent(t)
    ensures
      var request := Client.Rpc<M, U, R, Req, Res, OE, SE, RE>(t, msg, BiOpened(Duplex(AcceptsAll, []))).sent;
      var accepted := Server.AcceptOne<AE, SE, Req, RE>(Server.DispatchHelper, BiOpened(Duplex(AcceptsAll, Oks(request))));
      && accepted.Ok?
      && t.tryFrom(accepted.value.0) == Some(msg)
      && var reply := Server.Rpc<M, U, R, Req, Res, AE, RE, SE>(Server.DispatchHelper, t, msg, accepted.value.1, handler);
         && reply.result.Ok?
         && Client.Rpc<M, U, R, Req, Res, OE, SE, RE>(t, msg, BiOpened(Duplex(AcceptsAll, Oks(reply.sent))))
            == Exchange(request, 1, Ok(handler(msg)))
  {
  }

  /** A server-streaming call: the client's response stream is the handler's stream, item for item. */
  lemma ServerStreamingLoopback<M(!new), U(!new), R(!new), Req, Res, OE, SE, RE, AE>(
    t: MsgType<M, U, R, Req, Res>, msg: M, handler: M -> seq<R>)
    requires t.pattern == Pattern.ServerStreaming && Coherent(t)
    ensures
      var request := Client.ServerStreaming<M, U, R, Req, Res, OE, SE, RE>(t, msg, BiOpened(Duplex(AcceptsAll, []))).sent;
      var accepted := Server.AcceptOne<AE, SE, Req, RE>(Server.DispatchHelper, BiOpened(Duplex(AcceptsAll, Oks(request))));
      && accepted.Ok?
      && t.tryFrom(accepted.value.0) == Some(msg)
      && var reply := Server.ServerStreaming<M, U, R, Req, Res, AE, RE, SE>(Server.DispatchHelper, t, msg, accepted.value.1, handler);
         && reply.result.Ok?
         && var call := Client.ServerStreaming<M, U, R, Req, Res, OE, SE, RE>(t, msg, BiOpened(Duplex(AcceptsAll, Oks(reply.sent))));
            call.sent == request && call.result == Ok(Oks(handler(msg)))
  {
    var request := Client.ServerStreaming<M, U, R, Req, Res, OE, SE, RE>(t, msg, BiOpened(Duplex(AcceptsAll, []))).sent;
    var accepted := Server.AcceptOne<AE, SE, Req, RE>(Server.DispatchHelper, BiOpened(Duplex(AcceptsAll, Oks(request))));
    var reply := Server.ServerStreaming<M, U, R, Req, Res, AE, RE, SE>(Server.DispatchHelper, t, msg, accepted.value.1, handler);
    var call := Client.ServerStreaming<M, U, R, Req, Res, OE, SE, RE>(t, msg, BiOpened(Duplex(AcceptsAll, Oks(reply.sent))));
    assert call.result.value == Oks(handler(msg));
  }

  /**
    A client-streaming call: the server's handler sees exactly the client's
    updates, and the client gets exactly the handler's answer.
   */
  lemma ClientStreamingLoopback<M(!new), U(!new), R(!new), Req, Res, OE, SE, RE, AE>(
    t: MsgType<M, U, R, Req, Res>, msg: M, updates: seq<U>, handler: (M, seq<U>) -> R, schedule: Race.Schedule)
    requires t.pattern == Pattern.ClientStreaming && Coherent(t)
    ensures
      var request := Client.ClientStreaming<M, U, R, Req, Res, OE, SE, RE>(t, msg, updates, BiOpened(Duplex(AcceptsAll, []))).sent;
      var accepted := Server.AcceptOne<AE, SE, Req, RE>(Server.DispatchHelper, BiOpened(Duplex(AcceptsAll, Oks(request))));
      && accepted.Ok?
      && t.tryFrom(accepted.value.0) == Some(msg)
      && Updates(accepted.value.1.incoming, t.updateTryFrom) == updates
      && var reply := Server.ClientStreaming<M, U, R, Req, Res, AE, RE, SE>(Server.DispatchHelper, t, msg, accepted.value.1, handler, schedule);
         && reply.result.Ok?
         && var call := Client.ClientStreaming<M, U, R, Req, Res, OE, SE, RE>(t, msg, updates, BiOpened(Duplex(AcceptsAll, Oks(reply.sent))));
            && call.sent == request
            && call.result.Ok?
            && call.result.value.updatesSent.Ok?
            && call.result.value.response == Ok(handler(msg, updates))
  {
  }

  /**
    A client-streaming call against the server as written: no update fails,
    so the handler drops the downcaster with its sender untaken. The server
    task panics exactly when the error branch is polled before the response
    send completes; in every other run the client gets the handler's answer.
   */
  lemma ClientStreamingLoopbackAsWritten<M(!new), U(!new), R(!new), Req, Res, OE, SE, RE, AE>(
    t: MsgType<M, U, R, Req, Res>, msg: M, updates: seq<U>, handler: (M, seq<U>) -> R, schedule: Race.Schedule)
    requires t.pattern == Pattern.ClientStreaming && Coherent(t)
    ensures
      var request := Client.ClientStreaming<M, U, R, Req, Res, OE, SE, RE>(t, msg, updates, BiOpened(Duplex(AcceptsAll, []))).sent;
      var accepted := Server.AcceptOne<AE, SE, Req, RE>(Server.DispatchHelper, BiOpened(Duplex(AcceptsAll, Oks(request))));
      && accepted.Ok?
      && var o := Server.ClientStreamingAsWritten<M, U, R, Req, Res, AE, RE, SE>(Server.DispatchHelper, t, msg, accepted.value.1, handler, schedule);
         && (o.Panicked? <==> schedule == Race.ErrorAfter(0))
         && (o.Completed? ==>
               && o.value.result.Ok?
               && var call := Client.ClientStreaming<M, U, R, Req, Res, OE, SE, RE>(t, msg, updates, BiOpened(Duplex(AcceptsAll, Oks(o.value.sent))));
                  call.result.Ok? && call.result.value.response == Ok(handler(msg, updates)))
  {
    ClientStreamingLoopback<M, U, R, Req, Res, OE, SE, RE, AE>(t, msg, updates, handler, schedule);
  }

  /**
    A bidirectional call: the server's handler sees exactly the client's
    updates, and the client's response stream is the handler's stream, in
    production order.
   */
  lemma BidiLoopback<M(!new), U(!new), R(!new), Req, Res, OE, SE, RE, AE>(
    t: MsgType<M, U, R, Req, Res>, msg: M, updates: seq<U>, handler: (M, seq<U>) -> seq<R>, schedule: Race.Schedule)
    requires t.pattern == Pattern.BidiStreaming && Coherent(t)
    ensures
      var request := Client.Bidi<M, U, R, Req, Res, OE, SE, RE>(t, msg, updates, BiOpened(Duplex(AcceptsAll, []))).sent;
      var accepted := Server.AcceptOne<AE, SE, Req, RE>(Server.DispatchHelper, BiOpened(Duplex(AcceptsAll, Oks(request))));
      && accepted.Ok?
      && t.tryFrom(accepted.value.0) == Some(msg)
      && Updates(accepted.value.1.incoming, t.updateTryFrom) == updates
      && var reply := Server.BidiStreaming<M, U, R, Req, Res, AE, RE, SE>(Server.DispatchHelper, t, msg, accepted.value.1, handler, schedule);
         && reply.result.Ok?
         && var call := Client.Bidi<M, U, R, Req, Res, OE, SE, RE>(t, msg, updates, BiOpened(Duplex(AcceptsAll, Oks(reply.sent))));
            && call.sent == request
            && call.result.Ok?
            && call.result.value.updatesSent.Ok?
            && call.result.value.response == Oks(handler(msg, updates))
  {
  }
}
