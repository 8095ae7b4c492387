/**
  `ClientChannel`: how each of the four client calls drives one freshly
  opened channel. Every call converts the message into the request type,
  opens the channel, sends the message, and only then looks at what the
  server sent back.
 */
module Client {
  import opened Wrappers
  import opened Service
  import opened Channel

  /** `RpcClientError`. */
  datatype RpcClientError<+OE, +SE, +RE> =
    | Open(openError: OE)
    | Send(sendError: SE)
    | EarlyClose
    | RecvError(recvError: RE)
    | DowncastError

  /**
    `StreamingResponseError`; `ClientStreamingError` and `BidiError` have the
    same two variants and are this type too.
   */
  datatype StreamingResponseError<+OE, +SE> = Open(openError: OE) | Send(sendError: SE)

  /** `ClientStreamingItemError`: why the single response of a call is missing. */
  datatype ClientStreamingItemError<+RE> = EarlyClose | RecvError(recvError: RE) | DowncastError

  /** `StreamingResponseItemError`; `BidiItemError` has the same variants and is this type too. */
  datatype StreamingResponseItemError<+RE> = RecvError(recvError: RE) | DowncastError

  /** What `client_streaming` and `bidi` hand back: the outcome of sending the updates, and the response side. */
  datatype Streams<+T, +SE> = Streams(updatesSent: Result<(), SE>, response: T)

  /** A received item the caller cannot use: a receive error, or a response that does not downcast. */
  predicate Unusable<Res, R, RE>(x: Result<Res, RE>, tryFrom: Res -> Option<R>)
  {
    x.Err? || tryFrom(x.value).None?
  }

  /** The single response of `rpc` and `client_streaming`: only the first received item counts. */
  function FirstResponse<Res, R, RE>(incoming: seq<Result<Res, RE>>, tryFrom: Res -> Option<R>)
    : (r: Result<R, ClientStreamingItemError<RE>>)
    ensures r == Err(ClientStreamingItemError.EarlyClose) <==> |incoming| == 0
    ensures r.Ok? <==> 0 < |incoming| && !Unusable(incoming[0], tryFrom)
    ensures r.Ok? ==> tryFrom(incoming[0].value) == Some(r.value)
    ensures 0 < |incoming| && incoming[0].Err? ==> r == Err(ClientStreamingItemError.RecvError(incoming[0].error))
    ensures 0 < |incoming| && incoming[0].Ok? && tryFrom(incoming[0].value).None? ==> r == Err(ClientStreamingItemError.DowncastError)
  {
    if |incoming| == 0 then Err(ClientStreamingItemError.EarlyClose)
    else
      match incoming[0]
      case Ok(x) =>
        (match tryFrom(x)
         case Some(r) => Ok(r)
         case None => Err(ClientStreamingItemError.DowncastError))
      case Err(e) => Err(ClientStreamingItemError.RecvError(e))
  }

  /** One item of a response stream. */
  function ResponseItem<Res, R, RE>(x: Result<Res, RE>, tryFrom: Res -> Option<R>)
    : Result<R, StreamingResponseItemError<RE>>
  {
    match x
    case Ok(v) =>
      (match tryFrom(v)
       case Some(r) => Ok(r)
       case None => Err(StreamingResponseItemError.DowncastError))
    case Err(e) => Err(StreamingResponseItemError.RecvError(e))
  }

  /**
    The response stream of `server_streaming` and `bidi`: every received item
    maps to one response item, in order, and a bad item does not end it.
   */
  function ResponseStream<Res, R, RE>(incoming: seq<Result<Res, RE>>, tryFrom: Res -> Option<R>)
    : (s: seq<Result<R, StreamingResponseItemError<RE>>>)
    ensures |s| == |incoming|
    ensures forall i :: 0 <= i < |s| ==> (s[i].Ok? <==> !Unusable(incoming[i], tryFrom))
    ensures forall i :: 0 <= i < |s| && incoming[i].Ok? && s[i].Ok? ==> tryFrom(incoming[i].value) == Some(s[i].value)
    ensures forall i :: 0 <= i < |s| && incoming[i].Err? ==>
      s[i] == Err(StreamingResponseItemError.RecvError(incoming[i].error))
    ensures forall i :: 0 <= i < |s| && incoming[i].Ok? && tryFrom(incoming[i].value).None? ==>
      s[i] == Err(StreamingResponseItemError.DowncastError)
  {
    Map(x => ResponseItem(x, tryFrom), incoming)
  }

  /** `RpcClientError` of a missing single response. */
  function FromItemError<OE, SE, RE>(e: ClientStreamingItemError<RE>): RpcClientError<OE, SE, RE>
  {
    match e
    case EarlyClose => RpcClientError.EarlyClose
    case RecvError(x) => RpcClientError.RecvError(x)
    case DowncastError => RpcClientError.DowncastError
  }

  /** `ClientChannel::rpc`: open, send the one request, then take the first received item. */
  function Rpc<M, U, R, Req, Res, OE, SE, RE>(t: MsgType<M, U, R, Req, Res>, msg: M, open: Bi<OE, SE, Res, RE>)
    : (c: Exchange<Req, Result<R, RpcClientError<OE, SE, RE>>>)
    requires t.pattern == Pattern.Rpc
    ensures open.BiFailed? ==> c == Exchange([], 0, Err(RpcClientError.Open(open.error)))
    ensures open.BiOpened? ==> c.sent == [t.into(msg)]
    ensures open.BiOpened? && SendResult(open.channel.sink, 0).Some? ==>
      c.consumed == 0 && c.result == Err(RpcClientError.Send(SendResult(open.channel.sink, 0).value))
    ensures c.consumed <= 1
    ensures open.BiOpened? && |open.channel.incoming| == 0 ==> c.consumed == 0
    ensures c.result == Err(RpcClientError.EarlyClose) <==>
      open.BiOpened? && SendResult(open.channel.sink, 0).None? && |open.channel.incoming| == 0
    ensures c.result.Ok? <==>
      open.BiOpened? && SendResult(open.channel.sink, 0).None?
      && 0 < |open.channel.incoming| && !Unusable(open.channel.incoming[0], t.responseTryFrom)
    ensures c.result.Ok? ==> t.responseTryFrom(open.channel.incoming[0].value) == Some(c.result.value)
    ensures open.BiOpened? && SendResult(open.channel.sink, 0).None? && 0 < |open.channel.incoming| ==>
      && c.consumed == 1
      && (open.channel.incoming[0].Err? ==> c.result == Err(RpcClientError.RecvError(open.channel.incoming[0].error)))
      && (open.channel.incoming[0].Ok? && t.responseTryFrom(open.channel.incoming[0].value).None? ==>
            c.result == Err(RpcClientError.DowncastError))
  {
    match open
    case BiFailed(e) => Exchange([], 0, Err(RpcClientError.Open(e)))
    case BiOpened(ch) =>
      var req := t.into(msg);
      match SendResult(ch.sink, 0)
      case Some(e) => Exchange([req], 0, Err(RpcClientError.Send(e)))
      case None =>
        var consumed := if |ch.incoming| == 0 then 0 else 1;
        match FirstResponse(ch.incoming, t.responseTryFrom)
        case Ok(r) => Exchange([req], consumed, Ok(r))
        case Err(e) => Exchange([req], consumed, Err(FromItemError(e)))
  }

  /**
    `ClientChannel::server_streaming`: open, send the one request, then
    hand the whole receive stream back as a response stream. `consumed`
    counts the items a caller that reads the stream to its end takes.
   */
  function ServerStreaming<M, U, R, Req, Res, OE, SE, RE>(t: MsgType<M, U, R, Req, Res>, msg: M, open: Bi<OE, SE, Res, RE>)
    : (c: Exchange<Req, Result<seq<Result<R, StreamingResponseItemError<RE>>>, StreamingResponseError<OE, SE>>>)
    requires t.pattern == Pattern.ServerStreaming
    ensures open.BiFailed? ==> c == Exchange([], 0, Err(StreamingResponseError.Open(open.error)))
    ensures open.BiOpened? ==> c.sent == [t.into(msg)]
    ensures open.BiOpened? && SendResult(open.channel.sink, 0).Some? ==>
      c.consumed == 0 && c.result == Err(StreamingResponseError.Send(SendResult(open.channel.sink, 0).value))
    ensures c.result.Ok? <==> open.BiOpened? && SendResult(open.channel.sink, 0).None?
    ensures c.result.Ok? ==>
      c.consumed == |open.channel.incoming| && c.result.value == ResponseStream(open.channel.incoming, t.responseTryFrom)
  {
    match open
    case BiFailed(e) => Exchange([], 0, Err(StreamingResponseError.Open(e)))
    case BiOpened(ch) =>
      var req := t.into(msg);
      match SendResult(ch.sink, 0)
      case Some(e) => Exchange([req], 0, Err(StreamingResponseError.Send(e)))
      case None => Exchange([req], |ch.incoming|, Ok(ResponseStream(ch.incoming, t.responseTryFrom)))
  }

  /**
    The request side shared by `client_streaming` and `bidi`: after the first
    message (send number 0) the caller pushes `updates` through the returned
    sink, each converted into the request type, until a send fails.
   */
  function SendUpdates<M, U, R, Req, Res, SE>(t: MsgType<M, U, R, Req, Res>, updates: seq<U>, sink: Sink<SE>)
    : (p: Pumped<Req, SE>)
    ensures p.sent <= Map(t.updateInto, updates)
    ensures p.result.Ok? <==> forall k :: 1 <= k <= |updates| ==> SendResult(sink, k).None?
    ensures p.result.Ok? ==> p.sent == Map(t.updateInto, updates)
    ensures p.result.Err? ==> 0 < |p.sent| && SendResult(sink, |p.sent|) == Some(p.result.error)
    ensures forall k :: 1 <= k < |p.sent| ==> SendResult(sink, k).None?
  {
    Pump(Map(t.updateInto, updates), sink, 1)
  }

  /**
    `ClientChannel::client_streaming`: open, send the first message before any
    update, then send the updates; the response future takes the first
    received item only.
   */
  function ClientStreaming<M, U, R, Req, Res, OE, SE, RE>(
    t: MsgType<M, U, R, Req, Res>, msg: M, updates: seq<U>, open: Bi<OE, SE, Res, RE>)
    : (c: Exchange<Req, Result<Streams<Result<R, ClientStreamingItemError<RE>>, SE>, StreamingResponseError<OE, SE>>>)
    requires t.pattern == Pattern.ClientStreaming
    ensures open.BiFailed? ==> c == Exchange([], 0, Err(StreamingResponseError.Open(open.error)))
    ensures open.BiOpened? ==> 0 < |c.sent| && c.sent[0] == t.into(msg)
    ensures open.BiOpened? && SendResult(open.channel.sink, 0).Some? ==>
      c == Exchange([t.into(msg)], 0, Err(StreamingResponseError.Send(SendResult(open.channel.sink, 0).value)))
    ensures c.result.Ok? <==> open.BiOpened? && SendResult(open.channel.sink, 0).None?
    ensures c.result.Ok? ==>
      && c.sent[1..] <= Map(t.updateInto, updates)
      && (c.result.value.updatesSent.Ok? ==> c.sent == [t.into(msg)] + Map(t.updateInto, updates))
      && (c.result.value.updatesSent.Ok? <==> forall k :: 1 <= k <= |updates| ==> SendResult(open.channel.sink, k).None?)
      && (c.result.value.updatesSent.Err? ==>
            && SendResult(open.channel.sink, |c.sent| - 1) == Some(c.result.value.updatesSent.error)
            && forall k :: 0 <= k < |c.sent| - 1 ==> SendResult(open.channel.sink, k).None?)
      && c.result.value.response == FirstResponse(open.channel.incoming, t.responseTryFrom)
      && c.consumed == (if |open.channel.incoming| == 0 then 0 else 1)
  {
    match open
    case BiFailed(e) => Exchange([], 0, Err(StreamingResponseError.Open(e)))
    case BiOpened(ch) =>
      var req := t.into(msg);
      match SendResult(ch.sink, 0)
      case Some(e) => Exchange([req], 0, Err(StreamingResponseError.Send(e)))
      case None =>
        var p := SendUpdates(t, updates, ch.sink);
        var consumed := if |ch.incoming| == 0 then 0 else 1;
        Exchange([req] + p.sent, consumed, Ok(Streams(p.result, FirstResponse(ch.incoming, t.responseTryFrom))))
  }

  /**
    `ClientChannel::bidi`: as `client_streaming` on the request side, with the
    whole receive stream handed back as a response stream.
   */
  function Bidi<M, U, R, Req, Res, OE, SE, RE>(
    t: MsgType<M, U, R, Req, Res>, msg: M, updates: seq<U>, open: Bi<OE, SE, Res, RE>)
    : (c: Exchange<Req, Result<Streams<seq<Result<R, StreamingResponseItemError<RE>>>, SE>, StreamingResponseError<OE, SE>>>)
    requires t.pattern == Pattern.BidiStreaming
    ensures open.BiFailed? ==> c == Exchange([], 0, Err(StreamingResponseError.Open(open.error)))
    ensures open.BiOpened? ==> 0 < |c.sent| && c.sent[0] == t.into(msg)
    ensures open.BiOpened? && SendResult(open.channel.sink, 0).Some? ==>
      c == Exchange([t.into(msg)], 0, Err(StreamingResponseError.Send(SendResult(open.channel.sink, 0).value)))
    ensures c.result.Ok? <==> open.BiOpened? && SendResult(open.channel.sink, 0).None?
    ensures c.result.Ok? ==>
      && c.sent[1..] <= Map(t.updateInto, updates)
      && (c.result.value.updatesSent.Ok? ==> c.sent == [t.into(msg)] + Map(t.updateInto, updates))
      && (c.result.value.updatesSent.Ok? <==> forall k :: 1 <= k <= |updates| ==> SendResult(open.channel.sink, k).None?)
      && (c.result.value.updatesSent.Err? ==>
            && SendResult(open.channel.sink, |c.sent| - 1) == Some(c.result.value.updatesSent.error)
            && forall k :: 0 <= k < |c.sent| - 1 ==> SendResult(open.channel.sink, k).None?)
      && c.result.value.response == ResponseStream(open.channel.incoming, t.responseTryFrom)
      && c.consumed == |open.channel.incoming|
  {
    match open
    case BiFailed(e) => Exchange([], 0, Err(StreamingResponseError.Open(e)))
    case BiOpened(ch) =>
      var req := t.into(msg);
      match SendResult(ch.sink, 0)
      case Some(e) => Exchange([req], 0, Err(StreamingResponseError.Send(e)))
      case None =>
        var p := SendUpdates(t, updates, ch.sink);
        Exchange([req] + p.sent, |ch.incoming|, Ok(Streams(p.result, ResponseStream(ch.incoming, t.responseTryFrom))))
  }

  /** The single-response rule is the stream rule applied to the first item, with `EarlyClose` for an empty stream. */
  lemma FirstResponseIsFirstStreamItem<Res, R, RE>(incoming: seq<Result<Res, RE>>, tryFrom: Res -> Option<R>)
    ensures |incoming| == 0 ==> FirstResponse(incoming, tryFrom) == Err(ClientStreamingItemError.EarlyClose)
    ensures 0 < |incoming| ==>
      var s := ResponseStream(incoming, tryFrom)[0];
      var r := FirstResponse(incoming, tryFrom);
      && (s.Ok? <==> r.Ok?)
      && (s.Ok? ==> s.value == r.value)
      && (s.Err? && s.error.RecvError? ==> r == Err(ClientStreamingItemError.RecvError(s.error.recvError)))
      && (s.Err? && s.error.DowncastError? ==> r == Err(ClientStreamingItemError.DowncastError))
  {
  }

  /** Response streams are built item by item: a bad item neither ends nor reorders what follows. */
  lemma ResponseStreamAppend<Res, R, RE>(xs: seq<Result<Res, RE>>, ys: seq<Result<Res, RE>>, tryFrom: Res -> Option<R>)
    ensures ResponseStream(xs + ys, tryFrom) == ResponseStream(xs, tryFrom) + ResponseStream(ys, tryFrom)
  {
  }

  /** `rpc` reads nothing past the first received item. */
  lemma RpcIgnoresLaterItems<M, U, R, Req, Res, OE, SE, RE>(
    t: MsgType<M, U, R, Req, Res>, msg: M, sink: Sink<SE>, first: Result<Res, RE>, later: seq<Result<Res, RE>>)
    requires t.pattern == Pattern.Rpc
    ensures Rpc<M, U, R, Req, Res, OE, SE, RE>(t, msg, BiOpened(Duplex(sink, [first] + later)))
         == Rpc<M, U, R, Req, Res, OE, SE, RE>(t, msg, BiOpened(Duplex(sink, [first])))
  {
  }

  /** The checks of `rpc` run in the order open, send, receive: an earlier failure hides every later event. */
  lemma RpcCheckOrder<M, U, R, Req, Res, OE, SE, RE>(
    t: MsgType<M, U, R, Req, Res>, msg: M, e: OE, sink: Sink<SE>, xs: seq<Result<Res, RE>>, ys: seq<Result<Res, RE>>)
    requires t.pattern == Pattern.Rpc
    ensures Rpc<M, U, R, Req, Res, OE, SE, RE>(t, msg, BiFailed(e)).result == Err(RpcClientError.Open(e))
    ensures SendResult(sink, 0).Some? ==>
      Rpc<M, U, R, Req, Res, OE, SE, RE>(t, msg, BiOpened(Duplex(sink, xs)))
      == Rpc<M, U, R, Req, Res, OE, SE, RE>(t, msg, BiOpened(Duplex(sink, ys)))
  {
  }
}
