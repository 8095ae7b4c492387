/**
  `DispatchHelper`: how the server accepts one channel, reads its first
  request, and drives the rest of the channel for each interaction pattern.
  Handlers are pure functions of what they receive; a streaming-request
  handler is taken to read its update stream to the end before the race
  between its send loop and the downcaster's error is decided.
 */
module Server {
  import opened Wrappers
  import opened Service
  import opened Channel
  import opened ServerErrors
  import opened Downcaster
  import opened Race

  /**
    `DispatchHelper<S, C>`: a value with no content that fixes the channel's
    accept, receive and send error types for the operations below.
   */
  datatype DispatchHelper<AE, RE, SE> = DispatchHelper

  /**
    `DispatchHelper::accept_one`: accept a channel and take its first
    request, handing back the request together with the rest of the channel.
   */
  function AcceptOne<AE, SE, Req, RE>(self: DispatchHelper<AE, RE, SE>, accept: Bi<AE, SE, Req, RE>)
    : (r: Result<(Req, Duplex<SE, Req, RE>), RpcServerError<AE, RE, SE>>)
    ensures accept.BiFailed? ==> r == Err(AcceptBiError(accept.error))
    ensures accept.BiOpened? && |accept.channel.incoming| == 0 ==> r == Err(EarlyClose)
    ensures accept.BiOpened? && 0 < |accept.channel.incoming| && accept.channel.incoming[0].Err? ==>
      r == Err(RecvError(accept.channel.incoming[0].error))
    ensures r.Ok? <==> accept.BiOpened? && 0 < |accept.channel.incoming| && accept.channel.incoming[0].Ok?
    ensures r.Ok? ==> accept.channel == Duplex(r.value.1.sink, [Ok(r.value.0)] + r.value.1.incoming)
  {
    match accept
    case BiFailed(e) => Err(AcceptBiError(e))
    case BiOpened(ch) =>
      if |ch.incoming| == 0 then Err(EarlyClose)
      else
        match ch.incoming[0]
        case Err(e) => Err(RecvError(e))
        case Ok(request) => Ok((request, Duplex(ch.sink, ch.incoming[1..])))
  }

  /**
    The send loop of the response side: each response converted into the
    response type and sent in production order; the first failed send ends
    the loop with `SendError`.
   */
  function SendResponses<R, Res, AE, RE, SE>(self: DispatchHelper<AE, RE, SE>, responses: seq<R>, into: R -> Res, sink: Sink<SE>)
    : (p: Pumped<Res, RpcServerError<AE, RE, SE>>)
    ensures p.sent <= Map(into, responses)
    ensures p.result.Ok? <==> forall k :: 0 <= k < |responses| ==> SendResult(sink, k).None?
    ensures p.result.Ok? ==> p.sent == Map(into, responses)
    ensures p.result.Err? ==>
      sink.FailsAt? && |p.sent| == sink.index + 1 && p.result.error == SendError(sink.error)
  {
    var q := Pump(Map(into, responses), sink, 0);
    assert q.result.Err? ==> SendResult(sink, sink.index).Some?;
    Pumped(q.sent, if q.result.Ok? then Ok(()) else Err(SendError(q.result.error)))
  }

  /** `DispatchHelper::rpc`: run the handler and send its one response; the receive side is not read. */
  function Rpc<M, U, R, Req, Res, AE, RE, SE>(
    self: DispatchHelper<AE, RE, SE>, t: MsgType<M, U, R, Req, Res>, req: M, chan: Duplex<SE, Req, RE>, handler: M -> R)
    : (c: Exchange<Res, Result<(), RpcServerError<AE, RE, SE>>>)
    requires t.pattern == Pattern.Rpc
    ensures c.sent == [t.responseInto(handler(req))]
    ensures c.consumed == 0
    ensures c.result.Ok? <==> SendResult(chan.sink, 0).None?
    ensures c.result.Err? ==> c.result.error == SendError(chan.sink.error)
  {
    var p := SendResponses(self, [handler(req)], t.responseInto, chan.sink);
    Exchange(p.sent, 0, p.result)
  }

  /**
    `DispatchHelper::server_streaming`: send the handler's responses in
    production order until the producer is exhausted or a send fails.
   */
  function ServerStreaming<M, U, R, Req, Res, AE, RE, SE>(
    self: DispatchHelper<AE, RE, SE>, t: MsgType<M, U, R, Req, Res>, req: M, chan: Duplex<SE, Req, RE>, handler: M -> seq<R>)
    : (c: Exchange<Res, Result<(), RpcServerError<AE, RE, SE>>>)
    requires t.pattern == Pattern.ServerStreaming
    ensures c.consumed == 0
    ensures c.sent <= Map(t.responseInto, handler(req))
    ensures c.result.Ok? <==> forall k :: 0 <= k < |handler(req)| ==> SendResult(chan.sink, k).None?
    ensures c.result.Ok? ==> c.sent == Map(t.responseInto, handler(req))
    ensures c.result.Err? ==>
      chan.sink.FailsAt? && |c.sent| == chan.sink.index + 1 && c.result.error == SendError(chan.sink.error)
  {
    var p := SendResponses(self, handler(req), t.responseInto, chan.sink);
    Exchange(p.sent, 0, p.result)
  }

  /** The error future's view of the one-shot channel once the handler has drained its updates. */
  function SignalOf<E>(slot: ErrorSlot<E>): Signal<E>
  {
    if slot.Taken? then Reported(slot.reported) else SenderLive
  }

  /**
    The schedule the race meets. After a second failing update the first
    error is already reported and the handler's read is pending again, so
    the error branch is polled before the loop can go on, and no send has
    completed: the scheduler's choice no longer matters.
   */
  function RaceSchedule<Req, U, RE>(schedule: Schedule, incoming: seq<Result<Req, RE>>, tryFrom: Req -> Option<U>): Schedule
  {
    if 2 <= Failures(incoming, tryFrom) then ErrorAfter(0) else schedule
  }

  /**
    How many received items the handler takes before the race is decided:
    all of them, or, after a second failing update, up to and including
    that update, where its read stays pending.
   */
  function ItemsRead<Req, U, RE>(incoming: seq<Result<Req, RE>>, tryFrom: Req -> Option<U>): nat
  {
    var second := SecondFailing(incoming, tryFrom);
    if second.Some? then second.value + 1 else |incoming|
  }

  /**
    `DispatchHelper::client_streaming`: the handler reads the update stream
    and produces one response, which is sent; a reported update error races
    the send.
   */
  function ClientStreaming<M, U, R, Req, Res, AE, RE, SE>(
    self: DispatchHelper<AE, RE, SE>, t: MsgType<M, U, R, Req, Res>, req: M, chan: Duplex<SE, Req, RE>, handler: (M, seq<U>) -> R, schedule: Schedule)
    : (c: Exchange<Res, Result<(), RpcServerError<AE, RE, SE>>>)
    requires t.pattern == Pattern.ClientStreaming
    ensures Failures(chan.incoming, t.updateTryFrom) < 2 ==> c.consumed == |chan.incoming|
    ensures 2 <= Failures(chan.incoming, t.updateTryFrom) ==> c.consumed == SecondFailing(chan.incoming, t.updateTryFrom).value + 1
    ensures c.sent <= [t.responseInto(handler(req, Updates(chan.incoming, t.updateTryFrom)))]
    ensures FirstError<Req, U, AE, RE, SE>(chan.incoming, t.updateTryFrom).None? || (Failures(chan.incoming, t.updateTryFrom) < 2 && schedule != ErrorAfter(0)) ==>
      && c.sent == [t.responseInto(handler(req, Updates(chan.incoming, t.updateTryFrom)))]
      && (c.result.Ok? <==> SendResult(chan.sink, 0).None?)
      && (c.result.Err? ==> chan.sink.FailsAt? && c.result.error == SendError(chan.sink.error))
    ensures c.result.Err? ==>
      (chan.sink.FailsAt? && c.result.error == SendError(chan.sink.error))
      || Some(c.result.error) == FirstError<Req, U, AE, RE, SE>(chan.incoming, t.updateTryFrom)
    ensures FirstError<Req, U, AE, RE, SE>(chan.incoming, t.updateTryFrom).Some? && (schedule == ErrorAfter(0) || 2 <= Failures(chan.incoming, t.updateTryFrom)) ==>
      c.sent == [] && c.result == Err(FirstError<Req, U, AE, RE, SE>(chan.incoming, t.updateTryFrom).value)
  {
    var drained := Run<Req, U, AE, RE, SE>(Armed, chan.incoming, t.updateTryFrom);
    RunMatchesReference<Req, U, AE, RE, SE>(Armed, chan.incoming, t.updateTryFrom);
    var work := SendResponses(self, [handler(req, drained.updates)], t.responseInto, chan.sink);
    var p := Race2(SignalOf(drained.slot), RaceSchedule(schedule, chan.incoming, t.updateTryFrom), work, false);
    Exchange(p.sent, ItemsRead(chan.incoming, t.updateTryFrom), p.result)
  }

  /**
    What the error future finds once a client-streaming handler has returned,
    as the source has it: the handler owned the downcaster, so a sender that
    was not taken has been dropped with it.
   */
  function SignalAsWritten<E>(slot: ErrorSlot<E>): Signal<E>
  {
    if slot.Taken? then Reported(slot.reported) else SenderDropped
  }

  /**
    `DispatchHelper::client_streaming` as written: when no update failed, the
    handler drops the downcaster on returning, and an error branch polled
    while the response send is pending unwraps a cancelled one-shot.
   */
  function ClientStreamingAsWritten<M, U, R, Req, Res, AE, RE, SE>(
    self: DispatchHelper<AE, RE, SE>, t: MsgType<M, U, R, Req, Res>, req: M, chan: Duplex<SE, Req, RE>,
    handler: (M, seq<U>) -> R, schedule: Schedule)
    : (o: Outcome<Exchange<Res, Result<(), RpcServerError<AE, RE, SE>>>>)
    requires t.pattern == Pattern.ClientStreaming
    ensures o.Panicked? <==> FirstError<Req, U, AE, RE, SE>(chan.incoming, t.updateTryFrom).None? && schedule == ErrorAfter(0)
    ensures o.Completed? ==> o.value == ClientStreaming(self, t, req, chan, handler, schedule)
  {
    var drained := Run<Req, U, AE, RE, SE>(Armed, chan.incoming, t.updateTryFrom);
    RunMatchesReference<Req, U, AE, RE, SE>(Armed, chan.incoming, t.updateTryFrom);
    var work := SendResponses(self, [handler(req, drained.updates)], t.responseInto, chan.sink);
    var race := RaceSchedule(schedule, chan.incoming, t.updateTryFrom);
    Race2AgreesUnlessPanic(SignalAsWritten(drained.slot), race, work, false);
    match Race2AsWritten(SignalAsWritten(drained.slot), race, work, false)
    case Panicked => Panicked
    case Completed(p) => Completed(Exchange(p.sent, ItemsRead(chan.incoming, t.updateTryFrom), p.result))
  }

  /**
    `DispatchHelper::bidi_streaming`: the handler turns the update stream
    into a response stream, whose items are sent in production order until
    a send fails; a reported update error races the send loop.
   */
  function BidiStreaming<M, U, R, Req, Res, AE, RE, SE>(
    self: DispatchHelper<AE, RE, SE>, t: MsgType<M, U, R, Req, Res>, req: M, chan: Duplex<SE, Req, RE>, handler: (M, seq<U>) -> seq<R>, schedule: Schedule)
    : (c: Exchange<Res, Result<(), RpcServerError<AE, RE, SE>>>)
    requires t.pattern == Pattern.BidiStreaming
    ensures Failures(chan.incoming, t.updateTryFrom) < 2 ==> c.consumed == |chan.incoming|
    ensures 2 <= Failures(chan.incoming, t.updateTryFrom) ==> c.consumed == SecondFailing(chan.incoming, t.updateTryFrom).value + 1
    ensures c.sent <= Map(t.responseInto, handler(req, Updates(chan.incoming, t.updateTryFrom)))
    ensures c.result.Ok? ==> c.sent == Map(t.responseInto, handler(req, Updates(chan.incoming, t.updateTryFrom)))
    ensures (|| FirstError<Req, U, AE, RE, SE>(chan.incoming, t.updateTryFrom).None?
             || (&& Failures(chan.incoming, t.updateTryFrom) < 2
                 && (|| schedule.LoopFirst?
                     || (schedule.ErrorAfter? && |handler(req, Updates(chan.incoming, t.updateTryFrom))| < schedule.sends)
                     || (schedule.ErrorAfter? && chan.sink.FailsAt? && chan.sink.index < schedule.sends)))) ==>
      && (c.result.Ok? <==> forall k :: 0 <= k < |handler(req, Updates(chan.incoming, t.updateTryFrom))| ==> SendResult(chan.sink, k).None?)
      && (c.result.Err? ==> chan.sink.FailsAt? && |c.sent| == chan.sink.index + 1 && c.result.error == SendError(chan.sink.error))
    ensures c.result.Err? ==>
      (chan.sink.FailsAt? && |c.sent| == chan.sink.index + 1 && c.result.error == SendError(chan.sink.error))
      || Some(c.result.error) == FirstError<Req, U, AE, RE, SE>(chan.incoming, t.updateTryFrom)
    ensures FirstError<Req, U, AE, RE, SE>(chan.incoming, t.updateTryFrom).Some? && (schedule == ErrorAfter(0) || 2 <= Failures(chan.incoming, t.updateTryFrom)) ==>
      c.sent == [] && c.result == Err(FirstError<Req, U, AE, RE, SE>(chan.incoming, t.updateTryFrom).value)
    ensures && FirstError<Req, U, AE, RE, SE>(chan.incoming, t.updateTryFrom).Some? && Failures(chan.incoming, t.updateTryFrom) < 2
            && schedule.ErrorAfter? && schedule.sends <= |handler(req, Updates(chan.incoming, t.updateTryFrom))|
            && (forall k :: 0 <= k < schedule.sends ==> SendResult(chan.sink, k).None?) ==>
      c.sent == Map(t.responseInto, handler(req, Updates(chan.incoming, t.updateTryFrom)))[..schedule.sends] && c.result == Err(FirstError<Req, U, AE, RE, SE>(chan.incoming, t.updateTryFrom).value)
  {
    var drained := Run<Req, U, AE, RE, SE>(Armed, chan.incoming, t.updateTryFrom);
    RunMatchesReference<Req, U, AE, RE, SE>(Armed, chan.incoming, t.updateTryFrom);
    var work := SendResponses(self, handler(req, drained.updates), t.responseInto, chan.sink);
    assert schedule.ErrorAfter? && chan.sink.FailsAt? && chan.sink.index < schedule.sends ==>
      !Interrupts(schedule, work, true) by {
      if work.result.Ok? && chan.sink.FailsAt? && chan.sink.index < |work.sent| {
        assert SendResult(chan.sink, chan.sink.index).Some?;
      }
    }
    var p := Race2(SignalOf(drained.slot), RaceSchedule(schedule, chan.incoming, t.updateTryFrom), work, true);
    Exchange(p.sent, ItemsRead(chan.incoming, t.updateTryFrom), p.result)
  }

  /** `accept_one` never reports a send error or an unexpected message: those belong to the later stages. */
  lemma AcceptOneErrors<AE, SE, Req, RE>(self: DispatchHelper<AE, RE, SE>, accept: Bi<AE, SE, Req, RE>)
    ensures AcceptOne(self, accept).Err? ==>
      AcceptOne(self, accept).error.AcceptBiError? || AcceptOne(self, accept).error.EarlyClose? || AcceptOne(self, accept).error.RecvError?
  {
  }
}
