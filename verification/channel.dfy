/**
  One freshly opened duplex channel, seen as events: whether opening (or
  accepting) it succeeded, how its send sink answers each send, and the
  finite sequence of items its receive stream yields before it ends.
 */
module Channel {
  import opened Wrappers

  /**
    A send sink described by the outcome of each send on it: `AcceptsAll`
    never fails; `FailsAt(k, e)` accepts sends `0 .. k-1` and fails send `k`
    and every later one with `e`.
   */
  datatype Sink<+E> = AcceptsAll | FailsAt(index: nat, error: E)

  /** The error of send number `k` on `sink`, if that send fails. */
  function SendResult<E>(sink: Sink<E>, k: nat): Option<E>
  {
    if sink.FailsAt? && sink.index <= k then Some(sink.error) else None
  }

  /** One end of a channel: where its sends go and what its receive stream yields. */
  datatype Duplex<+SE, +In, +RE> = Duplex(sink: Sink<SE>, incoming: seq<Result<In, RE>>)

  /** The outcome of `open_bi` on the client or `accept_bi` on the server. */
  datatype Bi<+E, +SE, +In, +RE> = BiFailed(error: E) | BiOpened(channel: Duplex<SE, In, RE>)

  /**
    What one side did on a channel: the values it handed to its sink, in
    order (after a send error the value that failed is the last one), how
    many items it took from its receive stream, and what it returned.
   */
  datatype Exchange<+Out, +T> = Exchange(sent: seq<Out>, consumed: nat, result: T)

  /** The values a send loop handed to its sink and how the loop ended. */
  datatype Pumped<+T, +E> = Pumped(sent: seq<T>, result: Result<(), E>)

  /**
    Sends `values` in order, the first one as send number `start`, and stops
    at the first send that fails, returning its error: the server's response
    loops and the client's update sends.
   */
  function Pump<T, E>(values: seq<T>, sink: Sink<E>, start: nat): (p: Pumped<T, E>)
    ensures p.sent <= values
    ensures p.result.Ok? <==> forall k :: start <= k < start + |values| ==> SendResult(sink, k).None?
    ensures p.result.Ok? ==> p.sent == values
    ensures p.result.Err? ==> 0 < |p.sent| && SendResult(sink, start + |p.sent| - 1) == Some(p.result.error)
    ensures forall k :: start <= k < start + |p.sent| - 1 ==> SendResult(sink, k).None?
    decreases |values|
  {
    if |values| == 0 then Pumped([], Ok(()))
    else
      match SendResult(sink, start)
      case Some(e) => Pumped([values[0]], Err(e))
      case None =>
        var rest := Pump(values[1..], sink, start + 1);
        Pumped([values[0]] + rest.sent, rest.result)
  }
}
