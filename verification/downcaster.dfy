/**
  `UpdateDowncaster`: the update stream a streaming-request handler reads.
  It wraps the channel's receive stream, yields the received requests that
  downcast to the message's update type, and reports the first receive
  error or failed downcast through a one-shot channel whose sender it
  holds in an `Option` and `take`s on first use.
 */
module Downcaster {
  import opened Wrappers
  import opened ServerErrors

  /** `std::task::Poll`. */
  datatype Poll<+T> = Ready(value: T) | Pending

  /** What the wrapped receive stream answers when polled: an item, its end, or nothing yet. */
  datatype InnerPoll<+T> = Item(item: T) | Ended | NotReady

  /** The one-shot error sender: still held (`Armed`), or taken and used to send `reported`. */
  datatype ErrorSlot<+E> = Armed | Taken(reported: E)

  /** A received item the update stream cannot yield: a receive error or a request that does not downcast. */
  predicate Fails<Req, U, RE>(x: Result<Req, RE>, tryFrom: Req -> Option<U>)
  {
    x.Err? || tryFrom(x.value).None?
  }

  /** The error reported for a failing item. */
  function FailureOf<Req, AE, RE, SE>(x: Result<Req, RE>): RpcServerError<AE, RE, SE>
  {
    if x.Err? then RecvError(x.error) else UnexpectedUpdateMessage
  }

  /** `UpdateDowncaster::poll_next`: one poll, as a step from the sender's state. */
  function PollNext<Req, U, AE, RE, SE>(
    slot: ErrorSlot<RpcServerError<AE, RE, SE>>, inner: InnerPoll<Result<Req, RE>>, tryFrom: Req -> Option<U>)
    : (r: (ErrorSlot<RpcServerError<AE, RE, SE>>, Poll<Option<U>>))
    ensures r.1 == Ready(None) <==> inner == Ended
    ensures r.1.Ready? && r.1.value.Some? <==> inner.Item? && !Fails(inner.item, tryFrom)
    ensures inner.Item? && inner.item.Ok? && r.1.Ready? && r.1.value.Some? ==> tryFrom(inner.item.value) == r.1.value
    ensures r.1.Pending? <==> inner.NotReady? || (inner.Item? && Fails(inner.item, tryFrom))
    ensures inner.Item? && Fails(inner.item, tryFrom) ==>
      r.0 == if slot.Armed? then Taken(FailureOf(inner.item)) else slot
    ensures !(inner.Item? && Fails(inner.item, tryFrom)) ==> r.0 == slot
  {
    match inner
    case NotReady => (slot, Pending)
    case Ended => (slot, Ready(None))
    case Item(Ok(msg)) =>
      (match tryFrom(msg)
       case Some(u) => (slot, Ready(Some(u)))
       case None => (Report(slot, UnexpectedUpdateMessage), Pending))
    case Item(Err(cause)) => (Report(slot, RecvError(cause)), Pending)
  }

  /** Reports `e` through the one-shot sender if it is still held, which uses it up; later errors are dropped. */
  function Report<E>(slot: ErrorSlot<E>, e: E): ErrorSlot<E>
  {
    if slot.Armed? then Taken(e) else slot
  }

  /** What a handler that reads its update stream to the end saw, and the sender's final state. */
  datatype Drained<+U, +E> = Drained(updates: seq<U>, slot: ErrorSlot<E>, ended: bool)

  /**
    Polls the downcaster once for each received item and once more after the
    last one, collecting what it yields.
   */
  function Run<Req, U, AE, RE, SE>(
    slot: ErrorSlot<RpcServerError<AE, RE, SE>>, items: seq<Result<Req, RE>>, tryFrom: Req -> Option<U>)
    : Drained<U, RpcServerError<AE, RE, SE>>
    decreases |items|
  {
    if |items| == 0 then
      var (s, out) := PollNext(slot, Ended, tryFrom);
      Drained([], s, out.Ready? && out.value.None?)
    else
      var (s, out) := PollNext(slot, Item(items[0]), tryFrom);
      var rest := Run(s, items[1..], tryFrom);
      Drained((if out.Ready? && out.value.Some? then [out.value.value] else []) + rest.updates, rest.slot, rest.ended)
  }

  /** Reference definition of the update stream: the received requests that downcast, in arrival order. */
  function Updates<Req, U, RE>(items: seq<Result<Req, RE>>, tryFrom: Req -> Option<U>): (us: seq<U>)
    ensures |us| <= |items|
    ensures (forall i :: 0 <= i < |items| ==> !Fails(items[i], tryFrom)) ==>
      |us| == |items| && forall i :: 0 <= i < |items| ==> Some(us[i]) == tryFrom(items[i].value)
    decreases |items|
  {
    if |items| == 0 then []
    else (if Fails(items[0], tryFrom) then [] else [tryFrom(items[0].value).value]) + Updates(items[1..], tryFrom)
  }

  /** Reference definition of where the update stream fails: the position of the first failing item, if any. */
  function FirstFailing<Req, U, RE>(items: seq<Result<Req, RE>>, tryFrom: Req -> Option<U>): (r: Option<nat>)
    ensures r.None? <==> forall i :: 0 <= i < |items| ==> !Fails(items[i], tryFrom)
    ensures r.Some? ==> r.value < |items| && Fails(items[r.value], tryFrom)
    ensures r.Some? ==> forall j :: 0 <= j < r.value ==> !Fails(items[j], tryFrom)
    decreases |items|
  {
    if |items| == 0 then None
    else if Fails(items[0], tryFrom) then Some(0)
    else
      var r := FirstFailing(items[1..], tryFrom);
      if r.Some? then Some(r.value + 1) else None
  }

  /**
    How many received items fail. Each failing item is a poll that returns
    `Pending` without yielding, so a reader that reads past the first
    failure is pending once more for each later one.
   */
  function Failures<Req, U, RE>(items: seq<Result<Req, RE>>, tryFrom: Req -> Option<U>): (n: nat)
    ensures n <= |items|
    ensures n == 0 <==> FirstFailing(items, tryFrom).None?
    decreases |items|
  {
    if |items| == 0 then 0
    else (if Fails(items[0], tryFrom) then 1 else 0) + Failures(items[1..], tryFrom)
  }

  /**
    The position of the second failing item, if any: the poll at which a
    reader that goes on past the first failure is left pending with the
    first error already reported.
   */
  function SecondFailing<Req, U, RE>(items: seq<Result<Req, RE>>, tryFrom: Req -> Option<U>): (r: Option<nat>)
    ensures r.Some? <==> 2 <= Failures(items, tryFrom)
    ensures r.Some? ==>
      && r.value < |items| && Fails(items[r.value], tryFrom)
      && FirstFailing(items, tryFrom).Some? && FirstFailing(items, tryFrom).value < r.value
    ensures r.Some? ==> forall j :: FirstFailing(items, tryFrom).value < j < r.value ==> !Fails(items[j], tryFrom)
    decreases |items|
  {
    if |items| == 0 then None
    else if Fails(items[0], tryFrom) then
      var f := FirstFailing(items[1..], tryFrom);
      if f.Some? then Some(f.value + 1) else None
    else
      var s := SecondFailing(items[1..], tryFrom);
      if s.Some? then Some(s.value + 1) else None
  }

  /** Reference definition of the reported error: that of the first failing item, if any. */
  function FirstError<Req, U, AE, RE, SE>(items: seq<Result<Req, RE>>, tryFrom: Req -> Option<U>)
    : Option<RpcServerError<AE, RE, SE>>
  {
    var r := FirstFailing(items, tryFrom);
    if r.Some? then Some(FailureOf(items[r.value])) else None
  }

  /** The slot a `FirstError` result leaves behind when the sender starts armed. */
  function SlotFor<E>(failure: Option<E>): ErrorSlot<E>
  {
    if failure.Some? then Taken(failure.value) else Armed
  }

  /**
    Driving `poll_next` over a whole receive stream yields exactly the
    reference update stream, ends when the receive stream ends, and leaves
    exactly the first failure in the one-shot channel; once the sender is
    taken nothing else is reported.
   */
  lemma {:induction false} RunMatchesReference<Req, U, AE, RE, SE>(
    slot: ErrorSlot<RpcServerError<AE, RE, SE>>, items: seq<Result<Req, RE>>, tryFrom: Req -> Option<U>)
    ensures Run(slot, items, tryFrom).updates == Updates(items, tryFrom)
    ensures Run(slot, items, tryFrom).ended
    ensures slot.Taken? ==> Run(slot, items, tryFrom).slot == slot
    ensures slot.Armed? ==> Run(slot, items, tryFrom).slot == SlotFor(FirstError<Req, U, AE, RE, SE>(items, tryFrom))
    decreases |items|
  {
    if |items| != 0 {
      var (s, out) := PollNext(slot, Item(items[0]), tryFrom);
      RunMatchesReference(s, items[1..], tryFrom);
      if !Fails(items[0], tryFrom) {
        var r := FirstFailing(items[1..], tryFrom);
        assert r.Some? ==> items[1..][r.value] == items[r.value + 1];
      }
    }
  }

  /** The update stream is built item by item, so it keeps arrival order across any split of the input. */
  lemma {:induction false} UpdatesAppend<Req, U, RE>(xs: seq<Result<Req, RE>>, ys: seq<Result<Req, RE>>, tryFrom: Req -> Option<U>)
    ensures Updates(xs + ys, tryFrom) == Updates(xs, tryFrom) + Updates(ys, tryFrom)
    decreases |xs|
  {
    if |xs| == 0 {
      assert xs + ys == ys;
    } else {
      assert (xs + ys)[0] == xs[0];
      assert (xs + ys)[1..] == xs[1..] + ys;
      UpdatesAppend(xs[1..], ys, tryFrom);
    }
  }

  /** Every yielded update is the downcast of some received request: nothing that fails to downcast is yielded. */
  lemma {:induction false} UpdatesComeFromItems<Req, U, RE>(items: seq<Result<Req, RE>>, tryFrom: Req -> Option<U>)
    ensures forall k :: 0 <= k < |Updates(items, tryFrom)| ==>
      exists i :: 0 <= i < |items| && items[i].Ok? && tryFrom(items[i].value) == Some(Updates(items, tryFrom)[k])
    decreases |items|
  {
    if |items| == 0 {
      assert Updates(items, tryFrom) == [];
    } else {
      UpdatesComeFromItems(items[1..], tryFrom);
      var us := Updates(items, tryFrom);
      var rest := Updates(items[1..], tryFrom);
      var head := if Fails(items[0], tryFrom) then [] else [tryFrom(items[0].value).value];
      assert us == head + rest;
      forall k | 0 <= k < |us|
        ensures exists i :: 0 <= i < |items| && items[i].Ok? && tryFrom(items[i].value) == Some(us[k])
      {
        if k < |head| {
          assert items[0].Ok? && tryFrom(items[0].value) == Some(us[k]);
        } else {
          var i :| 0 <= i < |items[1..]| && items[1..][i].Ok? && tryFrom(items[1..][i].value) == Some(rest[k - |head|]);
          assert items[i + 1] == items[1..][i];
        }
      }
    }
  }
}
