/**
  `race2` in the server's streaming-request handlers: a `select!` between the
  error future of the update downcaster's one-shot channel and the send loop.
  Which branch completes first is the scheduler's choice, so it is a
  parameter here.
 */
module Race {
  import opened Wrappers
  import opened Channel

  /** What the error future finds in the one-shot channel when it is polled. */
  datatype Signal<+E> = Reported(error: E) | SenderDropped | SenderLive

  /**
    How the scheduler interleaves the two branches: the send loop returns
    before the error branch is found ready (`LoopFirst`), or the error branch
    is found ready while the loop is still pending, once the loop's first
    `sends` sends have completed (`ErrorAfter`). A send counts as completed
    once the sink has accepted it; a value handed to the sink whose send is
    still pending when the error wins is not counted, and is not among the
    values the race reports as sent.
   */
  datatype Schedule = LoopFirst | ErrorAfter(sends: nat)

  /** A run of a task: it completes with a value or panics. */
  datatype Outcome<+T> = Completed(value: T) | Panicked

  /**
    The error branch is reached while the send loop is still pending: before
    one of its sends has completed, or, for a loop that polls its producer
    once more after its last send to learn that it has ended (`awaitsEnd`),
    while that poll is pending. A loop stopped by a failed send returns at
    once, so it has no such last poll.
   */
  predicate Interrupts<T, E>(schedule: Schedule, work: Pumped<T, E>, awaitsEnd: bool)
  {
    && schedule.ErrorAfter?
    && (schedule.sends < |work.sent| || (awaitsEnd && work.result.Ok? && schedule.sends == |work.sent|))
  }

  /**
    `race2` as written, where the error future unwraps what the one-shot
    receiver yields: when the downcaster has been dropped without reporting,
    the one-shot is cancelled and the unwrap panics.
   */
  function Race2AsWritten<T, E>(signal: Signal<E>, schedule: Schedule, work: Pumped<T, E>, awaitsEnd: bool)
    : (o: Outcome<Pumped<T, E>>)
    ensures o.Panicked? <==> signal.SenderDropped? && Interrupts(schedule, work, awaitsEnd)
    ensures o.Completed? ==> o.value.sent <= work.sent
  {
    if Interrupts(schedule, work, awaitsEnd) then
      match signal
      case Reported(e) => Completed(Pumped(work.sent[..schedule.sends], Err(e)))
      case SenderDropped => Panicked
      case SenderLive => Completed(work)
    else Completed(work)
  }

  /**
    `race2` with a cancelled one-shot treated as never ready: a reported error
    wins exactly when the scheduler reaches it before the loop is done, and
    the loop's own result stands otherwise.
   */
  function Race2<T, E>(signal: Signal<E>, schedule: Schedule, work: Pumped<T, E>, awaitsEnd: bool): (p: Pumped<T, E>)
    ensures p.sent <= work.sent
    ensures p.result.Err? && p != work ==> signal.Reported? && p.result.error == signal.error
    ensures signal.Reported? && Interrupts(schedule, work, awaitsEnd) ==>
      p == Pumped(work.sent[..schedule.sends], Err(signal.error))
    ensures !signal.Reported? || !Interrupts(schedule, work, awaitsEnd) ==> p == work
  {
    if signal.Reported? && Interrupts(schedule, work, awaitsEnd) then Pumped(work.sent[..schedule.sends], Err(signal.error))
    else work
  }

  /** A handler that is done with its updates, while its send is still pending, panics the server task. */
  lemma Race2AsWrittenPanics<T, E>(work: Pumped<T, E>, awaitsEnd: bool)
    requires 0 < |work.sent|
    ensures Race2AsWritten(SenderDropped, ErrorAfter(0), work, awaitsEnd) == Panicked
  {
  }

  /** The corrected race agrees with the source wherever the source does not panic, and never panics. */
  lemma Race2AgreesUnlessPanic<T, E>(signal: Signal<E>, schedule: Schedule, work: Pumped<T, E>, awaitsEnd: bool)
    ensures Race2AsWritten(signal, schedule, work, awaitsEnd).Completed? ==>
      Race2AsWritten(signal, schedule, work, awaitsEnd).value == Race2(signal, schedule, work, awaitsEnd)
    ensures !signal.SenderDropped? ==>
      Race2AsWritten(signal, schedule, work, awaitsEnd) == Completed(Race2(signal, schedule, work, awaitsEnd))
    ensures Race2(SenderDropped, schedule, work, awaitsEnd) == Race2(SenderLive, schedule, work, awaitsEnd) == work
  {
  }
}
