/** `SubscriberEvent`: the life cycle of one subscriber-side edge. */
module SubscriptionState {
  import opened Wrappers
  import opened Signals

  /** The completion part of the `subscribed` state (`.pending` in the
      source is `Open` here). */
  datatype CompletionMark = Open | Fulfilled | Rejected

  datatype SubscriberEvent =
    | Pending
    | Subscribed(subscription: Option<SubId>, mark: CompletionMark)
    | Cancelled
  {
    /** `isSubscribed` */
    predicate IsSubscribed() { Subscribed? }

    /** `isCompleted`: subscribed and a completion was recorded. */
    predicate IsCompleted() { Subscribed? && mark != Open }

    /** `isFinished` */
    predicate IsFinished() { Subscribed? && mark == Fulfilled }

    /** `isFailed` */
    predicate IsFailed() { Subscribed? && mark == Rejected }

    /** `isCancelled` */
    predicate IsCancelled() { Cancelled? }

    /** Subscribed and still open (`isSubscribedAndNotCompleted`). */
    predicate IsOpen() { Subscribed? && mark == Open }

    /** `embededSubscription` */
    function EmbeddedSubscription(): (s: Option<SubId>)
      ensures s.Some? ==> IsSubscribed()
    {
      if Subscribed? then subscription else None
    }
  }

  /** `static subscribed(subscription:isFinished:)` */
  function SubscribedWith(s: Option<SubId>, isFinished: bool): (e: SubscriberEvent)
    ensures e.IsCompleted() && e.EmbeddedSubscription() == s
    ensures e.IsFinished() <==> isFinished
    ensures e.IsFailed() <==> !isFinished
  {
    Subscribed(s, if isFinished then Fulfilled else Rejected)
  }

  /** `complete(_:)`: only a subscribed edge records a completion; the
      embedded subscription is kept. Returns whether it was recorded. */
  function Complete(e: SubscriberEvent, isFinished: bool): (r: (bool, SubscriberEvent))
    ensures r.0 <==> e.IsSubscribed()
    ensures r.0 ==> r.1.IsCompleted() && r.1.EmbeddedSubscription() == e.EmbeddedSubscription()
                    && (r.1.IsFinished() <==> isFinished)
    ensures !r.0 ==> r.1 == e
  {
    if !e.IsSubscribed() then (false, e)
    else (true, SubscribedWith(e.EmbeddedSubscription(), isFinished))
  }

  /** `isSubscribed`: every state is pending, cancelled or subscribed,
      and a subscribed edge is either still open or completed. */
  lemma SubscribedQuery(e: SubscriberEvent)
    ensures e.Pending? || e.IsSubscribed() || e.IsCancelled()
    ensures e.IsSubscribed() <==> e.IsOpen() || e.IsCompleted()
    ensures e.IsSubscribed() ==> !e.IsCancelled()
  {
  }

  /** `isCompleted`: a completion was recorded, as finished or as failed. */
  lemma CompletedQuery(e: SubscriberEvent)
    ensures e.IsCompleted() <==> e.IsFinished() || e.IsFailed()
    ensures e.IsCompleted() ==> e.IsSubscribed()
  {
  }

  /** `isFinished` and `isFailed` never hold together. */
  lemma FinishedOrFailed(e: SubscriberEvent)
    ensures !(e.IsFinished() && e.IsFailed())
  {
  }

  /** `isCancelled` (`.cancelled == self`) holds for the cancelled state
      alone, which embeds no subscription. */
  lemma CancelledQuery(e: SubscriberEvent)
    ensures e.IsCancelled() <==> e == Cancelled
    ensures e.IsCancelled() ==> e.EmbeddedSubscription().None? && !e.IsSubscribed()
  {
  }

  /** `isSubscribedAndNotCompleted`: open is subscribed and not completed,
      so open and completed exclude each other. */
  lemma OpenQuery(e: SubscriberEvent)
    ensures e.IsOpen() <==> e.IsSubscribed() && !e.IsCompleted()
  {
  }
}
