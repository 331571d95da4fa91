/** Events of the in-process app server, the two delivery tiers, and what one call of
    the forwarder does to the facade's books. */
module InProcessEvents {

  const USIZE_MAX: nat := 0xFFFF_FFFF_FFFF_FFFF

  const TOKEN_REFRESH_UNSUPPORTED: int := -32000
  const EVENT_QUEUE_FULL: int := -32001

  datatype ServerNotification =
    | TurnCompleted(payload: nat)
    | ThreadSettingsUpdated(payload: nat)
    | ItemCompleted(payload: nat)
    | AgentMessageDelta(payload: nat)
    | PlanDelta(payload: nat)
    | ReasoningSummaryTextDelta(payload: nat)
    | ReasoningTextDelta(payload: nat)
    | OtherNotification(payload: nat)

  datatype ServerRequest = ChatgptAuthTokensRefresh(id: string) | OtherRequest(id: string)

  datatype Event =
    | Lagged(skipped: nat)
    | Notification(notification: ServerNotification)
    | Request(request: ServerRequest)

  predicate NotificationRequiresDelivery(n: ServerNotification) {
    !n.OtherNotification?
  }

  /** The lossless tier: transcript deltas, completions and settings updates. */
  predicate RequiresDelivery(e: Event) {
    e.Notification? && NotificationRequiresDelivery(e.notification)
  }

  predicate IsTokenRefresh(e: Event) {
    e.Request? && e.request.ChatgptAuthTokensRefresh?
  }

  /** A server request the facade failed, with the JSON-RPC error code it gave. */
  datatype Failure = Failure(request: ServerRequest, code: int)

  /** What went into the consumer queue: an event, or a lag marker standing for the
      events dropped since the one before. A marker and an upstream `Lagged` look the
      same in the queue; the log keeps them apart. */
  datatype Entry = Delivered(event: Event) | Gap(dropped: seq<Event>)

  /** The facade's books. `skipped` and `enabled` are its variables; the rest is history:
      the entries queued, the drops not yet reported, the requests failed, and the event
      in hand when the consumer was found gone. */
  datatype Books = Books(
    skipped: nat,
    enabled: bool,
    log: seq<Entry>,
    pending: seq<Event>,
    failed: seq<Failure>,
    lost: seq<Event>)

  function SaturatingAdd(n: nat, k: nat): (r: nat)
    ensures n + k <= USIZE_MAX ==> r == n + k
    ensures n <= USIZE_MAX ==> n <= r <= USIZE_MAX
  {
    if n + k <= USIZE_MAX then n + k else USIZE_MAX
  }

  function Saturated(n: nat): (r: nat) {
    if n <= USIZE_MAX then n else USIZE_MAX
  }

  function Flushed(b: Books): Books {
    b.(skipped := 0, log := b.log + [Gap(b.pending)], pending := [])
  }

  function Refused(e: Event, code: int): seq<Failure> {
    if e.Request? then [Failure(e.request, code)] else []
  }

  function Dropped(b: Books, e: Event): Books {
    b.(skipped := SaturatingAdd(b.skipped, 1), pending := b.pending + [e],
        failed := b.failed + Refused(e, EVENT_QUEUE_FULL))
  }

  function Queued(b: Books, e: Event): Books {
    b.(log := b.log + [Delivered(e)])
  }

  function Disabled(b: Books, e: Event): Books {
    b.(enabled := false, lost := b.lost + [e])
  }

  /** What a send on the consumer channel comes back with. `send().await` waits for room,
      so it is never `Full`. */
  datatype SendResult = Sent | Full | Closed

  function Offered(b: Books, e: Event, send: SendResult): Books {
    match send
    case Sent => Queued(b, e)
    case Full => Dropped(b, e)
    case Closed => Disabled(b, e)
  }

  /** One call of the forwarder: the pending lag marker goes first, and the event is
      offered only once the marker is in the queue. */
  function Forwarded(b: Books, e: Event, flush: SendResult, send: SendResult): Books {
    if b.skipped == 0 then Offered(b, e, send)
    else match flush
      case Sent => Offered(Flushed(b), e, send)
      case Full => Dropped(b, e)
      case Closed => Disabled(b, e)
  }

  datatype ForwardEventResult = Continue | DisableStream

  /** The facade side of the event channel: the worker's two variables, the channel's
      contents and the requests failed. The results of the sends the call makes come in
      as parameters. */
  class Forwarder {
    var skipped: nat
    var enabled: bool
    var failed: seq<Failure>
    var sent: seq<Event>
    ghost var log: seq<Entry>
    ghost var pending: seq<Event>
    ghost var lost: seq<Event>

    ghost function Contents(): Books
      reads this
    {
      Books(skipped, enabled, log, pending, failed, lost)
    }

    method ForwardInProcessEvent(event: Event, flush: SendResult, send: SendResult) returns (result: ForwardEventResult)
      requires RequiresDelivery(event) ==> flush != Full && send != Full
      modifies this
      ensures var b := Forwarded(old(Contents()), event, flush, send);
              Contents() == b.(enabled := old(enabled)) && (result == DisableStream <==> b.lost != old(lost))
      ensures sent == old(sent) +
        (if old(skipped) > 0 && flush == Sent then [Lagged(old(skipped))] else []) +
        (if (old(skipped) > 0 ==> flush == Sent) && send == Sent then [event] else [])
    {
      if skipped > 0 {
        if RequiresDelivery(event) {
          if flush == Closed {
            lost := lost + [event];
            return DisableStream;
          }
          sent := sent + [Lagged(skipped)];
          skipped, log, pending := 0, log + [Gap(pending)], [];
        } else {
          match flush {
            case Sent =>
              sent := sent + [Lagged(skipped)];
              skipped, log, pending := 0, log + [Gap(pending)], [];
            case Full =>
              skipped, pending := SaturatingAdd(skipped, 1), pending + [event];
              if event.Request? {
                failed := failed + [Failure(event.request, EVENT_QUEUE_FULL)];
              }
              return Continue;
            case Closed =>
              lost := lost + [event];
              return DisableStream;
          }
        }
      }
      if RequiresDelivery(event) {
        if send == Closed {
          lost := lost + [event];
          return DisableStream;
        }
        sent, log := sent + [event], log + [Delivered(event)];
        return Continue;
      }
      match send {
        case Sent =>
          sent, log := sent + [event], log + [Delivered(event)];
          return Continue;
        case Full =>
          skipped, pending := SaturatingAdd(skipped, 1), pending + [event];
          if event.Request? {
            failed := failed + [Failure(event.request, EVENT_QUEUE_FULL)];
          }
          return Continue;
        case Closed =>
          lost := lost + [event];
          return DisableStream;
      }
    }

    /** One turn of the worker's event branch: token refreshes are failed on the spot,
        everything else is forwarded. */
    method HandleEvent(event: Event, flush: SendResult, send: SendResult)
      requires RequiresDelivery(event) ==> flush != Full && send != Full
      modifies this
      ensures Contents() ==
        if IsTokenRefresh(event)
        then old(Contents()).(failed := old(failed) + [Failure(event.request, TOKEN_REFRESH_UNSUPPORTED)])
        else Forwarded(old(Contents()), event, flush, send)
    {
      if event.Request? && event.request.ChatgptAuthTokensRefresh? {
        failed := failed + [Failure(event.request, TOKEN_REFRESH_UNSUPPORTED)];
        return;
      }
      var result := ForwardInProcessEvent(event, flush, send);
      match result {
        case Continue =>
        case DisableStream => enabled := false;
      }
    }
  }
}
