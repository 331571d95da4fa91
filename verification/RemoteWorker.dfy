/** The remote client's worker: what one client command, or one frame off the wire, does to
    its pending requests, the stream and the event channel; and the handshake before it. */
module RemoteWorker {
  import opened Basics

  /** A caller waiting for the answer to one request. */
  type Waiter = nat

  datatype Event = Notified(payload: nat) | Asked(id: string, payload: nat) | Disconnected

  /** Frames off the wire. `recognised` is whether the typed conversion accepts the message.
      `origin` labels a reply with the written request it answers; the worker cannot see it
      and never uses it. */
  datatype Frame =
    | Response(id: string, payload: nat, origin: nat)
    | ErrorReply(id: string, payload: nat, origin: nat)
    | Notification(recognised: bool, payload: nat)
    | ServerRequest(id: string, recognised: bool, payload: nat)
    | InvalidJson
    | Closed
    | Ignored
    | TransportError
    | EndOfStream

  datatype Command =
    | Request(waiter: Waiter, id: string)
    | Notify
    | ResolveServerRequest(id: string)
    | RejectServerRequest(id: string)
    | Shutdown

  datatype ErrorKind = BrokenPipe | InvalidData | ConnectionAborted | UnexpectedEof | TimedOut | Other

  /** What a waiter is told. */
  datatype Outcome =
    | Replied(payload: nat)
    | RepliedError(payload: nat)
    | DuplicateId
    | WriteFailed
    | ExitError(kind: ErrorKind)
    | ChannelClosed

  const METHOD_NOT_FOUND: int := -32601

  datatype Outbound =
    | Initialize
    | Initialized
    | Call(id: string, waiter: Waiter)
    | ClientNotification
    | Answer(id: string)
    | Refusal(id: string, code: int)

  datatype Worker = Worker(
    pending: map<string, Waiter>,
    outcomes: map<Waiter, Outcome>,
    outbound: seq<Outbound>,
    delivered: seq<Event>,       // put on the event channel so far
    exit: Option<ErrorKind>)     // set when the loop is left

  function Offer(w: Worker, e: Event, open: bool): Worker {
    if open then w.(delivered := w.delivered + [e]) else w
  }

  function Leave(w: Worker, kind: ErrorKind): Worker {
    w.(exit := Some(kind))
  }

  function LeaveDisconnected(w: Worker, kind: ErrorKind, open: bool): Worker {
    Leave(Offer(w, Disconnected, open), kind)
  }

  function OnRequest(w: Worker, waiter: Waiter, id: string, writeOk: bool, open: bool): Worker {
    if id in w.pending then w.(outcomes := w.outcomes[waiter := DuplicateId])
    else if writeOk then w.(pending := w.pending[id := waiter], outbound := w.outbound + [Call(id, waiter)])
    else LeaveDisconnected(w.(outcomes := w.outcomes[waiter := WriteFailed]), BrokenPipe, open)
  }

  /** One command; `writeOk` is what the write it makes comes back with, `open` whether the
      consumer still holds its receiver. */
  function OnCommand(w: Worker, c: Command, writeOk: bool, open: bool): Worker {
    match c
    case Request(waiter, id) => OnRequest(w, waiter, id, writeOk, open)
    case Notify => if writeOk then w.(outbound := w.outbound + [ClientNotification]) else w
    case ResolveServerRequest(id) => if writeOk then w.(outbound := w.outbound + [Answer(id)]) else w
    case RejectServerRequest(id) => if writeOk then w.(outbound := w.outbound + [Answer(id)]) else w
    case Shutdown => Leave(w, BrokenPipe)
  }

  function Settle(w: Worker, id: string, outcome: Outcome): Worker {
    if id in w.pending
    then w.(pending := w.pending - {id}, outcomes := w.outcomes[w.pending[id] := outcome])
    else w
  }

  function Surface(w: Worker, e: Event, open: bool): Worker {
    if open then Offer(w, e, open) else Leave(w, BrokenPipe)
  }

  /** One frame off the wire. */
  function OnFrame(w: Worker, f: Frame, writeOk: bool, open: bool): Worker {
    match f
    case Response(id, payload, _) => Settle(w, id, Replied(payload))
    case ErrorReply(id, payload, _) => Settle(w, id, RepliedError(payload))
    case Notification(recognised, payload) => if recognised then Surface(w, Notified(payload), open) else w
    case ServerRequest(id, recognised, payload) =>
      if recognised then Surface(w, Asked(id, payload), open)
      else if writeOk then w.(outbound := w.outbound + [Refusal(id, METHOD_NOT_FOUND)])
      else LeaveDisconnected(w, BrokenPipe, open)
    case InvalidJson => LeaveDisconnected(w, InvalidData, open)
    case Closed => LeaveDisconnected(w, ConnectionAborted, open)
    case Ignored => w
    case TransportError => LeaveDisconnected(w, InvalidData, open)
    case EndOfStream => LeaveDisconnected(w, UnexpectedEof, open)
  }

  function QueuedWaiters(commands: seq<Command>): (r: set<Waiter>) {
    set i | 0 <= i < |commands| && commands[i].Request? :: commands[i].waiter
  }

  /** Every waiter in `ws` is told `outcome`. */
  function TellAll(outcomes: map<Waiter, Outcome>, ws: set<Waiter>, outcome: Outcome): (r: map<Waiter, Outcome>)
    ensures r.Keys == outcomes.Keys + ws
    ensures forall w :: w in ws ==> r[w] == outcome
    ensures forall w :: w in outcomes && w !in ws ==> r[w] == outcomes[w]
  {
    outcomes + map w | w in ws :: outcome
  }

  /** Leaving the loop: pending waiters get the exit error, and commands still queued find
      their channel closed. */
  function Finish(w: Worker, queued: seq<Command>): Worker
    requires w.exit.Some?
  {
    w.(pending := map[],
       outcomes := TellAll(TellAll(w.outcomes, w.pending.Values, ExitError(w.exit.value)), QueuedWaiters(queued),
           ChannelClosed))
  }

  // ----- the worker as it runs

  class WorkerTask {
    var pending: map<string, Waiter>
    var outcomes: map<Waiter, Outcome>
    var outbound: seq<Outbound>
    var delivered: seq<Event>
    var exit: Option<ErrorKind>

    ghost function Contents(): Worker
      reads this
    {
      Worker(pending, outcomes, outbound, delivered, exit)
    }

    method Deliver(e: Event, open: bool) returns (ok: bool)
      modifies this`delivered
      ensures ok == open && delivered == if open then old(delivered) + [e] else old(delivered)
    {
      ok := open;
      if open {
        delivered := delivered + [e];
      }
    }

    method HandleCommand(c: Command, writeOk: bool, open: bool)
      modifies this
      ensures Contents() == OnCommand(old(Contents()), c, writeOk, open)
    {
      match c {
        case Request(waiter, id) =>
          if id in pending {
            outcomes := outcomes[waiter := DuplicateId];
            return;
          }
          pending := pending[id := waiter];
          if !writeOk {
            if id in pending {
              outcomes := outcomes[pending[id] := WriteFailed];
              pending := pending - {id};
            }
            assert pending == old(pending);
            var _ := Deliver(Disconnected, open);
            exit := Some(BrokenPipe);
          } else {
            outbound := outbound + [Call(id, waiter)];
          }
        case Notify =>
          if writeOk { outbound := outbound + [ClientNotification]; }
        case ResolveServerRequest(id) =>
          if writeOk { outbound := outbound + [Answer(id)]; }
        case RejectServerRequest(id) =>
          if writeOk { outbound := outbound + [Answer(id)]; }
        case Shutdown =>
          exit := Some(BrokenPipe);
      }
    }

    method HandleFrame(f: Frame, writeOk: bool, open: bool)
      modifies this
      ensures Contents() == OnFrame(old(Contents()), f, writeOk, open)
    {
      match f {
        case Response(id, payload, _) =>
          if id in pending {
            outcomes := outcomes[pending[id] := Replied(payload)];
            pending := pending - {id};
          }
        case ErrorReply(id, payload, _) =>
          if id in pending {
            outcomes := outcomes[pending[id] := RepliedError(payload)];
            pending := pending - {id};
          }
        case Notification(recognised, payload) =>
          if recognised {
            var ok := Deliver(Notified(payload), open);
            if !ok { exit := Some(BrokenPipe); }
          }
        case ServerRequest(id, recognised, payload) =>
          if recognised {
            var ok := Deliver(Asked(id, payload), open);
            if !ok { exit := Some(BrokenPipe); }
          } else if writeOk {
            outbound := outbound + [Refusal(id, METHOD_NOT_FOUND)];
          } else {
            var _ := Deliver(Disconnected, open);
            exit := Some(BrokenPipe);
          }
        case InvalidJson =>
          var _ := Deliver(Disconnected, open);
          exit := Some(InvalidData);
        case Closed =>
          var _ := Deliver(Disconnected, open);
          exit := Some(ConnectionAborted);
        case Ignored =>
        case TransportError =>
          var _ := Deliver(Disconnected, open);
          exit := Some(InvalidData);
        case EndOfStream =>
          var _ := Deliver(Disconnected, open);
          exit := Some(UnexpectedEof);
      }
    }

    method DrainPending()
      requires exit.Some?
      modifies this
      ensures Contents() == old(Contents()).(pending := map[],
              outcomes := TellAll(old(outcomes), old(pending).Values, ExitError(old(exit).value)))
    {
      outcomes := Drain(pending, outcomes, ExitError(exit.value));
      pending := map[];
    }
  }

  /** Sends `outcome` to every pending waiter, in whatever order the map yields them. */
  method Drain(pending: map<string, Waiter>, outcomes: map<Waiter, Outcome>, outcome: Outcome)
      returns (r: map<Waiter, Outcome>)
    ensures r == TellAll(outcomes, pending.Values, outcome)
  {
    r := outcomes;
    var rest := pending;
    ghost var told: set<Waiter> := {};
    while rest.Keys != {}
      invariant Draining(pending, outcomes, outcome, rest, told, r)
      decreases |rest.Keys|
    {
      var id :| id in rest.Keys;
      DrainOne(pending, outcomes, outcome, rest, told, r, id);
      told := told + {rest[id]};
      r := r[rest[id] := outcome];
      rest := rest - {id};
    }
    Drained(pending, outcomes, outcome, rest, told, r);
  }

  ghost predicate Draining(pending: map<string, Waiter>, outcomes: map<Waiter, Outcome>, outcome: Outcome,
                           rest: map<string, Waiter>, told: set<Waiter>, r: map<Waiter, Outcome>) {
    told + rest.Values == pending.Values && Told(outcomes, told, outcome, r)
  }

  lemma {:induction false} DrainOne(pending: map<string, Waiter>, outcomes: map<Waiter, Outcome>, outcome: Outcome,
                                    rest: map<string, Waiter>, told: set<Waiter>, r: map<Waiter, Outcome>, id: string)
    requires Draining(pending, outcomes, outcome, rest, told, r) && id in rest
    ensures Draining(pending, outcomes, outcome, rest - {id}, told + {rest[id]}, r[rest[id] := outcome])
    ensures |(rest - {id}).Keys| < |rest.Keys|
  {
    ValuesWithout(rest, id);
    KeysWithout(rest, id);
    ToldOne(outcomes, told, outcome, r, rest[id]);
    Moved(told, rest.Values, (rest - {id}).Values, rest[id]);
  }

  lemma {:induction false} Moved(told: set<Waiter>, values: set<Waiter>, left: set<Waiter>, w: Waiter)
    requires values == left + {w}
    ensures told + {w} + left == told + values
  {
  }

  lemma {:induction false} KeysWithout(m: map<string, Waiter>, id: string)
    requires id in m
    ensures |(m - {id}).Keys| < |m.Keys|
  {
    assert (m - {id}).Keys == m.Keys - {id};
  }

  lemma {:induction false} ToldOne(outcomes: map<Waiter, Outcome>, told: set<Waiter>, outcome: Outcome,
                                   r: map<Waiter, Outcome>, w: Waiter)
    requires Told(outcomes, told, outcome, r)
    ensures Told(outcomes, told + {w}, outcome, r[w := outcome])
  {
  }

  lemma {:induction false} Drained(pending: map<string, Waiter>, outcomes: map<Waiter, Outcome>, outcome: Outcome,
                                   rest: map<string, Waiter>, told: set<Waiter>, r: map<Waiter, Outcome>)
    requires Draining(pending, outcomes, outcome, rest, told, r) && rest.Keys == {}
    ensures r == TellAll(outcomes, pending.Values, outcome)
  {
    assert rest == map[];
    assert told == pending.Values;
  }

  /** `r` is `outcomes` with every waiter in `ws` told `outcome`. */
  ghost predicate Told(outcomes: map<Waiter, Outcome>, ws: set<Waiter>, outcome: Outcome, r: map<Waiter, Outcome>) {
    && r.Keys == outcomes.Keys + ws
    && (forall w :: w in ws ==> r[w] == outcome)
    && (forall w :: w in outcomes && w !in ws ==> r[w] == outcomes[w])
  }

  lemma {:induction false} ValuesWithout(m: map<string, Waiter>, id: string)
    requires id in m
    ensures m.Values == (m - {id}).Values + {m[id]}
  {
    var n := m - {id};
    forall v | v in m.Values ensures v in n.Values + {m[id]} {
      var k :| k in m && m[k] == v;
      assert k != id ==> k in n && n[k] == v;
    }
    forall v | v in n.Values ensures v in m.Values {
      var k :| k in n && n[k] == v;
      assert k in m && m[k] == v;
    }
  }

  // ----- the events and refusals a run of frames calls for

  /** The recognised notifications and server requests, in wire order. */
  function Events(frames: seq<Frame>): (r: seq<Event>) {
    if frames == [] then []
    else Events(frames[..|frames| - 1]) + EventOf(frames[|frames| - 1])
  }

  function EventOf(f: Frame): (r: seq<Event>)
    ensures Disconnected !in r
  {
    if f.Notification? && f.recognised then [Notified(f.payload)]
    else if f.ServerRequest? && f.recognised then [Asked(f.id, f.payload)]
    else []
  }

  /** The ids of server requests that are not recognised, in wire order. */
  function Unknown(frames: seq<Frame>): (r: seq<string>) {
    if frames == [] then []
    else Unknown(frames[..|frames| - 1]) + UnknownOf(frames[|frames| - 1])
  }

  function UnknownOf(f: Frame): (r: seq<string>) {
    if f.ServerRequest? && !f.recognised then [f.id] else []
  }

  /** The ids refused with -32601, in the order of the refusals. */
  function Refused(outbound: seq<Outbound>): (r: seq<string>) {
    if outbound == [] then []
    else
      var o := outbound[|outbound| - 1];
      Refused(outbound[..|outbound| - 1]) + (if o.Refusal? && o.code == METHOD_NOT_FOUND then [o.id] else [])
  }

  lemma {:induction false} FrameSnoc(frames: seq<Frame>, f: Frame)
    ensures Events(frames + [f]) == Events(frames) + EventOf(f)
    ensures Unknown(frames + [f]) == Unknown(frames) + UnknownOf(f)
  {
    assert (frames + [f])[..|frames + [f]| - 1] == frames;
  }

  lemma {:induction false} RefusedSnoc(outbound: seq<Outbound>, o: Outbound)
    ensures o.Refusal? && o.code == METHOD_NOT_FOUND ==> Refused(outbound + [o]) == Refused(outbound) + [o.id]
    ensures !o.Refusal? ==> Refused(outbound + [o]) == Refused(outbound)
  {
    assert (outbound + [o])[..|outbound + [o]| - 1] == outbound;
  }

  // ----- the handshake

  const INITIALIZE_ID := "initialize"

  predicate Accepts(f: Frame) {
    f.Response? && f.id == INITIALIZE_ID
  }

  /** The frame makes the handshake give up. */
  predicate Fails(f: Frame) {
    (f.ErrorReply? && f.id == INITIALIZE_ID) || f.InvalidJson? || f.Closed? || f.TransportError? || f.EndOfStream?
  }

  function FailureKind(f: Frame): ErrorKind {
    match f
    case Closed => ConnectionAborted
    case EndOfStream => UnexpectedEof
    case _ => Other
  }

  datatype Handshake = Connected(events: seq<Event>, read: nat, outbound: seq<Outbound>) | Rejected(kind: ErrorKind)

  /** The error a handshake over `frames` gives up with at this frame, if it does: an
      initialize, a refusal or an initialized that cannot be written, a frame that fails it,
      or the deadline after the last frame. */
  ghost function GivesUpWith(frames: seq<Frame>, writes: nat -> bool, read: nat): Option<ErrorKind>
    requires read <= |frames|
  {
    if !writes(0) then Some(Other)
    else if read == |frames| then Some(TimedOut)
    else if Fails(frames[read]) then Some(FailureKind(frames[read]))
    else if (Accepts(frames[read]) || UnknownOf(frames[read]) != []) &&
        !writes(1 + |Unknown(frames[..read])|) then Some(Other)
    else None
  }

  /** The handshake goes on past this many frames. */
  ghost predicate GoesOn(frames: seq<Frame>, writes: nat -> bool, read: nat)
    requires read <= |frames|
  {
    read == 0 || (
      && GoesOn(frames, writes, read - 1)
      && !Accepts(frames[read - 1]) && !Fails(frames[read - 1])
      && (UnknownOf(frames[read - 1]) != [] ==> writes(1 + |Unknown(frames[..read - 1])|)))
  }

  /** What the handshake holds after `read` frames it went on past. */
  ghost predicate Negotiating(frames: seq<Frame>, writes: nat -> bool, read: nat, events: seq<Event>,
                              outbound: seq<Outbound>) {
    && read <= |frames| && writes(0) && GoesOn(frames, writes, read)
    && events == Events(frames[..read])
    && Refused(outbound) == Unknown(frames[..read]) && |outbound| == 1 + |Unknown(frames[..read])|
    && outbound[0] == Initialize && forall j :: 0 < j < |outbound| ==> outbound[j].Refusal?
  }

  lemma {:induction false} GoesOnPast(frames: seq<Frame>, writes: nat -> bool, read: nat, events: seq<Event>,
                                      outbound: seq<Outbound>)
    requires Negotiating(frames, writes, read, events, outbound) && read < |frames|
    requires !Accepts(frames[read]) && !Fails(frames[read])
    requires UnknownOf(frames[read]) != [] ==> writes(|outbound|)
    ensures UnknownOf(frames[read]) == [] ==>
            Negotiating(frames, writes, read + 1, events + EventOf(frames[read]), outbound)
    ensures UnknownOf(frames[read]) != [] ==>
            Negotiating(frames, writes, read + 1, events, outbound + [Refusal(frames[read].id, METHOD_NOT_FOUND)])
  {
    var f := frames[read];
    assert frames[..read + 1] == frames[..read] + [f];
    FrameSnoc(frames[..read], f);
    if UnknownOf(f) != [] { RefusedSnoc(outbound, Refusal(f.id, METHOD_NOT_FOUND)); }
  }

  /** The handshake over the frames that arrive before its deadline; `writes(n)` is what its
      n-th write comes back with. It connects exactly at the first initialize response, with
      every recognised event before it buffered in wire order, every unknown request before
      it refused once, and `initialized` written last. */
  method InitializeRemoteConnection(frames: seq<Frame>, writes: nat -> bool) returns (h: Handshake)
    ensures h.Connected? ==> ConnectedAt(frames, writes, h)
    ensures h.Rejected? ==> RejectedAt(frames, writes, h.kind)
  {
    var events: seq<Event> := [];
    if !writes(0) {
      GaveUp(frames, writes, 0, Other);
      return Rejected(Other);
    }
    var outbound := [Initialize];
    var i := 0;
    NegotiationStarts(frames, writes);
    while i < |frames|
      invariant Negotiating(frames, writes, i, events, outbound)
    {
      var f := frames[i];
      if Accepts(f) {
        if !writes(|outbound|) {
          GaveUpWriting(frames, writes, i, events, outbound);
          return Rejected(Other);
        }
        ConnectsAt(frames, writes, i, events, outbound);
        return Connected(events, i, outbound + [Initialized]);
      }
      if Fails(f) {
        GaveUpFailing(frames, writes, i, events, outbound);
        return Rejected(FailureKind(f));
      }
      if f.ServerRequest? && !f.recognised {
        if !writes(|outbound|) {
          GaveUpWriting(frames, writes, i, events, outbound);
          return Rejected(Other);
        }
        GoesOnPast(frames, writes, i, events, outbound);
        outbound := outbound + [Refusal(f.id, METHOD_NOT_FOUND)];
      } else {
        GoesOnPast(frames, writes, i, events, outbound);
        events := events + EventOf(f);
      }
      i := i + 1;
    }
    GaveUpWaiting(frames, writes, events, outbound);
    return Rejected(TimedOut);
  }

  /** A handshake that does not connect gave up at some frame it had gone on to, with the
      error that frame, that write or the deadline calls for. */
  ghost predicate RejectedAt(frames: seq<Frame>, writes: nat -> bool, kind: ErrorKind) {
    exists n :: 0 <= n <= |frames| && GoesOn(frames, writes, n) && GivesUpWith(frames, writes, n) == Some(kind)
  }

  lemma {:induction false} GaveUp(frames: seq<Frame>, writes: nat -> bool, n: nat, kind: ErrorKind)
    requires n <= |frames| && GoesOn(frames, writes, n) && GivesUpWith(frames, writes, n) == Some(kind)
    ensures RejectedAt(frames, writes, kind)
  {
  }

  lemma {:induction false} GaveUpWriting(frames: seq<Frame>, writes: nat -> bool, read: nat, events: seq<Event>,
                                         outbound: seq<Outbound>)
    requires Negotiating(frames, writes, read, events, outbound) && read < |frames|
    requires (Accepts(frames[read]) || UnknownOf(frames[read]) != []) && !writes(|outbound|)
    ensures RejectedAt(frames, writes, Other)
  {
    GaveUp(frames, writes, read, Other);
  }

  lemma {:induction false} GaveUpFailing(frames: seq<Frame>, writes: nat -> bool, read: nat, events: seq<Event>,
                                         outbound: seq<Outbound>)
    requires Negotiating(frames, writes, read, events, outbound) && read < |frames| && Fails(frames[read])
    ensures RejectedAt(frames, writes, FailureKind(frames[read]))
  {
    GaveUp(frames, writes, read, FailureKind(frames[read]));
  }

  lemma {:induction false} GaveUpWaiting(frames: seq<Frame>, writes: nat -> bool, events: seq<Event>,
                                         outbound: seq<Outbound>)
    requires Negotiating(frames, writes, |frames|, events, outbound)
    ensures RejectedAt(frames, writes, TimedOut)
  {
    GaveUp(frames, writes, |frames|, TimedOut);
  }

  lemma {:induction false} NegotiationStarts(frames: seq<Frame>, writes: nat -> bool)
    requires writes(0)
    ensures Negotiating(frames, writes, 0, [], [Initialize])
  {
    assert frames[..0] == [];
  }

  lemma {:induction false} ConnectsAt(frames: seq<Frame>, writes: nat -> bool, read: nat, events: seq<Event>,
                                      outbound: seq<Outbound>)
    requires Negotiating(frames, writes, read, events, outbound) && read < |frames| && Accepts(frames[read]) &&
             writes(|outbound|)
    ensures ConnectedAt(frames, writes, Connected(events, read, outbound + [Initialized]))
  {
    RefusedSnoc(outbound, Initialized);
  }

  /** What a handshake that connects has done. */
  ghost predicate ConnectedAt(frames: seq<Frame>, writes: nat -> bool, h: Handshake) {
    && h.Connected?
    && h.read < |frames| && Accepts(frames[h.read]) && GoesOn(frames, writes, h.read)
    && writes(0) && writes(1 + |Unknown(frames[..h.read])|)
    && h.events == Events(frames[..h.read])
    && |h.outbound| >= 2 && h.outbound[0] == Initialize && h.outbound[|h.outbound| - 1] == Initialized
    && Refused(h.outbound) == Unknown(frames[..h.read])
    && (forall i :: 0 < i < |h.outbound| - 1 ==> h.outbound[i].Refusal?)
  }

  lemma {:induction false} WentOnPast(frames: seq<Frame>, writes: nat -> bool, read: nat, i: nat)
    requires i < read <= |frames| && GoesOn(frames, writes, read)
    ensures !Accepts(frames[i]) && !Fails(frames[i]) &&
            (UnknownOf(frames[i]) != [] ==> writes(1 + |Unknown(frames[..i])|))
  {
    if i < read - 1 { WentOnPast(frames, writes, read - 1, i); }
  }

  /** Nothing is read past a frame that gives up, unless not even the first write went out. */
  lemma {:induction false} GaveUpFor(frames: seq<Frame>, writes: nat -> bool, m: nat, n: nat)
    requires m < n <= |frames| && GoesOn(frames, writes, n) && writes(0)
    ensures GivesUpWith(frames, writes, m) == None
  {
    WentOnPast(frames, writes, n, m);
  }

  /** The outcomes exclude each other, so the handshake connects exactly when it can, and
      otherwise there is one error it can give up with. */
  lemma {:induction false} ConnectsOrGivesUp(frames: seq<Frame>, writes: nat -> bool, h: Handshake, kind: ErrorKind)
    requires ConnectedAt(frames, writes, h)
    ensures !RejectedAt(frames, writes, kind)
  {
    forall n: nat | n <= |frames| && GoesOn(frames, writes, n) ensures GivesUpWith(frames, writes, n) == None {
      if n < h.read {
        GaveUpFor(frames, writes, n, h.read);
      } else if h.read < n {
        WentOnPast(frames, writes, n, h.read);
      }
    }
  }

  lemma {:induction false} OneErrorToGiveUpWith(frames: seq<Frame>, writes: nat -> bool, a: ErrorKind, b: ErrorKind)
    requires RejectedAt(frames, writes, a) && RejectedAt(frames, writes, b)
    ensures a == b
  {
    var m: nat :| m <= |frames| && GoesOn(frames, writes, m) && GivesUpWith(frames, writes, m) == Some(a);
    var n: nat :| n <= |frames| && GoesOn(frames, writes, n) && GivesUpWith(frames, writes, n) == Some(b);
    if writes(0) && m < n { GaveUpFor(frames, writes, m, n); }
    if writes(0) && n < m { GaveUpFor(frames, writes, n, m); }
  }
}
