/** Replies find the waiters that asked, and the wire's order is the consumer's order. */
module RemoteCorrelation {
  import opened RemoteWorker
  import opened RemoteClient

  // ----- correlation

  datatype Written = Written(id: string, waiter: Waiter)

  /** The requests written to the wire, in order. */
  function Calls(outbound: seq<Outbound>): (r: seq<Written>) {
    if outbound == [] then []
    else
      var o := outbound[|outbound| - 1];
      Calls(outbound[..|outbound| - 1]) + (if o.Call? then [Written(o.id, o.waiter)] else [])
  }

  lemma {:induction false} CallsSnoc(outbound: seq<Outbound>, o: Outbound)
    ensures o.Call? ==> Calls(outbound + [o]) == Calls(outbound) + [Written(o.id, o.waiter)]
    ensures !o.Call? ==> Calls(outbound + [o]) == Calls(outbound)
  {
    assert (outbound + [o])[..|outbound + [o]| - 1] == outbound;
  }

  predicate IsReply(f: Frame) {
    f.Response? || f.ErrorReply?
  }

  /** The server answers a request it has received, under that request's id, and answers
      none twice. */
  ghost predicate HonestStep(s: State, a: Action, answered: set<nat>) {
    a.Read? && IsReply(a.frame) ==>
      var calls := Calls(s.worker.outbound);
      a.frame.origin < |calls| && calls[a.frame.origin].id == a.frame.id && a.frame.origin !in answered
  }

  function Answered(answered: set<nat>, a: Action): set<nat> {
    if a.Read? && IsReply(a.frame) then answered + {a.frame.origin} else answered
  }

  function AnsweredBy(answered: set<nat>, run: seq<Action>): set<nat>
    decreases |run|
  {
    if run == [] then answered else AnsweredBy(Answered(answered, run[0]), run[1..])
  }

  ghost predicate HonestRun(s: State, run: seq<Action>, answered: set<nat>)
    requires Runs(s, run)
    decreases |run|
  {
    run == [] || (HonestStep(s, run[0], answered) && HonestRun(Apply(s, run[0]), run[1..], Answered(answered, run[0])))
  }

  /** The written requests not yet answered are exactly the pending ones, each under its own
      id; and each written request has its own waiter, already out of the queue. */
  ghost predicate Matched(calls: seq<Written>, pending: map<string, Waiter>, outcomes: map<Waiter, Outcome>,
                          answered: set<nat>) {
    && (forall k :: 0 <= k < |calls| ==>
       (k !in answered <==> calls[k].id in pending && pending[calls[k].id] == calls[k].waiter))
    && (forall k :: k in answered ==> k < |calls|)
    && (forall j, k :: 0 <= j < k < |calls| ==> calls[j].waiter != calls[k].waiter)
    && (forall k :: 0 <= k < |calls| ==> calls[k].waiter in pending.Values || calls[k].waiter in outcomes)
  }

  ghost predicate Correlated(s: State, answered: set<nat>) {
    s.running ==> Matched(Calls(s.worker.outbound), s.worker.pending, s.worker.outcomes, answered)
  }

  lemma {:induction false} MatchedWrite(calls: seq<Written>, pending: map<string, Waiter>,
                                        outcomes: map<Waiter, Outcome>, answered: set<nat>, id: string, w: Waiter)
    requires Matched(calls, pending, outcomes, answered)
    requires id !in pending && w !in pending.Values && w !in outcomes
    ensures Matched(calls + [Written(id, w)], pending[id := w], outcomes, answered)
  {
    var all, p := calls + [Written(id, w)], pending[id := w];
    assert p[id] == w;
    forall k | 0 <= k < |calls| ensures all[k].waiter in p.Values || all[k].waiter in outcomes {
      if calls[k].waiter in pending.Values {
        var a :| a in pending && pending[a] == calls[k].waiter;
        assert p[a] == calls[k].waiter;
      }
    }
  }

  /** A reply to an unanswered request finds that request's waiter pending, and settles it. */
  lemma {:induction false} MatchedReply(calls: seq<Written>, pending: map<string, Waiter>,
                                        outcomes: map<Waiter, Outcome>, answered: set<nat>, k: nat, outcome: Outcome)
    requires Matched(calls, pending, outcomes, answered) && Injective(pending)
    requires k < |calls| && k !in answered
    ensures calls[k].id in pending && pending[calls[k].id] == calls[k].waiter
    ensures Matched(calls, pending - {calls[k].id}, outcomes[calls[k].waiter := outcome], answered + {k})
  {
    var id := calls[k].id;
    var p := pending - {id};
    forall j | 0 <= j < |calls|
      ensures calls[j].waiter in p.Values || calls[j].waiter in outcomes[calls[k].waiter := outcome]
    {
      if calls[j].waiter in pending.Values {
        var a :| a in pending && pending[a] == calls[j].waiter;
        if a != id { assert p[a] == calls[j].waiter; }
      }
    }
  }

  lemma {:induction false} MatchedTold(calls: seq<Written>, pending: map<string, Waiter>,
                                       outcomes: map<Waiter, Outcome>, answered: set<nat>, w: Waiter, outcome: Outcome)
    requires Matched(calls, pending, outcomes, answered)
    ensures Matched(calls, pending, outcomes[w := outcome], answered)
  {
  }

  lemma {:induction false} CommandCorrelated(s: State, writeOk: bool, answered: set<nat>)
    requires OneOutcome(s) && Correlated(s, answered) && Enabled(s, TakeCommand(writeOk))
    ensures Correlated(Apply(s, TakeCommand(writeOk)), answered)
  {
    var c, w := s.commands[0], s.worker;
    var v := OnCommand(w, c, writeOk, s.open);
    QueueTail(s.commands);
    match c
    case Request(waiter, id) =>
      if id in w.pending {
        MatchedTold(Calls(w.outbound), w.pending, w.outcomes, answered, waiter, DuplicateId);
      } else if writeOk {
        CallsSnoc(w.outbound, Call(id, waiter));
        MatchedWrite(Calls(w.outbound), w.pending, w.outcomes, answered, id, waiter);
      }
    case Notify => CallsSnoc(w.outbound, ClientNotification);
    case ResolveServerRequest(id) => CallsSnoc(w.outbound, Answer(id));
    case RejectServerRequest(id) => CallsSnoc(w.outbound, Answer(id));
    case Shutdown =>
  }

  lemma {:induction false} ReplyCorrelated(s: State, f: Frame, writeOk: bool, answered: set<nat>)
    requires OneOutcome(s) && Correlated(s, answered) && Enabled(s, Read(f, writeOk)) && IsReply(f) &&
             HonestStep(s, Read(f, writeOk), answered)
    ensures Correlated(Apply(s, Read(f, writeOk)), answered + {f.origin})
    ensures var w := Calls(s.worker.outbound)[f.origin].waiter;
            && f.id in s.worker.pending && s.worker.pending[f.id] == w && w !in s.worker.outcomes
            && w in Apply(s, Read(f, writeOk)).worker.outcomes
            && Apply(s, Read(f, writeOk)).worker.outcomes[w] == if f.Response? then Replied(f.payload)
               else RepliedError(f.payload)
  {
    var outcome := if f.Response? then Replied(f.payload) else RepliedError(f.payload);
    MatchedReply(Calls(s.worker.outbound), s.worker.pending, s.worker.outcomes, answered, f.origin, outcome);
    assert s.worker.pending[f.id] in s.worker.pending.Values;
  }

  lemma {:induction false} OtherFrameCorrelated(s: State, f: Frame, writeOk: bool, answered: set<nat>)
    requires OneOutcome(s) && Correlated(s, answered) && Enabled(s, Read(f, writeOk)) && !IsReply(f)
    ensures Correlated(Apply(s, Read(f, writeOk)), answered)
  {
    if f.ServerRequest? { CallsSnoc(s.worker.outbound, Refusal(f.id, METHOD_NOT_FOUND)); }
  }

  lemma {:induction false} StepCorrelated(s: State, a: Action, answered: set<nat>)
    requires OneOutcome(s) && Correlated(s, answered) && Enabled(s, a) && HonestStep(s, a, answered)
    ensures Correlated(Apply(s, a), Answered(answered, a))
  {
    match a
    case TakeCommand(writeOk) => CommandCorrelated(s, writeOk, answered);
    case Read(f, writeOk) =>
      if IsReply(f) {
        ReplyCorrelated(s, f, writeOk, answered);
      } else {
        OtherFrameCorrelated(s, f, writeOk, answered);
      }
    case _ =>
  }

  lemma {:induction false} RunCorrelated(s: State, run: seq<Action>, answered: set<nat>)
    requires OneOutcome(s) && Correlated(s, answered) && Runs(s, run) && HonestRun(s, run, answered)
    ensures OneOutcome(Final(s, run)) && Correlated(Final(s, run), AnsweredBy(answered, run))
    decreases |run|
  {
    if run != [] {
      StepKeeps(s, run[0]);
      StepCorrelated(s, run[0], answered);
      RunCorrelated(Apply(s, run[0]), run[1..], Answered(answered, run[0]));
    }
  }

  lemma {:induction false} HandshakeNoCalls(outbound: seq<Outbound>)
    requires forall i :: 0 <= i < |outbound| ==> !outbound[i].Call?
    ensures Calls(outbound) == []
  {
    if outbound != [] { HandshakeNoCalls(outbound[..|outbound| - 1]); }
  }

  /** With a server that answers each request it received at most once, every reply reaches
      the waiter that sent the request it answers, whatever duplicates were refused and
      however often the id was used before. */
  lemma {:induction false} RepliesReachTheirWaiters(s0: State, frames: seq<Frame>, writes: nat -> bool, h: Handshake,
                                                    run: seq<Action>, f: Frame, writeOk: bool)
    requires Init(s0, frames, writes, h) && Runs(s0, run) && HonestRun(s0, run, {})
    requires var s := Final(s0, run);
             Enabled(s, Read(f, writeOk)) && IsReply(f) && HonestStep(s, Read(f, writeOk), AnsweredBy({}, run))
    ensures var s := Final(s0, run);
            var w := Calls(s.worker.outbound)[f.origin].waiter;
            && w !in s.worker.outcomes
            && w in Apply(s, Read(f, writeOk)).worker.outcomes
            && Apply(s, Read(f, writeOk)).worker.outcomes[w] == if f.Response? then Replied(f.payload)
               else RepliedError(f.payload)
  {
    InitOneOutcome(s0, frames, writes, h);
    HandshakeNoCalls(s0.worker.outbound);
    RunCorrelated(s0, run, {});
    ReplyCorrelated(Final(s0, run), f, writeOk, AnsweredBy({}, run));
  }

  // ----- wire order

  /** `all` is what was buffered or delivered: the events of the frames read, in wire order,
      and once the worker is gone at most a `Disconnected` after them, or, if the consumer
      had left, all but the last of them. */
  ghost predicate InWireOrder(all: seq<Event>, read: seq<Frame>, running: bool, open: bool) {
    || all == Events(read)
    || (!running && all == Events(read) + [Disconnected])
    || (!running && !open && |Events(read)| == |all| + 1 && all <= Events(read))
  }

  ghost predicate RefusedInOrder(outbound: seq<Outbound>, read: seq<Frame>, running: bool) {
    || Refused(outbound) == Unknown(read)
    || (!running && |Unknown(read)| == |Refused(outbound)| + 1 && Refused(outbound) <= Unknown(read))
  }

  /** `initialized` went out before any client request. */
  ghost predicate InitializedFirst(outbound: seq<Outbound>) {
    Initialized in outbound && forall i :: 0 <= i < |outbound| && outbound[i].Call? ==> Initialized in outbound[..i]
  }

  ghost predicate WireOk(s: State, early: seq<Event>) {
    && s.consumed + s.buffered + s.channel == early + s.worker.delivered
    && InWireOrder(early + s.worker.delivered, s.read, s.running, s.open)
    && (s.running ==> early + s.worker.delivered == Events(s.read))
    && RefusedInOrder(s.worker.outbound, s.read, s.running)
    && (s.running ==> Refused(s.worker.outbound) == Unknown(s.read))
    && InitializedFirst(s.worker.outbound)
  }

  lemma {:induction false} InitializedStays(outbound: seq<Outbound>, o: Outbound)
    requires InitializedFirst(outbound)
    ensures InitializedFirst(outbound + [o])
  {
    var all := outbound + [o];
    forall i | 0 <= i < |all| && all[i].Call? ensures Initialized in all[..i] {
      if i < |outbound| { assert all[..i] == outbound[..i]; } else { assert all[..i] == outbound; }
    }
  }

  /** What a worker step does to events and frames written, relative to the frame it read. */
  ghost predicate StepInOrder(w: Worker, v: Worker, event: seq<Event>, unknown: seq<string>, open: bool) {
    && w.delivered <= v.delivered
    && (v.exit.None? ==> v.delivered == w.delivered + event && Refused(v.outbound) == Refused(w.outbound) + unknown)
    && (v.delivered == w.delivered + event || (v.exit.Some? && v.delivered == w.delivered + event + [Disconnected])
        || (v.exit.Some? && !open && |event| == 1 && v.delivered == w.delivered))
    && (Refused(v.outbound) == Refused(w.outbound) + unknown ||
       (v.exit.Some? && |unknown| == 1 && Refused(v.outbound) == Refused(w.outbound)))
    && (InitializedFirst(w.outbound) ==> InitializedFirst(v.outbound))
  }

  lemma {:induction false} RefusalInOrder(w: Worker, id: string, writeOk: bool, open: bool)
    requires w.exit.None?
    ensures StepInOrder(w, OnFrame(w, ServerRequest(id, false, 0), writeOk, open), [], [id], open)
  {
    var o := Refusal(id, METHOD_NOT_FOUND);
    RefusedSnoc(w.outbound, o);
    if InitializedFirst(w.outbound) { InitializedStays(w.outbound, o); }
    assert w.delivered + [] == w.delivered;
  }

  lemma {:induction false} FrameInOrder(w: Worker, f: Frame, writeOk: bool, open: bool)
    requires w.exit.None?
    ensures StepInOrder(w, OnFrame(w, f, writeOk, open), EventOf(f), UnknownOf(f), open)
  {
    if f.ServerRequest? && !f.recognised {
      RefusalInOrder(w, f.id, writeOk, open);
    } else {
      assert Refused(w.outbound) + [] == Refused(w.outbound);
      assert w.delivered + [] == w.delivered;
    }
  }

  lemma {:induction false} CommandInOrder(w: Worker, c: Command, writeOk: bool, open: bool)
    requires w.exit.None?
    ensures StepInOrder(w, OnCommand(w, c, writeOk, open), [], [], open)
  {
    assert Refused(w.outbound) + [] == Refused(w.outbound) && w.delivered + [] == w.delivered;
    var o := match c
      case Request(waiter, id) => Call(id, waiter)
      case Notify => ClientNotification
      case ResolveServerRequest(id) => Answer(id)
      case RejectServerRequest(id) => Answer(id)
      case Shutdown => ClientNotification;
    RefusedSnoc(w.outbound, o);
    if InitializedFirst(w.outbound) { InitializedStays(w.outbound, o); }
  }

  lemma {:induction false} StreamGrows(stream: seq<Event>, channel: seq<Event>, early: seq<Event>, before: seq<Event>,
                                       after: seq<Event>)
    requires before <= after && stream + channel == early + before
    ensures stream + (channel + after[|before|..]) == early + after
  {
    var more := after[|before|..];
    assert after == before + more;
    assert stream + (channel + more) == (stream + channel) + more;
    assert early + (before + more) == (early + before) + more;
  }

  lemma {:induction false} EventsGrow(early: seq<Event>, w: Worker, v: Worker, event: seq<Event>, unknown: seq<string>,
                                      open: bool, read: seq<Frame>, now: seq<Frame>)
    requires StepInOrder(w, v, event, unknown, open) && early + w.delivered == Events(read) &&
             Events(now) == Events(read) + event
    ensures InWireOrder(early + v.delivered, now, v.exit.None?, open)
    ensures v.exit.None? ==> early + v.delivered == Events(now)
  {
    assert early + (w.delivered + event) == (early + w.delivered) + event;
    assert early + (w.delivered + event + [Disconnected]) == (early + w.delivered) + event + [Disconnected];
  }

  lemma {:induction false} RefusalsGrow(w: Worker, v: Worker, event: seq<Event>, unknown: seq<string>, open: bool,
                                        read: seq<Frame>, now: seq<Frame>)
    requires StepInOrder(w, v, event, unknown, open) && Refused(w.outbound) == Unknown(read) &&
             Unknown(now) == Unknown(read) + unknown
    ensures RefusedInOrder(v.outbound, now, v.exit.None?)
    ensures v.exit.None? ==> Refused(v.outbound) == Unknown(now)
  {
  }

  lemma {:induction false} AfterInOrder(s: State, v: Worker, early: seq<Event>, read: seq<Frame>, event: seq<Event>,
                                        unknown: seq<string>)
    requires WireOk(s, early) && s.running && StepInOrder(s.worker, v, event, unknown, s.open)
    requires Events(read) == Events(s.read) + event && Unknown(read) == Unknown(s.read) + unknown
    ensures WireOk(After(s.(read := read), v), early)
  {
    StreamGrows(s.consumed + s.buffered, s.channel, early, s.worker.delivered, v.delivered);
    EventsGrow(early, s.worker, v, event, unknown, s.open, s.read, read);
    RefusalsGrow(s.worker, v, event, unknown, s.open, s.read, read);
    var t := After(s.(read := read), v);
    AfterParts(s.(read := read), v);
  }

  lemma {:induction false} AfterParts(s: State, v: Worker)
    requires |s.worker.delivered| <= |v.delivered| && s.running
    ensures var t := After(s, v);
            && t.consumed == s.consumed && t.buffered == s.buffered &&
               t.channel == s.channel + v.delivered[|s.worker.delivered|..]
            && t.worker.delivered == v.delivered && t.worker.outbound == v.outbound && t.read == s.read &&
               t.open == s.open
            && t.running == v.exit.None?
  {
  }

  lemma {:induction false} ConsumeInOrder(s: State, early: seq<Event>)
    requires WireOk(s, early) && Enabled(s, Consume)
    ensures WireOk(Apply(s, Consume), early)
  {
    var t := Apply(s, Consume);
    assert t.consumed + t.buffered + t.channel == s.consumed + s.buffered + s.channel;
  }

  /** Running workers have not set their exit. */
  ghost predicate ExitOk(s: State) {
    s.running ==> s.worker.exit.None?
  }

  lemma {:induction false} ReadInOrder(s: State, f: Frame, writeOk: bool, early: seq<Event>)
    requires WireOk(s, early) && ExitOk(s) && Enabled(s, Read(f, writeOk))
    ensures WireOk(Apply(s, Read(f, writeOk)), early)
  {
    FrameSnoc(s.read, f);
    FrameInOrder(s.worker, f, writeOk, s.open);
    AfterInOrder(s, OnFrame(s.worker, f, writeOk, s.open), early, s.read + [f], EventOf(f), UnknownOf(f));
  }

  lemma {:induction false} TakeCommandInOrder(s: State, writeOk: bool, early: seq<Event>)
    requires WireOk(s, early) && ExitOk(s) && Enabled(s, TakeCommand(writeOk))
    ensures WireOk(Apply(s, TakeCommand(writeOk)), early)
  {
    var t := s.(commands := s.commands[1..]);
    CommandInOrder(s.worker, s.commands[0], writeOk, s.open);
    assert Events(s.read) + [] == Events(s.read) && Unknown(s.read) + [] == Unknown(s.read);
    AfterInOrder(t, OnCommand(s.worker, s.commands[0], writeOk, s.open), early, s.read, [], []);
  }

  lemma {:induction false} SendersGoneInOrder(s: State, early: seq<Event>)
    requires WireOk(s, early) && ExitOk(s) && Enabled(s, SendersGone)
    ensures WireOk(Apply(s, SendersGone), early)
  {
    CommandInOrder(s.worker, Shutdown, true, s.open);
    assert Events(s.read) + [] == Events(s.read) && Unknown(s.read) + [] == Unknown(s.read);
    AfterInOrder(s, Leave(s.worker, BrokenPipe), early, s.read, [], []);
  }

  lemma {:induction false} StepInWireOrder(s: State, a: Action, early: seq<Event>)
    requires WireOk(s, early) && ExitOk(s) && Enabled(s, a)
    ensures WireOk(Apply(s, a), early) && ExitOk(Apply(s, a))
  {
    match a
    case Read(f, writeOk) => ReadInOrder(s, f, writeOk, early);
    case TakeCommand(writeOk) => TakeCommandInOrder(s, writeOk, early);
    case SendersGone => SendersGoneInOrder(s, early);
    case Consume => ConsumeInOrder(s, early);
    case AbortInRefusal(f) => FrameSnoc(s.read, f); assert Events(s.read) + [] == Events(s.read);
    case _ =>
  }

  lemma {:induction false} RunInWireOrder(s: State, run: seq<Action>, early: seq<Event>)
    requires WireOk(s, early) && ExitOk(s) && Runs(s, run)
    ensures WireOk(Final(s, run), early)
    decreases |run|
  {
    if run != [] {
      StepInWireOrder(s, run[0], early);
      RunInWireOrder(Apply(s, run[0]), run[1..], early);
    }
  }

  lemma {:induction false} InitInWireOrder(s: State, frames: seq<Frame>, writes: nat -> bool, h: Handshake)
    requires Init(s, frames, writes, h)
    ensures WireOk(s, h.events)
  {
    assert frames[..h.read + 1] == frames[..h.read] + [frames[h.read]];
    FrameSnoc(frames[..h.read], frames[h.read]);
    var n := |h.outbound| - 1;
    assert h.outbound[n] == Initialized;
    assert h.events + [] == h.events;
  }

  lemma {:induction false} NoDisconnectedInEvents(read: seq<Frame>)
    ensures Disconnected !in Events(read)
  {
    if read != [] { NoDisconnectedInEvents(read[..|read| - 1]); }
  }

  /** The consumer reads the recognised notifications and server requests in wire order,
      across the handshake and after it, then at most one `Disconnected`, always last. Every
      unknown request read is refused once, with -32601, except the last if the worker went
      with it; and `initialized` precedes every client request. */
  lemma {:induction false} WireOrderSurvives(s0: State, frames: seq<Frame>, writes: nat -> bool, h: Handshake,
                                             run: seq<Action>)
    requires Init(s0, frames, writes, h) && Runs(s0, run)
    ensures var s := Final(s0, run);
            && (s.consumed <= Events(s.read) || s.consumed == Events(s.read) + [Disconnected])
            && Disconnected !in Events(s.read)
            && RefusedInOrder(s.worker.outbound, s.read, s.running)
            && InitializedFirst(s.worker.outbound)
  {
    InitInWireOrder(s0, frames, writes, h);
    RunInWireOrder(s0, run, h.events);
    var s := Final(s0, run);
    NoDisconnectedInEvents(s.read);
    ConsumedPrefix(s, h.events);
  }

  lemma {:induction false} ConsumedPrefix(s: State, early: seq<Event>)
    requires WireOk(s, early)
    ensures s.consumed <= Events(s.read) || s.consumed == Events(s.read) + [Disconnected]
  {
    var all := early + s.worker.delivered;
    assert s.consumed <= all by { assert all == s.consumed + (s.buffered + s.channel); }
    if all == Events(s.read) + [Disconnected] && |s.consumed| < |all| {
      assert s.consumed == all[..|s.consumed|] == Events(s.read)[..|s.consumed|];
    }
  }

  ghost predicate AllRefused(s: State) {
    Refused(s.worker.outbound) == Unknown(s.read)
  }

  lemma {:induction false} ReadRefuses(s: State, f: Frame)
    requires AllRefused(s) && Enabled(s, Read(f, true))
    ensures AllRefused(Apply(s, Read(f, true)))
  {
    FrameSnoc(s.read, f);
    if UnknownOf(f) != [] { RefusedSnoc(s.worker.outbound, Refusal(f.id, METHOD_NOT_FOUND)); }
    AfterParts(s.(read := s.read + [f]), OnFrame(s.worker, f, true, s.open));
    assert Unknown(s.read) + [] == Unknown(s.read);
  }

  lemma {:induction false} TakeCommandRefuses(s: State, writeOk: bool)
    requires AllRefused(s) && ExitOk(s) && Enabled(s, TakeCommand(writeOk))
    ensures AllRefused(Apply(s, TakeCommand(writeOk)))
  {
    CommandInOrder(s.worker, s.commands[0], writeOk, s.open);
    AfterParts(s.(commands := s.commands[1..]), OnCommand(s.worker, s.commands[0], writeOk, s.open));
    assert Refused(s.worker.outbound) + [] == Refused(s.worker.outbound);
  }

  lemma {:induction false} StepRefuses(s: State, a: Action)
    requires AllRefused(s) && ExitOk(s) && Enabled(s, a) && (a.Read? ==> a.writeOk) && !a.AbortInRefusal?
    ensures AllRefused(Apply(s, a))
  {
    match a
    case Read(f, _) => ReadRefuses(s, f);
    case TakeCommand(writeOk) => TakeCommandRefuses(s, writeOk);
    case SendersGone => AfterParts(s, Leave(s.worker, BrokenPipe));
    case _ =>
  }

  ghost predicate RefusalsGetThrough(run: seq<Action>) {
    forall i :: 0 <= i < |run| ==> (run[i].Read? ==> run[i].writeOk) && !run[i].AbortInRefusal?
  }

  lemma {:induction false} RunRefuses(s: State, run: seq<Action>, early: seq<Event>)
    requires AllRefused(s) && WireOk(s, early) && ExitOk(s) && Runs(s, run) && RefusalsGetThrough(run)
    ensures AllRefused(Final(s, run))
    decreases |run|
  {
    if run != [] {
      StepRefuses(s, run[0]);
      StepInWireOrder(s, run[0], early);
      RunRefuses(Apply(s, run[0]), run[1..], early);
    }
  }

  /** Unless the write of a refusal fails or is cut off by an abort, every unknown request read
      is refused with -32601, once each and in order, whatever else ends the worker. */
  lemma {:induction false} EveryUnknownRequestRefused(s0: State, frames: seq<Frame>, writes: nat -> bool, h: Handshake,
                                                      run: seq<Action>)
    requires Init(s0, frames, writes, h) && Runs(s0, run) && RefusalsGetThrough(run)
    ensures Refused(Final(s0, run).worker.outbound) == Unknown(Final(s0, run).read)
  {
    InitInWireOrder(s0, frames, writes, h);
    RunRefuses(s0, run, h.events);
  }
}
