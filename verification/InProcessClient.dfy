/** The in-process client as interleaved steps: a runtime that produces events, the worker
    that forwards them, the bounded channel, and the consumer on its other end. */
module InProcessClient {
  import opened InProcessEvents
  import opened EventAccounts

  /** Client commands. All but `Shutdown` are answered at once, or on a task of their own,
      and leave the event side alone. */
  datatype Command = Call | Shutdown

  /** Where the worker is: at its select, inside one of the forwarder's four sends, or out
      of its loop. */
  datatype Pc =
    | AtSelect
    | FlushingBlocked(event: Event)
    | TryFlushing(event: Event)
    | SendingBlocked(event: Event)
    | TrySending(event: Event)
    | Exited

  datatype State = State(
    capacity: nat,
    upcoming: seq<Event>,    // what the runtime will still produce before its stream ends
    commands: seq<Command>,
    senders: bool,           // some command sender is alive
    open: bool,              // the consumer holds its receiver
    queue: seq<Event>,
    received: seq<Event>,
    pc: Pc,
    books: Books,
    source: seq<Event>)      // what the worker has taken from the runtime

  function Capacity(s: State): (r: nat)
    ensures r >= 1
  {
    if s.capacity < 1 then 1 else s.capacity
  }

  predicate Init(s: State) {
    && s.open && s.senders && s.commands == [] && s.queue == [] && s.received == [] && s.source == []
    && s.pc == AtSelect && s.books == Books(0, true, [], [], [], [])
  }

  datatype Action = TakeCommand | TakeEvent | Attempt | Receive | DropReceiver | Submit(command: Command) | DropSenders

  predicate IsWorker(a: Action) {
    a.TakeCommand? || a.TakeEvent? || a.Attempt?
  }

  predicate InSend(pc: Pc) {
    pc.FlushingBlocked? || pc.TryFlushing? || pc.SendingBlocked? || pc.TrySending?
  }

  /** What the channel answers to a send made now. */
  function SendNow(s: State): SendResult {
    if !s.open then Closed else if |s.queue| < Capacity(s) then Sent else Full
  }

  predicate Enabled(s: State, a: Action) {
    match a
    case TakeCommand => s.pc == AtSelect && (s.commands != [] || !s.senders)
    case TakeEvent => s.pc == AtSelect && s.books.enabled
    case Attempt => InSend(s.pc) && (s.pc.FlushingBlocked? || s.pc.SendingBlocked? ==> SendNow(s) != Full)
    case Receive => s.open && s.queue != []
    case DropReceiver => s.open
    case Submit(c) => s.senders && s.pc != Exited && |s.commands| < Capacity(s)
    case DropSenders => s.senders
  }

  function EnterForward(skipped: nat, e: Event): (pc: Pc) {
    if skipped > 0 then (if RequiresDelivery(e) then FlushingBlocked(e) else TryFlushing(e))
    else (if RequiresDelivery(e) then SendingBlocked(e) else TrySending(e))
  }

  function AfterTakeCommand(s: State): State
    requires Enabled(s, TakeCommand)
  {
    if s.commands == [] || s.commands[0] == Shutdown
    then s.(pc := Exited, commands := if s.commands == [] then [] else s.commands[1..])
    else s.(commands := s.commands[1..])
  }

  function AfterTakeEvent(s: State): State
    requires Enabled(s, TakeEvent)
  {
    if s.upcoming == [] then s.(pc := Exited)
    else
      var e := s.upcoming[0];
      var t := s.(upcoming := s.upcoming[1..], source := s.source + [e]);
      if IsTokenRefresh(e)
      then t.(books := s.books.(failed := s.books.failed + [Failure(e.request, TOKEN_REFRESH_UNSUPPORTED)]))
      else t.(pc := EnterForward(s.books.skipped, e))
  }

  function AfterAttempt(s: State): State
    requires Enabled(s, Attempt)
  {
    var e := s.pc.event;
    var b := s.books;
    match SendNow(s)
    case Closed => s.(pc := AtSelect, books := Disabled(b, e))
    case Full => s.(pc := AtSelect, books := Dropped(b, e))
    case Sent =>
      if s.pc.FlushingBlocked? || s.pc.TryFlushing?
      then s.(pc := if s.pc.FlushingBlocked? then SendingBlocked(e) else TrySending(e),
              queue := s.queue + [Lagged(b.skipped)], books := Flushed(b))
      else s.(pc := AtSelect, queue := s.queue + [e], books := Queued(b, e))
  }

  function Apply(s: State, a: Action): State
    requires Enabled(s, a)
  {
    match a
    case TakeCommand => AfterTakeCommand(s)
    case TakeEvent => AfterTakeEvent(s)
    case Attempt => AfterAttempt(s)
    case Receive => s.(queue := s.queue[1..], received := s.received + [s.queue[0]])
    case DropReceiver => s.(open := false)
    case Submit(c) => s.(commands := s.commands + [c])
    case DropSenders => s.(senders := false)
  }

  ghost predicate Runs(s: State, run: seq<Action>)
    decreases |run|
  {
    run == [] || (Enabled(s, run[0]) && Runs(Apply(s, run[0]), run[1..]))
  }

  ghost function Final(s: State, run: seq<Action>): State
    requires Runs(s, run)
    decreases |run|
  {
    if run == [] then s else Final(Apply(s, run[0]), run[1..])
  }

  /** The worker's two sends, with anything between them that leaves its books alone, do
      what one call of the forwarder does. */
  lemma {:induction false} AttemptsAreOneForward(s: State, t: State)
    requires s.pc == EnterForward(s.books.skipped, if InSend(s.pc) then s.pc.event else Lagged(0)) &&
             Enabled(s, Attempt)
    requires var u := Apply(s, Attempt); InSend(u.pc) ==> t.books == u.books && t.pc == u.pc && Enabled(t, Attempt)
    ensures var u := Apply(s, Attempt);
            if InSend(u.pc)
            then Apply(t, Attempt).pc == AtSelect && Apply(t, Attempt).books ==
                Forwarded(s.books, s.pc.event, Sent, SendNow(t))
            else u.pc == AtSelect && u.books == Forwarded(s.books, s.pc.event, SendNow(s), SendNow(s))
  {
  }

  // ----- the invariant

  /** The event the worker holds but has neither queued nor dropped. */
  function InHand(pc: Pc): seq<Event> {
    if InSend(pc) then [pc.event] else []
  }

  ghost predicate QueueOk(capacity: nat, received: seq<Event>, queue: seq<Event>, log: seq<Entry>) {
    received + queue == Wire(log) && |queue| <= capacity
  }

  ghost predicate ControlOk(b: Books, pc: Pc, open: bool) {
    && (b.enabled ==> b.lost == [])
    && (!b.enabled ==> !open && !InSend(pc))
    && |b.lost| <= 1
    && (InSend(pc) ==> !IsTokenRefresh(pc.event))
    && (pc.FlushingBlocked? || pc.SendingBlocked? ==> RequiresDelivery(pc.event))
    && (pc.TryFlushing? || pc.TrySending? ==> !RequiresDelivery(pc.event))
    && (pc.FlushingBlocked? || pc.TryFlushing? <==> InSend(pc) && b.skipped > 0)
  }

  ghost predicate Inv(s: State) {
    && QueueOk(Capacity(s), s.received, s.queue, s.books.log)
    && StreamOk(s.books, InHand(s.pc), s.source)
    && FailedOk(s.books, s.source)
    && ControlOk(s.books, s.pc, s.open)
  }

  lemma {:induction false} InitInv(s: State)
    requires Init(s)
    ensures Inv(s)
  {
  }

  lemma {:induction false} TakeTokenRefreshKeeps(s: State)
    requires Inv(s) && Enabled(s, TakeEvent) && s.upcoming != [] && IsTokenRefresh(s.upcoming[0])
    ensures Inv(Apply(s, TakeEvent))
  {
    StreamTake(s.books, s.source, s.upcoming[0]);
    FailedTake(s.books, s.source, s.upcoming[0]);
  }

  lemma {:induction false} TakeForwardedKeeps(s: State)
    requires Inv(s) && Enabled(s, TakeEvent) && s.upcoming != [] && !IsTokenRefresh(s.upcoming[0])
    ensures Inv(Apply(s, TakeEvent))
  {
    var e, t := s.upcoming[0], Apply(s, TakeEvent);
    assert t.books == s.books && t.source == s.source + [e] && t.pc == EnterForward(s.books.skipped, e);
    assert InHand(t.pc) == [e];
    StreamTake(s.books, s.source, e);
    FailedTake(s.books, s.source, e);
  }

  lemma {:induction false} TakeEventKeeps(s: State)
    requires Inv(s) && Enabled(s, TakeEvent)
    ensures Inv(Apply(s, TakeEvent))
  {
    if s.upcoming != [] {
      if IsTokenRefresh(s.upcoming[0]) { TakeTokenRefreshKeeps(s); } else { TakeForwardedKeeps(s); }
    }
  }

  lemma {:induction false} FlushKeeps(s: State)
    requires Inv(s) && Enabled(s, Attempt) && SendNow(s) == Sent && (s.pc.FlushingBlocked? || s.pc.TryFlushing?)
    ensures Inv(Apply(s, Attempt))
  {
    StreamFlush(s.books, InHand(s.pc), s.source);
    FailedFlush(s.books, s.source);
    QueueGrows(s.received, s.queue, s.books.log, Gap(s.books.pending));
  }

  lemma {:induction false} QueueKeeps(s: State)
    requires Inv(s) && Enabled(s, Attempt) && SendNow(s) == Sent && (s.pc.SendingBlocked? || s.pc.TrySending?)
    ensures Inv(Apply(s, Attempt))
  {
    var e, t := s.pc.event, Apply(s, Attempt);
    assert t.books == Queued(s.books, e) && t.source == s.source && InHand(t.pc) == [];
    StreamQueue(s.books, e, s.source);
    FailedQueue(s.books, e, s.source);
    QueueGrows(s.received, s.queue, s.books.log, Delivered(e));
  }

  lemma {:induction false} QueueGrows(received: seq<Event>, queue: seq<Event>, log: seq<Entry>, x: Entry)
    requires received + queue == Wire(log)
    ensures var e := match x case Delivered(e) => e case Gap(ds) => Lagged(Saturated(|ds|));
            received + (queue + [e]) == Wire(log + [x])
  {
    Snoc(log, x);
  }

  lemma {:induction false} AttemptKeeps(s: State)
    requires Inv(s) && Enabled(s, Attempt)
    ensures Inv(Apply(s, Attempt))
  {
    match SendNow(s) {
      case Full =>
        StreamDrop(s.books, s.pc.event, s.source);
        FailedDrop(s.books, s.pc.event, s.source);
      case Sent => if s.pc.FlushingBlocked? || s.pc.TryFlushing? { FlushKeeps(s); } else { QueueKeeps(s); }
      case Closed =>
        StreamLose(s.books, s.pc.event, s.source);
    }
  }

  lemma {:induction false} ReceiveKeeps(s: State)
    requires Inv(s) && Enabled(s, Receive)
    ensures Inv(Apply(s, Receive))
  {
    assert (s.received + [s.queue[0]]) + s.queue[1..] == s.received + s.queue;
  }

  lemma {:induction false} StepKeeps(s: State, a: Action)
    requires Inv(s) && Enabled(s, a)
    ensures Inv(Apply(s, a))
  {
    match a
    case TakeEvent => TakeEventKeeps(s);
    case Attempt => AttemptKeeps(s);
    case Receive => ReceiveKeeps(s);
    case _ =>
  }

  lemma {:induction false} RunKeeps(s: State, run: seq<Action>)
    requires Inv(s) && Runs(s, run)
    ensures Inv(Final(s, run))
    decreases |run|
  {
    if run != [] {
      StepKeeps(s, run[0]);
      RunKeeps(Apply(s, run[0]), run[1..]);
    }
  }

  // ----- what holds after every run

  /** Exact gap accounting. What the consumer has read and can still read is the log seen
      through its markers; putting back the events each marker stands for, then the drops
      still counted, the event in hand, and (only once the consumer is gone) at most one
      lost event, gives the forwarded stream exactly. Counts are exact below saturation. */
  lemma {:induction false} GapAccounting(s0: State, run: seq<Action>)
    requires Init(s0) && Runs(s0, run)
    ensures var s := Final(s0, run);
            && s.received + s.queue == Wire(s.books.log)
            && Expanded(s.books.log) + s.books.pending + InHand(s.pc) + s.books.lost == Select(Forwardable, s.source)
            && s.books.skipped == Saturated(|s.books.pending|)
            && |s.books.lost| <= 1 && (s.open ==> s.books.lost == [])
  {
    InitInv(s0);
    RunKeeps(s0, run);
  }

  /** Nothing overtakes an unreported gap: up to every entry, the log accounts for an
      unbroken start of the forwarded stream. */
  lemma {:induction false} NoUnreportedGap(s0: State, run: seq<Action>, k: nat)
    requires Init(s0) && Runs(s0, run)
    requires k <= |Final(s0, run).books.log|
    ensures var s := Final(s0, run); Expanded(s.books.log[..k]) <= Select(Forwardable, s.source)
  {
    GapAccounting(s0, run);
    ExpandedPrefix(Final(s0, run).books.log, k);
  }

  /** The lossless tier arrives complete and in order: only the event in hand, or the one
      lost to a consumer that has gone, can be missing from its end. */
  lemma {:induction false} LosslessComplete(s0: State, run: seq<Action>)
    requires Init(s0) && Runs(s0, run)
    ensures var s := Final(s0, run);
            Select(Lossless, s.received + s.queue) + Select(Lossless, InHand(s.pc) + s.books.lost) ==
                Select(Lossless, s.source)
  {
    InitInv(s0);
    RunKeeps(s0, run);
    var s := Final(s0, run);
    LosslessAccount(s.books, InHand(s.pc), s.source);
  }

  /** Every server request taken from the runtime is queued once, failed once, in hand, or
      lost, and never two of these; a token refresh is always failed and never queued; a
      request is lost only after the consumer has gone; the queue keeps to its capacity. */
  lemma {:induction false} RequestsAccountedFor(s0: State, run: seq<Action>)
    requires Init(s0) && Runs(s0, run)
    ensures var s := Final(s0, run);
            && multiset(Requests(s.source)) ==
                 multiset(Requests(s.received + s.queue)) + multiset(AllFailed(s.books.failed)) +
                     multiset(Requests(InHand(s.pc) + s.books.lost))
            && FailedWith(s.books.failed, TOKEN_REFRESH_UNSUPPORTED) == Requests(Select(TokenRefreshes, s.source))
            && (forall e :: e in s.received + s.queue ==> !IsTokenRefresh(e))
            && (s.open ==> s.books.lost == [])
            && |s.queue| <= Capacity(s)
  {
    InitInv(s0);
    RunKeeps(s0, run);
    var s := Final(s0, run);
    RequestAccounts(s.books, InHand(s.pc), s.source);
    NoTokenRefreshQueued(s.books, InHand(s.pc), s.source);
  }

  lemma {:induction false} NoTokenRefreshQueued(b: Books, hand: seq<Event>, source: seq<Event>)
    requires StreamOk(b, hand, source)
    ensures forall e :: e in Wire(b.log) ==> !IsTokenRefresh(e)
  {
    forall x | x in Expanded(b.log) ensures !IsTokenRefresh(x) {
      assert x in Select(Forwardable, source);
    }
    forall e | e in Wire(b.log) ensures !IsTokenRefresh(e) {
      WireForwardable(b.log, e);
    }
  }

  lemma {:induction false} RequestAccounts(b: Books, hand: seq<Event>, source: seq<Event>)
    requires StreamOk(b, hand, source) && FailedOk(b, source)
    ensures multiset(Requests(source)) ==
            multiset(Requests(Wire(b.log))) + multiset(AllFailed(b.failed)) + multiset(Requests(hand + b.lost))
  {
    forall r ensures multiset(Requests(source))[r] ==
      multiset(Requests(Wire(b.log)))[r] + multiset(AllFailed(b.failed))[r] + multiset(Requests(hand + b.lost))[r]
    {
      RequestAccount(b, hand, source, r);
    }
  }

  // ----- a request can be lost only through the consumer's leaving, and then it can

  /** With the consumer gone, a request in the worker's hand is neither queued nor failed. */
  lemma {:induction false} RequestLostAfterClose(id: string)
    ensures var s0 := State(1, [Request(OtherRequest(id))], [], true, true, [], [], AtSelect,
            Books(0, true, [], [], [], []), []);
            var run := [DropReceiver, TakeEvent, Attempt];
            && Init(s0) && Runs(s0, run)
            && Final(s0, run).received + Final(s0, run).queue == []
            && Final(s0, run).books.failed == []
            && Final(s0, run).books.lost == [Request(OtherRequest(id))]
  {
    var s0 := State(1, [Request(OtherRequest(id))], [], true, true, [], [], AtSelect, Books(0, true, [], [], [], []),
        []);
    var s1 := Apply(s0, DropReceiver);
    var s2 := Apply(s1, TakeEvent);
    var s3 := Apply(s2, Attempt);
    assert Runs(s3, []) && Final(s3, []) == s3;
    assert Runs(s2, [Attempt]) && Final(s2, [Attempt]) == s3;
    assert [TakeEvent, Attempt][1..] == [Attempt];
    assert Runs(s1, [TakeEvent, Attempt]) && Final(s1, [TakeEvent, Attempt]) == s3;
    assert [DropReceiver, TakeEvent, Attempt][1..] == [TakeEvent, Attempt];
  }

  // ----- shutdown

  /** The consumer is gone and a shutdown command is queued, but the worker has not left. */
  predicate ShuttingDown(s: State) {
    !s.open && Shutdown in s.commands && s.pc != Exited
  }

  function ShutdownAt(commands: seq<Command>): (k: nat)
    requires Shutdown in commands
    ensures k < |commands| && commands[k] == Shutdown && Shutdown !in commands[..k]
  {
    if commands[0] == Shutdown then 0 else 1 + ShutdownAt(commands[1..])
  }

  /** How many token refreshes the runtime produces before the next other event. */
  function TokenRun(upcoming: seq<Event>): (n: nat)
    ensures n <= |upcoming|
  {
    if upcoming == [] || !IsTokenRefresh(upcoming[0]) then 0 else 1 + TokenRun(upcoming[1..])
  }

  function EventSteps(s: State): nat {
    if InSend(s.pc) then 1 else if s.books.enabled then TokenRun(s.upcoming) + 2 else 0
  }

  /** The bound on the worker's remaining steps: the commands ahead of the shutdown and the
      shutdown itself, then the send it is in, or the token refreshes it may still fail and
      one more event, which takes two steps. */
  function StepsLeft(s: State): nat {
    if !ShuttingDown(s) then 0 else ShutdownAt(s.commands) + 1 + EventSteps(s)
  }

  /** The worker is never stuck on a send: with the consumer gone it can always move. */
  lemma {:induction false} NeverStuck(s: State)
    requires ShuttingDown(s)
    ensures Enabled(s, if InSend(s.pc) then Attempt else TakeCommand)
  {
  }

  lemma {:induction false} ShutdownStep(s: State, a: Action)
    requires ControlOk(s.books, s.pc, s.open) && ShuttingDown(s) && Enabled(s, a)
    ensures var t := Apply(s, a);
            && (t.pc == Exited || ShuttingDown(t))
            && (if IsWorker(a) then StepsLeft(t) < StepsLeft(s) else StepsLeft(t) <= StepsLeft(s))
  {
    var t := Apply(s, a);
    match a
    case TakeCommand =>
      var k := ShutdownAt(s.commands);
      if k > 0 { assert s.commands[1..][k - 1] == Shutdown; }
    case Submit(c) =>
      SameShutdownAt(s.commands, c);
    case _ =>
  }

  lemma {:induction false} SameShutdownAt(commands: seq<Command>, c: Command)
    requires Shutdown in commands
    ensures Shutdown in commands + [c] && ShutdownAt(commands + [c]) == ShutdownAt(commands)
  {
    assert (commands + [c])[ShutdownAt(commands)] == Shutdown;
    if commands[0] != Shutdown {
      assert (commands + [c])[1..] == commands[1..] + [c];
      SameShutdownAt(commands[1..], c);
    }
  }

  function WorkerSteps(run: seq<Action>): nat {
    if run == [] then 0 else (if IsWorker(run[0]) then 1 else 0) + WorkerSteps(run[1..])
  }

  lemma {:induction false} ExitedStays(s: State, run: seq<Action>)
    requires s.pc == Exited && Runs(s, run)
    ensures WorkerSteps(run) == 0 && Final(s, run).pc == Exited
    decreases |run|
  {
    if run != [] { ExitedStays(Apply(s, run[0]), run[1..]); }
  }

  /** Shutdown makes progress: however the rest interleaves, the worker takes at most
      `StepsLeft` steps, and by then it has left its loop. */
  lemma {:induction false} ShutdownBounded(s: State, run: seq<Action>)
    requires Inv(s) && ShuttingDown(s) && Runs(s, run)
    ensures WorkerSteps(run) + StepsLeft(Final(s, run)) <= StepsLeft(s)
    ensures Final(s, run).pc == Exited || ShuttingDown(Final(s, run))
    ensures WorkerSteps(run) == StepsLeft(s) ==> Final(s, run).pc == Exited
    decreases |run|
  {
    if run != [] {
      var t := Apply(s, run[0]);
      StepKeeps(s, run[0]);
      ShutdownStep(s, run[0]);
      if t.pc == Exited {
        ExitedStays(t, run[1..]);
      } else {
        ShutdownBounded(t, run[1..]);
      }
    }
  }

  /** So from every reachable state: once the consumer is gone and a shutdown is queued, every
      way on takes at most the bound's worker steps, and the last of them leaves the loop. */
  lemma {:induction false} ShutdownProgress(s0: State, before: seq<Action>, run: seq<Action>)
    requires Init(s0) && Runs(s0, before) && ShuttingDown(Final(s0, before)) && Runs(Final(s0, before), run)
    ensures var s := Final(s0, before);
            && Enabled(s, if InSend(s.pc) then Attempt else TakeCommand)
            && WorkerSteps(run) <= StepsLeft(s)
            && (WorkerSteps(run) == StepsLeft(s) ==> Final(s, run).pc == Exited)
  {
    InitInv(s0);
    RunKeeps(s0, before);
    NeverStuck(Final(s0, before));
    ShutdownBounded(Final(s0, before), run);
  }
}
