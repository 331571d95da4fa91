/** The remote client as interleaved steps: callers submitting commands, the wire bringing
    frames, the worker handling one thing at a time, and the consumer reading events. */
module RemoteClient {
  import opened Basics
  import opened RemoteWorker

  datatype State = State(
    worker: Worker,
    running: bool,
    commands: seq<Command>,
    senders: bool,                // some command sender is alive
    submitted: nat,               // requests submitted so far; they are numbered in order
    read: seq<Frame>,             // frames read, the handshake's included
    open: bool,                   // the consumer holds its receiver
    buffered: seq<Event>,         // left over from the handshake
    channel: seq<Event>,
    consumed: seq<Event>)

  datatype Action =
    | Submit(id: string)
    | Send(command: Command)
    | TakeCommand(writeOk: bool)
    | SendersGone
    | DropSenders
    | Read(frame: Frame, writeOk: bool)
    | Abort
    | AbortInRefusal(frame: Frame)   // while the refusal of this unknown request is being written
    | Consume
    | DropReceiver

  /** The client right after a handshake that connected. */
  ghost predicate Init(s: State, frames: seq<Frame>, writes: nat -> bool, h: Handshake) {
    && ConnectedAt(frames, writes, h)
    && s.worker == Worker(map[], map[], h.outbound, [], None)
    && s.running && s.senders && s.open && s.commands == [] && s.submitted == 0
    && s.read == frames[..h.read + 1]
    && s.buffered == h.events && s.channel == [] && s.consumed == []
  }

  predicate Enabled(s: State, a: Action) {
    match a
    case Submit(_) => s.senders
    case Send(c) => !c.Request? && s.senders
    case TakeCommand(_) => s.running && s.commands != []
    case SendersGone => s.running && s.commands == [] && !s.senders
    case DropSenders => s.senders
    case Read(_, _) => s.running
    case Abort => s.running
    case AbortInRefusal(f) => s.running && UnknownOf(f) != []
    case Consume => s.open && (s.buffered != [] || s.channel != [])
    case DropReceiver => s.open
  }

  /** The state once the worker has become `w`: what it delivered goes on the channel, and a
      worker that leaves its loop drains its waiters and drops its queue. */
  function After(s: State, w: Worker): State
    requires |s.worker.delivered| <= |w.delivered|
  {
    var t := s.(channel := s.channel + w.delivered[|s.worker.delivered|..]);
    if w.exit.Some? then t.(worker := Finish(w, s.commands), running := false, commands := [])
    else t.(worker := w)
  }

  function Aborted(s: State): State {
    s.(running := false, commands := [],
       worker := s.worker.(pending := map[],
         outcomes := TellAll(s.worker.outcomes, s.worker.pending.Values + QueuedWaiters(s.commands), ChannelClosed)))
  }

  function Apply(s: State, a: Action): State
    requires Enabled(s, a)
  {
    match a
    case Submit(id) =>
      if s.running
      then s.(commands := s.commands + [Request(s.submitted, id)], submitted := s.submitted + 1)
      else s.(worker := s.worker.(outcomes := s.worker.outcomes[s.submitted := ChannelClosed]),
          submitted := s.submitted + 1)
    case Send(c) => if s.running then s.(commands := s.commands + [c]) else s
    case TakeCommand(writeOk) =>
      var t := s.(commands := s.commands[1..]);
      After(t, OnCommand(s.worker, s.commands[0], writeOk, s.open))
    case SendersGone => After(s, Leave(s.worker, BrokenPipe))
    case DropSenders => s.(senders := false)
    case Read(f, writeOk) => After(s.(read := s.read + [f]), OnFrame(s.worker, f, writeOk, s.open))
    case Abort => Aborted(s)
    case AbortInRefusal(f) => Aborted(s.(read := s.read + [f]))
    case Consume =>
      if s.buffered != []
      then s.(buffered := s.buffered[1..], consumed := s.consumed + [s.buffered[0]])
      else s.(channel := s.channel[1..], consumed := s.consumed + [s.channel[0]])
    case DropReceiver => s.(open := false)
  }

  ghost predicate Runs(s: State, run: seq<Action>)
    decreases |run|
  {
    run == [] || (Enabled(s, run[0]) && Runs(Apply(s, run[0]), run[1..]))
  }

  ghost function Final(s: State, run: seq<Action>): State
    requires Runs(s, run)
    decreases |run|
  {
    if run == [] then s else Final(Apply(s, run[0]), run[1..])
  }

  // ----- one outcome per request

  ghost predicate DistinctQueue(commands: seq<Command>) {
    forall i, j :: 0 <= i < j < |commands| && commands[i].Request? && commands[j].Request? ==>
        commands[i].waiter != commands[j].waiter
  }

  ghost predicate Injective(pending: map<string, Waiter>) {
    forall a, b :: a in pending && b in pending && pending[a] == pending[b] ==> a == b
  }

  /** Of the requests numbered below `n`, each is in exactly one of three places: queued,
      pending, or told its outcome. */
  ghost predicate Ledger(queued: set<Waiter>, pending: set<Waiter>, told: set<Waiter>, n: nat) {
    && queued !! pending && queued !! told && pending !! told
    && forall w: Waiter :: w < n <==> w in queued || w in pending || w in told
  }

  ghost predicate OneOutcome(s: State) {
    && DistinctQueue(s.commands) && Injective(s.worker.pending)
    && Ledger(QueuedWaiters(s.commands), s.worker.pending.Values, s.worker.outcomes.Keys, s.submitted)
    && (!s.running ==> s.commands == [] && s.worker.pending == map[])
  }

  /** A step adds outcomes and changes none. */
  ghost predicate Extends(before: map<Waiter, Outcome>, after: map<Waiter, Outcome>) {
    before.Keys <= after.Keys && forall w :: w in before ==> after[w] == before[w]
  }

  lemma {:induction false} QueueTail(commands: seq<Command>)
    requires commands != [] && DistinctQueue(commands)
    ensures DistinctQueue(commands[1..])
    ensures !commands[0].Request? ==> QueuedWaiters(commands[1..]) == QueuedWaiters(commands)
    ensures commands[0].Request? ==>
            commands[0].waiter !in QueuedWaiters(commands[1..]) &&
                QueuedWaiters(commands) == QueuedWaiters(commands[1..]) + {commands[0].waiter}
  {
    var rest := commands[1..];
    forall w | w in QueuedWaiters(commands)
      ensures w in QueuedWaiters(rest) || (commands[0].Request? && w == commands[0].waiter)
    {
      var i :| 0 <= i < |commands| && commands[i].Request? && commands[i].waiter == w;
      if i > 0 { assert rest[i - 1] == commands[i]; }
    }
    forall w | w in QueuedWaiters(rest) ensures w in QueuedWaiters(commands) {
      var i :| 0 <= i < |rest| && rest[i].Request? && rest[i].waiter == w;
      assert commands[i + 1] == rest[i];
    }
  }

  lemma {:induction false} QueueSnoc(commands: seq<Command>, c: Command)
    requires DistinctQueue(commands) && (c.Request? ==> c.waiter !in QueuedWaiters(commands))
    ensures DistinctQueue(commands + [c])
    ensures QueuedWaiters(commands + [c]) == QueuedWaiters(commands) + (if c.Request? then {c.waiter} else {})
  {
    var all := commands + [c];
    forall w | w in QueuedWaiters(commands) ensures w in QueuedWaiters(all) {
      var i :| 0 <= i < |commands| && commands[i].Request? && commands[i].waiter == w;
      assert all[i] == commands[i];
    }
    assert all[|commands|] == c;
  }

  lemma {:induction false} ValuesSettled(pending: map<string, Waiter>, id: string)
    requires Injective(pending) && id in pending
    ensures Injective(pending - {id})
    ensures pending[id] !in (pending - {id}).Values && pending.Values == (pending - {id}).Values + {pending[id]}
  {
    ValuesWithout(pending, id);
  }

  lemma {:induction false} ValuesAdded(pending: map<string, Waiter>, id: string, w: Waiter)
    requires Injective(pending) && id !in pending && w !in pending.Values
    ensures Injective(pending[id := w]) && pending[id := w].Values == pending.Values + {w}
  {
    var p := pending[id := w];
    assert p - {id} == pending;
    ValuesWithout(p, id);
  }

  /** The worker's share of the invariant, with `queued` waiters still in its queue. */
  ghost predicate WorkerOk(w: Worker, queued: set<Waiter>, n: nat) {
    Injective(w.pending) && Ledger(queued, w.pending.Values, w.outcomes.Keys, n)
  }

  lemma {:induction false} RequestKeeps(w: Worker, queued: set<Waiter>, n: nat, waiter: Waiter, id: string,
                                        writeOk: bool, open: bool)
    requires WorkerOk(w, queued + {waiter}, n) && waiter !in queued
    ensures var v := OnRequest(w, waiter, id, writeOk, open); WorkerOk(v, queued, n) && Extends(w.outcomes, v.outcomes)
  {
    if id !in w.pending && writeOk { ValuesAdded(w.pending, id, waiter); }
  }

  lemma {:induction false} SettleKeeps(w: Worker, queued: set<Waiter>, n: nat, id: string, outcome: Outcome)
    requires WorkerOk(w, queued, n)
    ensures var v := Settle(w, id, outcome); WorkerOk(v, queued, n) && Extends(w.outcomes, v.outcomes)
  {
    if id in w.pending { ValuesSettled(w.pending, id); }
  }

  lemma {:induction false} FrameKeeps(w: Worker, queued: set<Waiter>, n: nat, f: Frame, writeOk: bool, open: bool)
    requires WorkerOk(w, queued, n)
    ensures var v := OnFrame(w, f, writeOk, open); WorkerOk(v, queued, n) && Extends(w.outcomes, v.outcomes)
  {
    match f
    case Response(id, payload, _) => SettleKeeps(w, queued, n, id, Replied(payload));
    case ErrorReply(id, payload, _) => SettleKeeps(w, queued, n, id, RepliedError(payload));
    case _ =>
  }

  lemma {:induction false} FinishKeeps(w: Worker, commands: seq<Command>, n: nat)
    requires w.exit.Some? && WorkerOk(w, QueuedWaiters(commands), n)
    ensures var v := Finish(w, commands); WorkerOk(v, {}, n) && Extends(w.outcomes, v.outcomes)
  {
  }

  lemma {:induction false} AfterKeeps(s: State, w: Worker)
    requires |s.worker.delivered| <= |w.delivered|
    requires DistinctQueue(s.commands) && WorkerOk(w, QueuedWaiters(s.commands), s.submitted) && s.running
    ensures OneOutcome(After(s, w)) && Extends(w.outcomes, After(s, w).worker.outcomes)
  {
    if w.exit.Some? { FinishKeeps(w, s.commands, s.submitted); }
  }

  lemma {:induction false} ExtendsTransitive(a: map<Waiter, Outcome>, b: map<Waiter, Outcome>, c: map<Waiter, Outcome>)
    requires Extends(a, b) && Extends(b, c)
    ensures Extends(a, c)
  {
  }

  lemma {:induction false} TakeCommandKeeps(s: State, writeOk: bool)
    requires OneOutcome(s) && Enabled(s, TakeCommand(writeOk))
    ensures OneOutcome(Apply(s, TakeCommand(writeOk)))
    ensures Extends(s.worker.outcomes, Apply(s, TakeCommand(writeOk)).worker.outcomes)
  {
    var c, rest := s.commands[0], s.commands[1..];
    QueueTail(s.commands);
    var w := OnCommand(s.worker, c, writeOk, s.open);
    if c.Request? { RequestKeeps(s.worker, QueuedWaiters(rest), s.submitted, c.waiter, c.id, writeOk, s.open); }
    AfterKeeps(s.(commands := rest), w);
    ExtendsTransitive(s.worker.outcomes, w.outcomes, Apply(s, TakeCommand(writeOk)).worker.outcomes);
  }

  lemma {:induction false} ReadKeeps(s: State, f: Frame, writeOk: bool)
    requires OneOutcome(s) && Enabled(s, Read(f, writeOk))
    ensures OneOutcome(Apply(s, Read(f, writeOk)))
    ensures Extends(s.worker.outcomes, Apply(s, Read(f, writeOk)).worker.outcomes)
  {
    FrameKeeps(s.worker, QueuedWaiters(s.commands), s.submitted, f, writeOk, s.open);
    var w := OnFrame(s.worker, f, writeOk, s.open);
    AfterKeeps(s.(read := s.read + [f]), w);
    ExtendsTransitive(s.worker.outcomes, w.outcomes, Apply(s, Read(f, writeOk)).worker.outcomes);
  }

  lemma {:induction false} SubmitKeeps(s: State, id: string)
    requires OneOutcome(s) && Enabled(s, Submit(id))
    ensures OneOutcome(Apply(s, Submit(id)))
    ensures Extends(s.worker.outcomes, Apply(s, Submit(id)).worker.outcomes)
  {
    if s.running { QueueSnoc(s.commands, Request(s.submitted, id)); }
  }

  lemma {:induction false} SendKeeps(s: State, c: Command)
    requires OneOutcome(s) && Enabled(s, Send(c))
    ensures OneOutcome(Apply(s, Send(c)))
  {
    QueueSnoc(s.commands, c);
  }

  lemma {:induction false} StepKeeps(s: State, a: Action)
    requires OneOutcome(s) && Enabled(s, a)
    ensures OneOutcome(Apply(s, a)) && Extends(s.worker.outcomes, Apply(s, a).worker.outcomes)
  {
    match a
    case Submit(id) => SubmitKeeps(s, id);
    case Send(c) => SendKeeps(s, c);
    case TakeCommand(writeOk) => TakeCommandKeeps(s, writeOk);
    case Read(f, writeOk) => ReadKeeps(s, f, writeOk);
    case SendersGone => AfterKeeps(s, Leave(s.worker, BrokenPipe));
    case _ =>
  }

  lemma {:induction false} InitOneOutcome(s: State, frames: seq<Frame>, writes: nat -> bool, h: Handshake)
    requires Init(s, frames, writes, h)
    ensures OneOutcome(s)
  {
  }

  lemma {:induction false} RunKeeps(s: State, run: seq<Action>)
    requires OneOutcome(s) && Runs(s, run)
    ensures OneOutcome(Final(s, run)) && Extends(s.worker.outcomes, Final(s, run).worker.outcomes)
    decreases |run|
  {
    if run != [] {
      StepKeeps(s, run[0]);
      RunKeeps(Apply(s, run[0]), run[1..]);
    }
  }

  /** In every run each submitted request is, at every moment, queued, pending or told its
      one outcome; an outcome once told is never told again or changed; and when the worker
      is gone every request submitted has been told. */
  lemma {:induction false} EveryRequestOneOutcome(s0: State, frames: seq<Frame>, writes: nat -> bool, h: Handshake,
                                                  run: seq<Action>, more: seq<Action>)
    requires Init(s0, frames, writes, h) && Runs(s0, run) && Runs(Final(s0, run), more)
    ensures var s := Final(s0, run);
            && Ledger(QueuedWaiters(s.commands), s.worker.pending.Values, s.worker.outcomes.Keys, s.submitted)
            && Extends(s.worker.outcomes, Final(s, more).worker.outcomes)
            && (!s.running ==> forall w: Waiter :: w < s.submitted <==> w in s.worker.outcomes)
  {
    InitOneOutcome(s0, frames, writes, h);
    RunKeeps(s0, run);
    RunKeeps(Final(s0, run), more);
  }
}
