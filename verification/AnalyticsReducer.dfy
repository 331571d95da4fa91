/** The analytics reducer: seven maps, what one operation does to them, and the events it
    puts out. */
module AnalyticsReducer {
  import opened Basics
  import opened AnalyticsFacts
  import AcceptedLines

  datatype ToolCounts = ToolCounts(
    total: nat,
    shellCommand: nat,
    fileChange: nat,
    mcpToolCall: nat,
    dynamicToolCall: nat,
    subagentToolCall: nat,
    webSearch: nat,
    imageGeneration: nat)

  const NO_TOOLS := ToolCounts(0, 0, 0, 0, 0, 0, 0, 0)

  function Counted(c: ToolCounts, item: ThreadItem): ToolCounts {
    match item
    case CommandExecution(_, _) => c.(shellCommand := c.shellCommand + 1, total := c.total + 1)
    case FileChange(_, _) => c.(fileChange := c.fileChange + 1, total := c.total + 1)
    case McpToolCall(_, _) => c.(mcpToolCall := c.mcpToolCall + 1, total := c.total + 1)
    case DynamicToolCall(_, _) => c.(dynamicToolCall := c.dynamicToolCall + 1, total := c.total + 1)
    case CollabAgentToolCall(_, _) => c.(subagentToolCall := c.subagentToolCall + 1, total := c.total + 1)
    case WebSearch(_) => c.(webSearch := c.webSearch + 1, total := c.total + 1)
    case ImageGeneration(_) => c.(imageGeneration := c.imageGeneration + 1, total := c.total + 1)
    case _ => c
  }

  datatype ThreadState = ThreadState(conn: Option<ConnectionId>, metadata: Option<ThreadMetadata>)

  datatype TurnState = TurnState(
    conn: Option<ConnectionId>,
    thread: Option<ThreadId>,
    images: Option<nat>,
    config: Option<Config>,
    startedAt: Option<nat>,
    usage: Option<nat>,
    completion: Option<Completion>,
    failure: Option<string>,
    diff: Option<string>,
    steers: nat,
    tools: ToolCounts)

  const BLANK_TURN := TurnState(None, None, None, None, None, None, None, None, None, 0, NO_TOOLS)

  datatype ReviewSummary = ReviewSummary(
    reviews: nat,
    guardian: nat,
    user: nat,
    outcome: Option<FinalOutcome>,
    permissions: bool,
    network: bool)

  const NO_REVIEWS := ReviewSummary(0, 0, 0, None, false, false)

  datatype RequestKey = RequestKey(conn: ConnectionId, request: RequestId)

  datatype State = State(
    requests: map<RequestKey, PendingRequest>,
    turns: map<TurnId, TurnState>,
    connections: map<ConnectionId, Connection>,
    threads: map<ThreadId, ThreadState>,
    started: map<ItemKey, nat>,
    reviews: map<RequestId, Review>,
    summaries: map<ItemKey, ReviewSummary>)

  const EMPTY := State(map[], map[], map[], map[], map[], map[], map[])

  datatype Event =
    | ThreadInitialized(thread: ThreadId, connection: Option<Connection>, metadata: ThreadMetadata, details: nat)
    | TurnEvent(turn: TurnId, source: Context, thread: ThreadId, images: nat, config: Config, completion: Completion,
                startedAt: Option<nat>, usage: Option<nat>, failure: Option<string>, steers: nat, tools: ToolCounts)
    | AcceptedLineCounts(turn: TurnId, thread: ThreadId, model: string, reading: Reading, added: nat, deleted: nat)
    | SteerEvent(source: Context, steer: PendingRequest, acceptedTurn: Option<TurnId>, reason: Option<string>)
    | ReviewEvent(source: Context, review: Review, verdict: Verdict, at: nat, duration: Option<nat>)
    | ToolItem(source: Context, key: ItemKey, item: ThreadItem, from: nat, until: nat, duration: Option<nat>,
        summary: ReviewSummary)
    | ScopedEvent(source: Context, thread: ThreadId, details: nat)
    | SelfContainedEvent(details: nat)

  /** Who an event is reported for. */
  datatype Context = Context(connection: Connection, metadata: ThreadMetadata)

  datatype Outcome = Outcome(state: State, out: seq<Event>)

  /** Some duration unless the clock went back. */
  function ObservedDuration(from: nat, until: nat): (r: Option<nat>)
    ensures r.Some? <==> from <= until
    ensures r.Some? ==> from + r.value == until
  {
    if from <= until then Some(until - from) else None
  }

  function MetadataOf(s: State, thread: ThreadId): Option<ThreadMetadata> {
    if thread in s.threads then s.threads[thread].metadata else None
  }

  /** The context of an event about a thread, by the thread's own connection. */
  function ThreadContext(s: State, thread: ThreadId): Option<Context> {
    if thread in s.threads && s.threads[thread].conn.Some? && s.threads[thread].conn.value in s.connections
       && s.threads[thread].metadata.Some?
    then Some(Context(s.connections[s.threads[thread].conn.value], s.threads[thread].metadata.value))
    else None
  }

  // ----- turns

  function Patched(t: TurnState, p: Patch): TurnState {
    match p
    case SetConfig(thread, images, config) => t.(thread := Some(thread), images := Some(images), config := Some(config))
    case SetUsage(thread, usage) => t.(thread := Some(thread), usage := Some(usage))
    case SetFailure(thread, failure) =>
      t.(thread := if t.thread.Some? then t.thread else Some(thread), failure := Some(failure))
    case SetStarted(startedAt) => t.(startedAt := startedAt)
    case SetDiff(thread, diff) => t.(thread := Some(thread), diff := Some(diff))
    case SetCompletion(completion) => t.(completion := Some(completion))
  }

  function TurnOf(s: State, turn: TurnId): TurnState {
    if turn in s.turns then s.turns[turn] else BLANK_TURN
  }

  /** Everything a turn event reports has arrived. */
  predicate Complete(t: TurnState) {
    t.thread.Some? && t.images.Some? && t.config.Some? && t.completion.Some? && t.conn.Some?
  }

  predicate Ready(s: State, turn: TurnId) {
    && turn in s.turns && Complete(s.turns[turn])
    && s.turns[turn].conn.value in s.connections && MetadataOf(s, s.turns[turn].thread.value).Some?
  }

  function TurnEventOf(s: State, turn: TurnId): Event
    requires Ready(s, turn)
  {
    var t := s.turns[turn];
    TurnEvent(turn, Context(s.connections[t.conn.value], MetadataOf(s, t.thread.value).value), t.thread.value,
        t.images.value, t.config.value,
              t.completion.value, t.startedAt, t.usage, t.failure, t.steers, t.tools)
  }

  function AcceptedLineEvents(turn: TurnId, t: TurnState, reading: Reading): (r: seq<Event>)
    requires Complete(t)
    ensures forall e :: e in r ==> e.AcceptedLineCounts?
  {
    if t.diff.None? then []
    else
      var summary := AcceptedLines.Summarize(AcceptedLines.PLAIN, t.diff.value);
      if summary.added == 0 && summary.deleted == 0 then []
      else [AcceptedLineCounts(turn, t.thread.value, t.config.value.model, reading, summary.added, summary.deleted)]
  }

  function MaybeEmit(s: State, turn: TurnId, reading: Reading): (r: Outcome)
    ensures r.state == s.(turns := r.state.turns)
  {
    if Ready(s, turn)
    then Outcome(s.(turns := s.turns - {turn}),
        [TurnEventOf(s, turn)] + AcceptedLineEvents(turn, s.turns[turn], reading))
    else Outcome(s, [])
  }

  /** The turn's new state is stored, and reported if it is time. */
  function PutTurn(s: State, turn: TurnId, state: TurnState, emit: Option<Reading>): (r: Outcome)
    ensures r.state == s.(turns := r.state.turns)
  {
    var t := s.(turns := s.turns[turn := state]);
    if emit.Some? then MaybeEmit(t, turn, emit.value) else Outcome(t, [])
  }

  function DoPatchTurn(s: State, turn: TurnId, patch: Patch, emit: Option<Reading>): (r: Outcome)
    ensures r.state == s.(turns := r.state.turns)
  {
    PutTurn(s, turn, Patched(TurnOf(s, turn), patch), emit)
  }

  /** A turn's state once its start has been answered. */
  function Begun(s: State, turn: TurnId, conn: ConnectionId, p: PendingRequest): TurnState
    requires p.TurnStart?
  {
    TurnOf(s, turn).(conn := Some(conn), thread := Some(p.thread), images := Some(p.images))
  }

  function DoStartReply(s: State, conn: ConnectionId, request: RequestId, turn: TurnId, reading: Reading): (r: Outcome)
    ensures r.state == s.(turns := r.state.turns, requests := s.requests - {RequestKey(conn, request)})
  {
    var key := RequestKey(conn, request);
    var t := s.(requests := s.requests - {key});
    if key in s.requests && s.requests[key].TurnStart? then
      MaybeEmit(t.(turns := s.turns[turn := Begun(s, turn, conn, s.requests[key])]), turn, reading)
    else Outcome(t, [])
  }

  function SteerEvents(s: State, conn: ConnectionId, steer: PendingRequest, acceptedTurn: Option<TurnId>,
                       reason: Option<string>): (r: seq<Event>)
    requires steer.TurnSteer?
    ensures forall e :: e in r ==> e.SteerEvent?
  {
    if conn in s.connections && MetadataOf(s, steer.thread).Some?
    then [SteerEvent(Context(s.connections[conn], MetadataOf(s, steer.thread).value), steer, acceptedTurn, reason)]
    else []
  }

  function DoSteerReply(s: State, conn: ConnectionId, request: RequestId, turn: TurnId): (r: Outcome)
    ensures r.state == s.(turns := r.state.turns, requests := s.requests - {RequestKey(conn, request)})
  {
    var key := RequestKey(conn, request);
    var t := s.(requests := s.requests - {key});
    if key in s.requests && s.requests[key].TurnSteer? then
      var turns := if turn in s.turns then s.turns[turn := s.turns[turn].(steers := s.turns[turn].steers + 1)]
          else s.turns;
      Outcome(t.(turns := turns), SteerEvents(s, conn, s.requests[key], Some(turn), None))
    else Outcome(t, [])
  }

  function DoErrorReply(s: State, conn: ConnectionId, request: RequestId, reason: Option<string>): (r: Outcome)
    ensures r.state == s.(requests := s.requests - {RequestKey(conn, request)})
  {
    var key := RequestKey(conn, request);
    var t := s.(requests := s.requests - {key});
    if key in s.requests && s.requests[key].TurnSteer?
    then Outcome(t, SteerEvents(s, conn, s.requests[key], None, reason))
    else Outcome(t, [])
  }

  // ----- items and reviews

  function SummaryOf(s: State, key: ItemKey): ReviewSummary {
    if key in s.summaries then s.summaries[key] else NO_REVIEWS
  }

  /** The completion of an item whose start was seen, with its context known, uses up the
      item's review summary. */
  predicate ClosesItem(s: State, key: ItemKey, ended: Option<nat>) {
    key.turn in s.turns && key in s.started && ended.Some? && ThreadContext(s, key.thread).Some?
  }

  function ToolItemOf(s: State, key: ItemKey, item: ThreadItem, from: nat, until: nat): Event
    requires ThreadContext(s, key.thread).Some?
  {
    var source := ThreadContext(s, key.thread).value;
    ToolItem(source, key, item, from, until, ObservedDuration(from, until), SummaryOf(s, key))
  }

  function DoEndItem(s: State, key: ItemKey, item: ThreadItem, ended: Option<nat>): (r: Outcome)
    ensures r.state == s.(turns := r.state.turns, started := r.state.started, summaries := r.state.summaries)
  {
    if key.turn !in s.turns then Outcome(s, [])
    else
      var turnState := s.turns[key.turn];
      var t := s.(turns := s.turns[key.turn := turnState.(tools := Counted(turnState.tools, item))],
          started := s.started - {key});
      if !ClosesItem(s, key, ended) then Outcome(t, [])
      else
        var event := ToolItemOf(s, key, item, s.started[key], ended.value);
        Outcome(t.(summaries := s.summaries - {key}), if Terminal(item) then [event] else [])
  }

  function Recorded(summary: ReviewSummary, review: Review, verdict: Verdict): ReviewSummary {
    ReviewSummary(summary.reviews + 1,
                  summary.guardian + (if verdict.reviewer.Guardian? then 1 else 0),
                  summary.user + (if verdict.reviewer.User? then 1 else 0),
                  Some(FinalApprovalOutcome(verdict)),
                  summary.permissions || review.permissions,
                  summary.network || review.network)
  }

  function DoJudge(s: State, review: Review, verdict: Verdict, at: nat): (r: Outcome)
    ensures r.state == s.(summaries := r.state.summaries)
  {
    var key := SummaryKey(review);
    var t :=
      if key.Some? then s.(summaries := s.summaries[key.value := Recorded(SummaryOf(s, key.value), review, verdict)])
      else s;
    var source := ThreadContext(s, review.thread);
    var duration := ObservedDuration(review.startedAt, at);
    Outcome(t, if source.Some? then [ReviewEvent(source.value, review, verdict, at, duration)] else [])
  }

  function DoResolveReview(s: State, request: RequestId, verdict: Verdict, at: nat): (r: Outcome)
    ensures r.state == s.(reviews := s.reviews - {request}, summaries := r.state.summaries)
  {
    if request in s.reviews
    then DoJudge(s.(reviews := s.reviews - {request}), s.reviews[request], verdict, at)
    else Outcome(s, [])
  }

  // ----- threads

  function DoOpenThread(s: State, conn: ConnectionId, thread: ThreadId, metadata: ThreadMetadata,
                        details: nat): (r: Outcome)
    ensures r.state == s.(threads := r.state.threads)
  {
    if conn !in s.connections then Outcome(s, [])
    else Outcome(s.(threads := s.threads[thread := ThreadState(Some(conn), Some(metadata))]),
                 [ThreadInitialized(thread, Some(s.connections[conn]), metadata, details)])
  }

  function ConnOf(s: State, thread: Option<ThreadId>): Option<ConnectionId> {
    if thread.Some? && thread.value in s.threads then s.threads[thread.value].conn else None
  }

  function DoSpawn(s: State, thread: ThreadId, parent: Option<ThreadId>, metadata: ThreadMetadata,
                   details: nat): (r: Outcome)
    ensures r.state == s.(threads := r.state.threads)
  {
    var was := if thread in s.threads then s.threads[thread] else ThreadState(None, None);
    var now := ThreadState(if was.conn.Some? then was.conn else ConnOf(s, parent),
                           if was.metadata.Some? then was.metadata else Some(metadata));
    Outcome(s.(threads := s.threads[thread := now]), [ThreadInitialized(thread, None, metadata, details)])
  }

  function DoScoped(s: State, thread: ThreadId, details: nat): Outcome {
    Outcome(s, if ThreadContext(s, thread).Some?
        then [ScopedEvent(ThreadContext(s, thread).value, thread, details)] else [])
  }

  function Records(records: seq<nat>): (r: seq<Event>)
    ensures |r| == |records| && forall i :: 0 <= i < |r| ==> r[i] == SelfContainedEvent(records[i])
  {
    seq(|records|, i requires 0 <= i < |records| => SelfContainedEvent(records[i]))
  }

  function Apply(s: State, op: Op): Outcome {
    match op
    case Skip => Outcome(s, [])
    case Connect(conn, connection) => Outcome(s.(connections := s.connections[conn := connection]), [])
    case Ask(conn, request, pending) => Outcome(s.(requests := s.requests[RequestKey(conn, request) := pending]), [])
    case OpenThread(conn, thread, metadata, details) => DoOpenThread(s, conn, thread, metadata, details)
    case StartReply(conn, request, turn, reading) => DoStartReply(s, conn, request, turn, reading)
    case SteerReply(conn, request, turn) => DoSteerReply(s, conn, request, turn)
    case ErrorReply(conn, request, reason) => DoErrorReply(s, conn, request, reason)
    case PatchTurn(turn, patch, emit) => DoPatchTurn(s, turn, patch, emit)
    case BeginItem(key, at) => Outcome(s.(started := s.started[key := at]), [])
    case EndItem(key, item, ended) => DoEndItem(s, key, item, ended)
    case Judge(review, verdict, at) => DoJudge(s, review, verdict, at)
    case OpenReview(request, review) => Outcome(s.(reviews := s.reviews[request := review]), [])
    case ResolveReview(request, verdict, at) => DoResolveReview(s, request, verdict, at)
    case Spawn(thread, parent, metadata, details) => DoSpawn(s, thread, parent, metadata, details)
    case Scoped(thread, details) => DoScoped(s, thread, details)
    case Record(records) => Outcome(s, Records(records))
  }

  // ----- runs

  /** The state after `ops` from nothing. */
  function After(ops: seq<Op>): State {
    if ops == [] then EMPTY else Apply(After(ops[..|ops| - 1]), ops[|ops| - 1]).state
  }

  /** What the last operation of `ops` put out. */
  function LastOut(ops: seq<Op>): (r: seq<Event>)
    requires ops != []
  {
    Apply(After(ops[..|ops| - 1]), ops[|ops| - 1]).out
  }

  function Decoded(facts: seq<Fact>): (r: seq<Op>)
    ensures |r| == |facts| && forall i :: 0 <= i < |r| ==> r[i] == Decode(facts[i])
  {
    seq(|facts|, i requires 0 <= i < |facts| => Decode(facts[i]))
  }

  predicate BeforeTime(f: Fact) {
    || ((f.ItemStarted? || f.ApprovalRequested? || f.GuardianReviewCompleted?) && f.startedAtMs < 0)
    || ((f.ItemCompleted? || f.GuardianReviewCompleted?) && f.completedAtMs < 0)
  }

  /** A fact with a negative time reports nothing and leaves reviews alone; unless it is the
      completion of an item, which still counts, it leaves everything alone. */
  lemma {:induction false} NegativeTimesReportNothing(s: State, f: Fact)
    requires BeforeTime(f)
    ensures Apply(s, Decode(f)).out == []
    ensures Apply(s, Decode(f)).state.reviews == s.reviews && Apply(s, Decode(f)).state.summaries == s.summaries
    ensures !f.ItemCompleted? ==> Apply(s, Decode(f)).state == s
  {
    if f.ItemCompleted? { assert Unsigned(f.completedAtMs) == None; }
  }

  // ----- the reducer as it runs

  class Reducer {
    var requests: map<RequestKey, PendingRequest>
    var turns: map<TurnId, TurnState>
    var connections: map<ConnectionId, Connection>
    var threads: map<ThreadId, ThreadState>
    var started: map<ItemKey, nat>
    var reviews: map<RequestId, Review>
    var summaries: map<ItemKey, ReviewSummary>

    ghost function Contents(): State
      reads this
    {
      State(requests, turns, connections, threads, started, reviews, summaries)
    }

    constructor ()
      ensures Contents() == EMPTY
    {
      requests, turns, connections, threads, started, reviews, summaries := map[], map[], map[], map[], map[], map[],
          map[];
    }

    method ContextOrWarn(thread: ThreadId) returns (r: Option<Context>)
      ensures r == ThreadContext(Contents(), thread)
    {
      if thread !in threads { return None; }
      var state := threads[thread];
      if state.conn.None? { return None; }
      if state.conn.value !in connections { return None; }
      if state.metadata.None? { return None; }
      return Some(Context(connections[state.conn.value], state.metadata.value));
    }

    method MaybeEmitTurnEvent(turn: TurnId, reading: Reading) returns (out: seq<Event>)
      modifies this`turns
      ensures Outcome(Contents(), out) == MaybeEmit(old(Contents()), turn, reading)
    {
      out := [];
      if turn !in turns { return; }
      var t := turns[turn];
      if t.thread.None? || t.images.None? || t.config.None? || t.completion.None? { return; }
      if t.conn.None? { return; }
      if t.conn.value !in connections { return; }
      if t.thread.value !in threads || threads[t.thread.value].metadata.None? { return; }
      var source := Context(connections[t.conn.value], threads[t.thread.value].metadata.value);
      out := [TurnEvent(turn, source, t.thread.value, t.images.value, t.config.value, t.completion.value, t.startedAt,
          t.usage, t.failure, t.steers, t.tools)];
      if t.diff.Some? {
        var summary := AcceptedLines.AcceptedLineFingerprintsFromUnifiedDiff(AcceptedLines.PLAIN, t.diff.value);
        if summary.added != 0 || summary.deleted != 0 {
          out := out + [AcceptedLineCounts(turn, t.thread.value, t.config.value.model, reading, summary.added,
              summary.deleted)];
        }
      }
      turns := turns - {turn};
    }

    method IngestTurnPatch(turn: TurnId, patch: Patch, emit: Option<Reading>) returns (out: seq<Event>)
      modifies this`turns
      ensures Outcome(Contents(), out) == DoPatchTurn(old(Contents()), turn, patch, emit)
    {
      out := [];
      var t := if turn in turns then turns[turn] else BLANK_TURN;
      match patch {
        case SetConfig(thread, images, config) =>
          t := t.(thread := Some(thread), images := Some(images), config := Some(config));
        case SetUsage(thread, usage) => t := t.(thread := Some(thread), usage := Some(usage));
        case SetFailure(thread, failure) =>
          if t.thread.None? { t := t.(thread := Some(thread)); }
          t := t.(failure := Some(failure));
        case SetStarted(startedAt) => t := t.(startedAt := startedAt);
        case SetDiff(thread, diff) => t := t.(thread := Some(thread), diff := Some(diff));
        case SetCompletion(completion) => t := t.(completion := Some(completion));
      }
      turns := turns[turn := t];
      if emit.Some? { out := MaybeEmitTurnEvent(turn, emit.value); }
    }

    method IngestTurnStartResponse(conn: ConnectionId, request: RequestId, turn: TurnId, reading: Reading)
        returns (out: seq<Event>)
      modifies this`turns, this`requests
      ensures Outcome(Contents(), out) == DoStartReply(old(Contents()), conn, request, turn, reading)
    {
      out := [];
      var key := RequestKey(conn, request);
      var pending := if key in requests then Some(requests[key]) else None;
      requests := requests - {key};
      if pending.None? || !pending.value.TurnStart? { return; }
      var t := if turn in turns then turns[turn] else BLANK_TURN;
      t := t.(conn := Some(conn));
      t := t.(thread := Some(pending.value.thread));
      t := t.(images := Some(pending.value.images));
      turns := turns[turn := t];
      out := MaybeEmitTurnEvent(turn, reading);
    }

    method EmitTurnSteerEvent(conn: ConnectionId, steer: PendingRequest, acceptedTurn: Option<TurnId>,
                              reason: Option<string>) returns (out: seq<Event>)
      requires steer.TurnSteer?
      ensures out == SteerEvents(Contents(), conn, steer, acceptedTurn, reason)
    {
      out := [];
      if conn !in connections { return; }
      if steer.thread !in threads || threads[steer.thread].metadata.None? { return; }
      out := [SteerEvent(Context(connections[conn], threads[steer.thread].metadata.value), steer, acceptedTurn,
          reason)];
    }

    method IngestTurnSteerResponse(conn: ConnectionId, request: RequestId, turn: TurnId) returns (out: seq<Event>)
      modifies this`turns, this`requests
      ensures Outcome(Contents(), out) == DoSteerReply(old(Contents()), conn, request, turn)
    {
      out := [];
      var key := RequestKey(conn, request);
      var pending := if key in requests then Some(requests[key]) else None;
      requests := requests - {key};
      if pending.None? || !pending.value.TurnSteer? { return; }
      if turn in turns {
        turns := turns[turn := turns[turn].(steers := turns[turn].steers + 1)];
      }
      out := EmitTurnSteerEvent(conn, pending.value, Some(turn), None);
    }

    method IngestErrorResponse(conn: ConnectionId, request: RequestId, reason: Option<string>) returns (out: seq<Event>)
      modifies this`requests
      ensures Outcome(Contents(), out) == DoErrorReply(old(Contents()), conn, request, reason)
    {
      out := [];
      var key := RequestKey(conn, request);
      var pending := if key in requests then Some(requests[key]) else None;
      requests := requests - {key};
      if pending.None? || !pending.value.TurnSteer? { return; }
      out := EmitTurnSteerEvent(conn, pending.value, None, reason);
    }

    method EmitToolItem(key: ItemKey, item: ThreadItem, from: nat, until: nat) returns (out: seq<Event>)
      modifies this`summaries
      ensures ThreadContext(old(Contents()), key.thread).None? ==> out == [] && summaries == old(summaries)
      ensures ThreadContext(old(Contents()), key.thread).Some? ==>
              && summaries == old(summaries) - {key}
              && out == if Terminal(item) then [ToolItemOf(old(Contents()), key, item, from, until)] else []
    {
      out := [];
      var source := ContextOrWarn(key.thread);
      if source.None? { return; }
      if Terminal(item) {
        var summary := if key in summaries then summaries[key] else NO_REVIEWS;
        out := [ToolItem(source.value, key, item, from, until, ObservedDuration(from, until), summary)];
      }
      summaries := summaries - {key};
    }

    method IngestItemCompleted(key: ItemKey, item: ThreadItem, ended: Option<nat>) returns (out: seq<Event>)
      modifies this`turns, this`started, this`summaries
      ensures Outcome(Contents(), out) == DoEndItem(old(Contents()), key, item, ended)
    {
      if key.turn !in turns { return []; }
      turns := turns[key.turn := turns[key.turn].(tools := Counted(turns[key.turn].tools, item))];
      var from := if key in started then Some(started[key]) else None;
      started := started - {key};
      if from.None? { return []; }
      if ended.None? { return []; }
      out := EmitToolItem(key, item, from.value, ended.value);
    }

    method RecordItemReviewSummary(key: ItemKey, review: Review, verdict: Verdict)
      modifies this`summaries
      ensures summaries == old(summaries)[key := Recorded(SummaryOf(old(Contents()), key), review, verdict)]
    {
      var summary := if key in summaries then summaries[key] else NO_REVIEWS;
      summary := summary.(reviews := summary.reviews + 1);
      match verdict.reviewer {
        case Guardian => summary := summary.(guardian := summary.guardian + 1);
        case User => summary := summary.(user := summary.user + 1);
      }
      summary := summary.(outcome := Some(FinalApprovalOutcome(verdict)));
      summary := summary.(permissions := summary.permissions || review.permissions);
      summary := summary.(network := summary.network || review.network);
      summaries := summaries[key := summary];
    }

    method EmitReviewEvent(review: Review, verdict: Verdict, at: nat) returns (out: seq<Event>)
      modifies this`summaries
      ensures Outcome(Contents(), out) == DoJudge(old(Contents()), review, verdict, at)
    {
      out := [];
      if SummaryKey(review).Some? { RecordItemReviewSummary(SummaryKey(review).value, review, verdict); }
      var source := ContextOrWarn(review.thread);
      if source.None? { return; }
      out := [ReviewEvent(source.value, review, verdict, at, ObservedDuration(review.startedAt, at))];
    }

    method IngestServerResponse(request: RequestId, verdict: Verdict, at: nat) returns (out: seq<Event>)
      modifies this`reviews, this`summaries
      ensures Outcome(Contents(), out) == DoResolveReview(old(Contents()), request, verdict, at)
    {
      if request !in reviews { return []; }
      var review := reviews[request];
      reviews := reviews - {request};
      out := EmitReviewEvent(review, verdict, at);
    }

    method EmitThreadInitialized(conn: ConnectionId, thread: ThreadId, metadata: ThreadMetadata, details: nat)
        returns (out: seq<Event>)
      modifies this`threads
      ensures Outcome(Contents(), out) == DoOpenThread(old(Contents()), conn, thread, metadata, details)
    {
      if conn !in connections { return []; }
      threads := threads[thread := ThreadState(Some(conn), Some(metadata))];
      out := [ThreadInitialized(thread, Some(connections[conn]), metadata, details)];
    }

    method IngestSubagentThreadStarted(thread: ThreadId, parent: Option<ThreadId>, metadata: ThreadMetadata,
                                       details: nat) returns (out: seq<Event>)
      modifies this`threads
      ensures Outcome(Contents(), out) == DoSpawn(old(Contents()), thread, parent, metadata, details)
    {
      var parentConn: Option<ConnectionId> := None;
      if parent.Some? && parent.value in threads { parentConn := threads[parent.value].conn; }
      var state := if thread in threads then threads[thread] else ThreadState(None, None);
      if state.metadata.None? { state := state.(metadata := Some(metadata)); }
      if state.conn.None? { state := state.(conn := parentConn); }
      threads := threads[thread := state];
      out := [ThreadInitialized(thread, None, metadata, details)];
    }

    method IngestResponse(op: Op) returns (out: seq<Event>)
      requires op.OpenThread? || op.StartReply? || op.SteerReply? || op.ErrorReply?
      modifies this
      ensures Outcome(Contents(), out) == Apply(old(Contents()), op)
    {
      match op {
        case OpenThread(conn, thread, metadata, details) =>
          out := EmitThreadInitialized(conn, thread, metadata, details);
        case StartReply(conn, request, turn, reading) => out := IngestTurnStartResponse(conn, request, turn, reading);
        case SteerReply(conn, request, turn) => out := IngestTurnSteerResponse(conn, request, turn);
        case ErrorReply(conn, request, reason) => out := IngestErrorResponse(conn, request, reason);
      }
    }

    method IngestReview(op: Op) returns (out: seq<Event>)
      requires op.BeginItem? || op.EndItem? || op.Judge? || op.OpenReview? || op.ResolveReview?
      modifies this
      ensures Outcome(Contents(), out) == Apply(old(Contents()), op)
    {
      out := [];
      match op {
        case BeginItem(key, at) => started := started[key := at];
        case EndItem(key, item, ended) => out := IngestItemCompleted(key, item, ended);
        case Judge(review, verdict, at) => out := EmitReviewEvent(review, verdict, at);
        case OpenReview(request, review) => reviews := reviews[request := review];
        case ResolveReview(request, verdict, at) => out := IngestServerResponse(request, verdict, at);
      }
    }

    method IngestScoped(thread: ThreadId, details: nat) returns (out: seq<Event>)
      ensures out == DoScoped(Contents(), thread, details).out
    {
      var source := ContextOrWarn(thread);
      if source.None? { return []; }
      out := [ScopedEvent(source.value, thread, details)];
    }

    method Perform(op: Op) returns (out: seq<Event>)
      modifies this
      ensures Outcome(Contents(), out) == Apply(old(Contents()), op)
    {
      out := [];
      if op.OpenThread? || op.StartReply? || op.SteerReply? || op.ErrorReply? {
        out := IngestResponse(op);
        return;
      }
      if op.BeginItem? || op.EndItem? || op.Judge? || op.OpenReview? || op.ResolveReview? {
        out := IngestReview(op);
        return;
      }
      match op {
        case Skip =>
        case Connect(conn, connection) => connections := connections[conn := connection];
        case Ask(conn, request, pending) => requests := requests[RequestKey(conn, request) := pending];
        case PatchTurn(turn, patch, emit) => out := IngestTurnPatch(turn, patch, emit);
        case Spawn(thread, parent, metadata, details) =>
          out := IngestSubagentThreadStarted(thread, parent, metadata, details);
        case Scoped(thread, details) => out := IngestScoped(thread, details);
        case Record(records) => out := Records(records);
      }
    }

    /** One fact, as the reducer takes it. */
    method Ingest(f: Fact) returns (out: seq<Event>)
      modifies this
      ensures Outcome(Contents(), out) == Apply(old(Contents()), Decode(f))
    {
      out := Perform(Decode(f));
    }
  }
}
