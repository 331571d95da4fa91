/** Turn events over whole runs: a turn is reported once, when the last of its three parts
    arrives, in whatever order they come; and never more often than any of the parts. */
module TurnEvents {
  import opened Basics
  import opened AnalyticsFacts
  import opened AnalyticsReducer

  // ----- the turn events in a list of events

  function TurnEventsIn(out: seq<Event>, turn: TurnId): (r: seq<Event>) {
    if out == [] then []
    else (if out[0].TurnEvent? && out[0].turn == turn then [out[0]] else []) + TurnEventsIn(out[1..], turn)
  }

  ghost predicate Turnless(out: seq<Event>) {
    forall i :: 0 <= i < |out| ==> !out[i].TurnEvent?
  }

  lemma {:induction false} NoneIn(out: seq<Event>, turn: TurnId)
    requires Turnless(out)
    ensures TurnEventsIn(out, turn) == []
  {
    if out != [] { NoneIn(out[1..], turn); }
  }

  lemma {:induction false} OneIn(e: Event, rest: seq<Event>, turn: TurnId)
    requires e.TurnEvent? && Turnless(rest)
    ensures e.turn == turn ==> TurnEventsIn([e] + rest, turn) == [e]
    ensures e.turn != turn ==> TurnEventsIn([e] + rest, turn) == []
  {
    assert ([e] + rest)[1..] == rest;
    NoneIn(rest, turn);
  }

  // ----- which operations reach a turn

  /** The operation works on this turn's state. */
  predicate Concerns(op: Op, turn: TurnId) {
    || (op.PatchTurn? && op.turn == turn)
    || (op.StartReply? && op.turn == turn)
    || (op.SteerReply? && op.turn == turn)
    || (op.EndItem? && op.key.turn == turn)
  }

  lemma {:induction false} EmitEffect(s: State, turn: TurnId, reading: Reading)
    ensures Ready(s, turn) ==>
            && TurnOf(MaybeEmit(s, turn, reading).state, turn) == BLANK_TURN
            && TurnEventsIn(MaybeEmit(s, turn, reading).out, turn) == [TurnEventOf(s, turn)]
    ensures !Ready(s, turn) ==> MaybeEmit(s, turn, reading) == Outcome(s, [])
  {
    if Ready(s, turn) { OneIn(TurnEventOf(s, turn), AcceptedLineEvents(turn, s.turns[turn], reading), turn); }
  }

  lemma {:induction false} EmitElsewhere(s: State, other: TurnId, reading: Reading, turn: TurnId)
    requires other != turn
    ensures TurnOf(MaybeEmit(s, other, reading).state, turn) == TurnOf(s, turn)
    ensures TurnEventsIn(MaybeEmit(s, other, reading).out, turn) == []
  {
    if Ready(s, other) { OneIn(TurnEventOf(s, other), AcceptedLineEvents(other, s.turns[other], reading), turn); }
  }

  lemma {:induction false} QuietOut(s: State, op: Op)
    requires !op.PatchTurn? && !op.StartReply?
    ensures Turnless(Apply(s, op).out)
  {
  }

  lemma {:induction false} TurnsUntouched(s: State, op: Op)
    requires !op.PatchTurn? && !op.StartReply? && !op.SteerReply? && !op.EndItem?
    ensures Apply(s, op).state.turns == s.turns
  {
  }

  lemma {:induction false} Elsewhere(s: State, op: Op, turn: TurnId)
    requires !Concerns(op, turn)
    ensures TurnOf(Apply(s, op).state, turn) == TurnOf(s, turn)
    ensures turn in Apply(s, op).state.turns <==> turn in s.turns
    ensures TurnEventsIn(Apply(s, op).out, turn) == []
  {
    match op
    case PatchTurn(other, patch, emit) => PatchElsewhere(s, other, patch, emit, turn);
    case StartReply(conn, request, other, reading) => StartElsewhere(s, conn, request, other, reading, turn);
    case SteerReply(_, _, _) => CountingElsewhere(s, op, turn);
    case EndItem(_, _, _) => CountingElsewhere(s, op, turn);
    case _ => TurnsUntouched(s, op); QuietOut(s, op); NoneIn(Apply(s, op).out, turn);
  }

  lemma {:induction false} CountingElsewhere(s: State, op: Op, turn: TurnId)
    requires (op.SteerReply? && op.turn != turn) || (op.EndItem? && op.key.turn != turn)
    ensures var o := Apply(s, op);
            && TurnOf(o.state, turn) == TurnOf(s, turn) && (turn in o.state.turns <==> turn in s.turns) &&
               TurnEventsIn(o.out, turn) == []
  {
    QuietOut(s, op);
    NoneIn(Apply(s, op).out, turn);
  }

  lemma {:induction false} PatchElsewhere(s: State, other: TurnId, patch: Patch, emit: Option<Reading>, turn: TurnId)
    requires other != turn
    ensures var o := DoPatchTurn(s, other, patch, emit);
            && TurnOf(o.state, turn) == TurnOf(s, turn) && (turn in o.state.turns <==> turn in s.turns) &&
               TurnEventsIn(o.out, turn) == []
  {
    if emit.Some? {
      EmitElsewhere(s.(turns := s.turns[other := Patched(TurnOf(s, other), patch)]), other, emit.value, turn);
    }
  }

  lemma {:induction false} StartElsewhere(s: State, conn: ConnectionId, request: RequestId, other: TurnId,
                                          reading: Reading, turn: TurnId)
    requires other != turn
    ensures var o := DoStartReply(s, conn, request, other, reading);
            && TurnOf(o.state, turn) == TurnOf(s, turn) && (turn in o.state.turns <==> turn in s.turns) &&
               TurnEventsIn(o.out, turn) == []
  {
    var key := RequestKey(conn, request);
    if key in s.requests && s.requests[key].TurnStart? {
      var u := s.(requests := s.requests - {key});
      EmitElsewhere(u.(turns := s.turns[other := Begun(s, other, conn, s.requests[key])]), other, reading, turn);
    }
  }

  /** An operation that only counts on the turn: a steer or an item. */
  lemma {:induction false} CountingOp(s: State, op: Op, turn: TurnId)
    requires (op.SteerReply? && op.turn == turn) || (op.EndItem? && op.key.turn == turn)
    ensures var t := TurnOf(Apply(s, op).state, turn);
            t == TurnOf(s, turn).(steers := t.steers, tools := t.tools) && TurnEventsIn(Apply(s, op).out, turn) == []
    ensures turn in Apply(s, op).state.turns <==> turn in s.turns
  {
    QuietOut(s, op);
    NoneIn(Apply(s, op).out, turn);
  }

  predicate MatchesStart(s: State, conn: ConnectionId, request: RequestId) {
    RequestKey(conn, request) in s.requests && s.requests[RequestKey(conn, request)].TurnStart?
  }

  /** The event reports what the turn's state holds. */
  ghost predicate Reports(e: Event, turn: TurnId, t: TurnState) {
    && e.TurnEvent? && e.turn == turn && Complete(t)
    && e.thread == t.thread.value && e.images == t.images.value && e.config == t.config.value &&
       e.completion == t.completion.value
    && e.startedAt == t.startedAt && e.usage == t.usage && e.failure == t.failure
    && e.steers == t.steers && e.tools == t.tools
  }

  /** Either the turn's state is now `put`, or that was complete and has been reported. */
  ghost predicate PutOrReported(put: TurnState, now: TurnState, events: seq<Event>, turn: TurnId) {
    (now == put && events == []) || (now == BLANK_TURN && |events| == 1 && Reports(events[0], turn, put))
  }

  lemma {:induction false} EmitReports(s: State, turn: TurnId, reading: Reading)
    requires turn in s.turns
    ensures var o := MaybeEmit(s, turn, reading);
            PutOrReported(s.turns[turn], TurnOf(o.state, turn), TurnEventsIn(o.out, turn), turn)
  {
    EmitEffect(s, turn, reading);
  }

  lemma {:induction false} PatchReports(s: State, turn: TurnId, patch: Patch, emit: Option<Reading>)
    ensures var o := DoPatchTurn(s, turn, patch, emit);
            PutOrReported(Patched(TurnOf(s, turn), patch), TurnOf(o.state, turn), TurnEventsIn(o.out, turn), turn)
  {
    if emit.Some? { EmitReports(s.(turns := s.turns[turn := Patched(TurnOf(s, turn), patch)]), turn, emit.value); }
  }

  lemma {:induction false} StartReports(s: State, conn: ConnectionId, request: RequestId, turn: TurnId,
                                        reading: Reading)
    ensures var o := DoStartReply(s, conn, request, turn, reading);
            var put := if MatchesStart(s, conn, request)
                then Begun(s, turn, conn, s.requests[RequestKey(conn, request)]) else TurnOf(s, turn);
            PutOrReported(put, TurnOf(o.state, turn), TurnEventsIn(o.out, turn), turn)
    ensures !MatchesStart(s, conn, request) ==>
            TurnEventsIn(DoStartReply(s, conn, request, turn, reading).out, turn) == []
  {
    if MatchesStart(s, conn, request) {
      var key := RequestKey(conn, request);
      EmitReports(s.(requests := s.requests - {key}, turns := s.turns[turn := Begun(s, turn, conn, s.requests[key])]),
          turn, reading);
    }
  }

  // ----- never more than its parts

  function One(b: bool): nat {
    if b then 1 else 0
  }

  predicate IsCompletion(op: Op, turn: TurnId) {
    op.PatchTurn? && op.turn == turn && op.patch.SetCompletion?
  }

  predicate IsConfig(op: Op, turn: TurnId) {
    op.PatchTurn? && op.turn == turn && op.patch.SetConfig?
  }

  /** A start response that finds its turn-start request pending. */
  predicate IsMatchedStart(s: State, op: Op, turn: TurnId) {
    op.StartReply? && op.turn == turn && MatchesStart(s, op.conn, op.request)
  }

  function Completions(ops: seq<Op>, turn: TurnId): (r: nat) {
    if ops == [] then 0 else Completions(ops[..|ops| - 1], turn) + One(IsCompletion(ops[|ops| - 1], turn))
  }

  function Configs(ops: seq<Op>, turn: TurnId): (r: nat) {
    if ops == [] then 0 else Configs(ops[..|ops| - 1], turn) + One(IsConfig(ops[|ops| - 1], turn))
  }

  function MatchedStarts(ops: seq<Op>, turn: TurnId): (r: nat) {
    if ops == [] then 0
    else MatchedStarts(ops[..|ops| - 1], turn) + One(IsMatchedStart(After(ops[..|ops| - 1]), ops[|ops| - 1], turn))
  }

  /** The turn events for `turn` put out over a run from nothing. */
  function Reported(ops: seq<Op>, turn: TurnId): (r: seq<Event>) {
    if ops == [] then [] else Reported(ops[..|ops| - 1], turn) + TurnEventsIn(LastOut(ops), turn)
  }

  lemma {:induction false} PatchBound(s: State, turn: TurnId, patch: Patch, emit: Option<Reading>)
    ensures var o := DoPatchTurn(s, turn, patch, emit);
            var was, now, n := TurnOf(s, turn), TurnOf(o.state, turn), |TurnEventsIn(o.out, turn)|;
            && n + One(now.completion.Some?) <= One(was.completion.Some?) + One(patch.SetCompletion?)
            && n + One(now.config.Some?) <= One(was.config.Some?) + One(patch.SetConfig?)
            && n + One(now.conn.Some?) <= One(was.conn.Some?)
  {
    PatchReports(s, turn, patch, emit);
  }

  lemma {:induction false} StartBound(s: State, conn: ConnectionId, request: RequestId, turn: TurnId, reading: Reading)
    ensures var o := DoStartReply(s, conn, request, turn, reading);
            var was, now, n := TurnOf(s, turn), TurnOf(o.state, turn), |TurnEventsIn(o.out, turn)|;
            && n + One(now.completion.Some?) <= One(was.completion.Some?)
            && n + One(now.config.Some?) <= One(was.config.Some?)
            && n + One(now.conn.Some?) <= One(was.conn.Some?) +
               One(IsMatchedStart(s, StartReply(conn, request, turn, reading), turn))
  {
    StartReports(s, conn, request, turn, reading);
  }

  lemma {:induction false} StepBound(s: State, op: Op, turn: TurnId)
    ensures var o := Apply(s, op);
            var was, now, n := TurnOf(s, turn), TurnOf(o.state, turn), |TurnEventsIn(o.out, turn)|;
            && n + One(now.completion.Some?) <= One(was.completion.Some?) + One(IsCompletion(op, turn))
            && n + One(now.config.Some?) <= One(was.config.Some?) + One(IsConfig(op, turn))
            && n + One(now.conn.Some?) <= One(was.conn.Some?) + One(IsMatchedStart(s, op, turn))
  {
    if !Concerns(op, turn) {
      Elsewhere(s, op, turn);
    } else if op.PatchTurn? {
      PatchBound(s, turn, op.patch, op.emit);
    } else if op.StartReply? {
      StartBound(s, op.conn, op.request, turn, op.reading);
    } else {
      CountingOp(s, op, turn);
    }
  }

  lemma {:induction false} RunBound(ops: seq<Op>, turn: TurnId)
    ensures var now, n := TurnOf(After(ops), turn), |Reported(ops, turn)|;
            && n + One(now.completion.Some?) <= Completions(ops, turn)
            && n + One(now.config.Some?) <= Configs(ops, turn)
            && n + One(now.conn.Some?) <= MatchedStarts(ops, turn)
  {
    if ops != [] {
      RunBound(ops[..|ops| - 1], turn);
      StepBound(After(ops[..|ops| - 1]), ops[|ops| - 1], turn);
    }
  }

  /** Over any run, a turn is reported no more often than it completes, than its config is
      resolved, or than its start is matched with its request. */
  lemma {:induction false} ReportedNoMoreThanParts(ops: seq<Op>, turn: TurnId)
    ensures |Reported(ops, turn)| <= Completions(ops, turn)
    ensures |Reported(ops, turn)| <= Configs(ops, turn)
    ensures |Reported(ops, turn)| <= MatchedStarts(ops, turn)
  {
    RunBound(ops, turn);
  }

  // ----- once, at the last of the three

  datatype Part = Response | Resolved | Finished

  /** A turn being started: the pending request, what it and the config agree on, the config
      and the completion that are to come, and, if it is to stay as it is, what the connection
      was initialised with. */
  datatype Starting = Starting(
    conn: ConnectionId,
    request: RequestId,
    turn: TurnId,
    thread: ThreadId,
    images: nat,
    config: Config,
    completion: Completion,
    connection: Option<Connection>)

  function PartOf(op: Op, x: Starting): Option<Part> {
    if op.StartReply? && op.conn == x.conn && op.request == x.request && op.turn == x.turn then Some(Response)
    else if IsConfig(op, x.turn) && op.patch == SetConfig(x.thread, x.images, x.config) &&
        op.emit.Some? then Some(Resolved)
    else if IsCompletion(op, x.turn) && op.patch == SetCompletion(x.completion) && op.emit.Some? then Some(Finished)
    else None
  }

  predicate Reinitialises(op: Op, x: Starting) {
    x.connection.Some? && op.Connect? && op.conn == x.conn && op.connection != x.connection.value
  }

  predicate UsesRequest(op: Op, conn: ConnectionId, request: RequestId) {
    (op.Ask? || op.StartReply? || op.SteerReply? || op.ErrorReply?) && op.conn == conn && op.request == request
  }

  /** The operation brings no part of the turn, leaves its pending request alone, does not
      move the turn to another thread, and leaves the connection as it is to stay. */
  predicate Bystander(op: Op, x: Starting) {
    && !Reinitialises(op, x)
    && !UsesRequest(op, x.conn, x.request)
    && !(op.StartReply? && op.turn == x.turn)
    && !IsConfig(op, x.turn) && !IsCompletion(op, x.turn)
    && (op.PatchTurn? && op.turn == x.turn && (op.patch.SetUsage? || op.patch.SetDiff?) ==> op.patch.thread == x.thread)
  }

  ghost predicate Tame(ops: seq<Op>, x: Starting) {
    forall i :: 0 <= i < |ops| ==> PartOf(ops[i], x).Some? || Bystander(ops[i], x)
  }

  function Parts(ops: seq<Op>, x: Starting): (r: seq<Part>) {
    if ops == [] then []
    else
      var p := PartOf(ops[|ops| - 1], x);
      Parts(ops[..|ops| - 1], x) + (if p.Some? then [p.value] else [])
  }

  ghost predicate Distinct(parts: seq<Part>) {
    forall i, j :: 0 <= i < j < |parts| ==> parts[i] != parts[j]
  }

  /** The context of the turn's event is known. */
  ghost predicate Known(s: State, x: Starting) {
    && x.conn in s.connections && MetadataOf(s, x.thread).Some?
    && (x.connection.Some? ==> s.connections[x.conn] == x.connection.value)
  }

  ghost predicate RequestPending(s: State, x: Starting) {
    var key := RequestKey(x.conn, x.request);
    key in s.requests && s.requests[key] == TurnStart(x.thread, x.images)
  }

  /** What the turn's state holds when `parts` have come. */
  ghost predicate Holds(t: TurnState, x: Starting, parts: seq<Part>) {
    && (t.conn == if Response in parts then Some(x.conn) else None)
    && (t.config == if Resolved in parts then Some(x.config) else None)
    && (t.completion == if Finished in parts then Some(x.completion) else None)
    && (Response in parts || Resolved in parts ==> t.thread == Some(x.thread) && t.images == Some(x.images))
  }

  ghost predicate Waiting(s: State, x: Starting, parts: seq<Part>) {
    Known(s, x) && (Response !in parts ==> RequestPending(s, x)) && Holds(TurnOf(s, x.turn), x, parts)
  }

  lemma {:induction false} ConnectionsKept(s: State, op: Op)
    requires !op.Connect?
    ensures Apply(s, op).state.connections == s.connections
  {
  }

  lemma {:induction false} ThreadsKept(s: State, op: Op)
    requires !op.OpenThread? && !op.Spawn?
    ensures Apply(s, op).state.threads == s.threads
  {
  }

  lemma {:induction false} RequestsKept(s: State, op: Op)
    requires !op.Ask? && !op.StartReply? && !op.SteerReply? && !op.ErrorReply?
    ensures Apply(s, op).state.requests == s.requests
  {
  }

  /** A request goes only by a reply to it. */
  lemma {:induction false} RequestTaken(s: State, op: Op)
    requires op.StartReply? || op.SteerReply? || op.ErrorReply?
    ensures Apply(s, op).state.requests == s.requests - {RequestKey(op.conn, op.request)}
  {
  }

  lemma {:induction false} StaysKnown(s: State, op: Op, x: Starting)
    requires Known(s, x) && !Reinitialises(op, x)
    ensures Known(Apply(s, op).state, x)
  {
    if !op.Connect? { ConnectionsKept(s, op); }
    if !op.OpenThread? && !op.Spawn? { ThreadsKept(s, op); }
  }

  lemma {:induction false} StaysPending(s: State, op: Op, x: Starting)
    requires RequestPending(s, x) && !UsesRequest(op, x.conn, x.request)
    ensures RequestPending(Apply(s, op).state, x)
  {
    if op.StartReply? || op.SteerReply? || op.ErrorReply? {
      RequestTaken(s, op);
    } else if !op.Ask? {
      RequestsKept(s, op);
    }
  }

  lemma {:induction false} SomePartMissing(parts: seq<Part>)
    requires |parts| < 3
    ensures Response !in parts || Resolved !in parts || Finished !in parts
  {
  }

  lemma {:induction false} AllPartsThere(parts: seq<Part>)
    requires |parts| == 3 && Distinct(parts)
    ensures Response in parts && Resolved in parts && Finished in parts
  {
    assert parts[0] != parts[1] && parts[0] != parts[2] && parts[1] != parts[2];
    assert parts[0] in parts && parts[1] in parts && parts[2] in parts;
  }

  /** A bystander's patch keeps what the turn holds. */
  lemma {:induction false} BystanderPatch(s: State, x: Starting, parts: seq<Part>, patch: Patch, emit: Option<Reading>)
    requires Holds(TurnOf(s, x.turn), x, parts) && |parts| < 3 && Bystander(PatchTurn(x.turn, patch, emit), x)
    ensures Holds(TurnOf(DoPatchTurn(s, x.turn, patch, emit).state, x.turn), x, parts)
    ensures TurnEventsIn(DoPatchTurn(s, x.turn, patch, emit).out, x.turn) == []
  {
    var t := s.(turns := s.turns[x.turn := Patched(TurnOf(s, x.turn), patch)]);
    SomePartMissing(parts);
    assert Holds(TurnOf(t, x.turn), x, parts);
    if emit.Some? { EmitEffect(t, x.turn, emit.value); }
  }

  lemma {:induction false} BystanderHolds(s: State, op: Op, x: Starting, parts: seq<Part>)
    requires Holds(TurnOf(s, x.turn), x, parts) && |parts| < 3 && Bystander(op, x)
    ensures Holds(TurnOf(Apply(s, op).state, x.turn), x, parts) && TurnEventsIn(Apply(s, op).out, x.turn) == []
  {
    if !Concerns(op, x.turn) {
      Elsewhere(s, op, x.turn);
    } else if op.PatchTurn? {
      BystanderPatch(s, x, parts, op.patch, op.emit);
    } else {
      CountingOp(s, op, x.turn);
    }
  }

  lemma {:induction false} BystanderWaits(s: State, op: Op, x: Starting, parts: seq<Part>)
    requires Waiting(s, x, parts) && |parts| < 3 && Bystander(op, x)
    ensures Waiting(Apply(s, op).state, x, parts) && TurnEventsIn(Apply(s, op).out, x.turn) == []
  {
    BystanderHolds(s, op, x, parts);
    StaysKnown(s, op, x);
    if Response !in parts { StaysPending(s, op, x); }
  }

  /** What a part does: it joins the others, and the third makes the event. */
  ghost predicate Joins(o: Outcome, x: Starting, parts: seq<Part>) {
    if |parts| < 3
    then Waiting(o.state, x, parts) && TurnEventsIn(o.out, x.turn) == []
    else Holds(TurnOf(o.state, x.turn), x, []) && TurnEventsFor(TurnEventsIn(o.out, x.turn), x)
  }

  /** One event, which carries what came with the three parts and the connection's client. */
  ghost predicate TurnEventsFor(events: seq<Event>, x: Starting) {
    && |events| == 1 && events[0].TurnEvent? && events[0].turn == x.turn
    && events[0].thread == x.thread && events[0].images == x.images
    && events[0].config == x.config && events[0].completion == x.completion
    && (x.connection.Some? ==> events[0].source.connection == x.connection.value)
  }

  lemma {:induction false} EmitJoins(s: State, x: Starting, parts: seq<Part>, reading: Reading)
    requires Waiting(s, x, parts) && |parts| <= 3 && Distinct(parts) && x.turn in s.turns
    ensures Joins(MaybeEmit(s, x.turn, reading), x, parts)
  {
    EmitEffect(s, x.turn, reading);
    if |parts| < 3 { SomePartMissing(parts); } else { AllPartsThere(parts); }
  }

  lemma {:induction false} ResponseJoins(s: State, x: Starting, parts: seq<Part>, reading: Reading)
    requires Waiting(s, x, parts) && Response !in parts && |parts| < 3 && Distinct(parts + [Response])
    ensures Joins(DoStartReply(s, x.conn, x.request, x.turn, reading), x, parts + [Response])
  {
    var key := RequestKey(x.conn, x.request);
    var u := s.(requests := s.requests - {key}, turns := s.turns[x.turn := Begun(s, x.turn, x.conn, s.requests[key])]);
    assert Waiting(u, x, parts + [Response]);
    EmitJoins(u, x, parts + [Response], reading);
  }

  lemma {:induction false} PatchJoins(s: State, x: Starting, parts: seq<Part>, patch: Patch, reading: Reading)
    requires Waiting(s, x, parts) && |parts| < 3
    requires var part := PartOf(PatchTurn(x.turn, patch, Some(reading)), x);
             part.Some? && part.value !in parts && Distinct(parts + [part.value])
    ensures Joins(DoPatchTurn(s, x.turn, patch, Some(reading)), x,
            parts + [PartOf(PatchTurn(x.turn, patch, Some(reading)), x).value])
  {
    var part := PartOf(PatchTurn(x.turn, patch, Some(reading)), x).value;
    var t := s.(turns := s.turns[x.turn := Patched(TurnOf(s, x.turn), patch)]);
    assert Waiting(t, x, parts + [part]);
    EmitJoins(t, x, parts + [part], reading);
  }

  lemma {:induction false} PartJoins(s: State, op: Op, x: Starting, parts: seq<Part>)
    requires Waiting(s, x, parts) && |parts| < 3
    requires PartOf(op, x).Some? && PartOf(op, x).value !in parts && Distinct(parts + [PartOf(op, x).value])
    ensures Joins(Apply(s, op), x, parts + [PartOf(op, x).value])
  {
    if op.StartReply? {
      ResponseJoins(s, x, parts, op.reading);
    } else {
      PatchJoins(s, x, parts, op.patch, op.emit.value);
    }
  }

  function From(s: State, ops: seq<Op>): State {
    if ops == [] then s else Apply(From(s, ops[..|ops| - 1]), ops[|ops| - 1]).state
  }

  /** The turn events for `turn` put out over a run from `s`. */
  function ReportedFrom(s: State, ops: seq<Op>, turn: TurnId): (r: seq<Event>) {
    if ops == [] then []
    else
      var before := ops[..|ops| - 1];
      ReportedFrom(s, before, turn) + TurnEventsIn(Apply(From(s, before), ops[|ops| - 1]).out, turn)
  }

  /** The turn waits for its parts, or has been reported once and holds none. */
  ghost predicate Progress(s: State, x: Starting, parts: seq<Part>, reported: seq<Event>) {
    if |parts| < 3 then Waiting(s, x, parts) && reported == []
    else Holds(TurnOf(s, x.turn), x, []) && TurnEventsFor(reported, x)
  }

  lemma {:induction false} ProgressStep(s: State, op: Op, x: Starting, parts: seq<Part>, reported: seq<Event>)
    requires Progress(s, x, parts, reported) && Distinct(parts) && |parts| <= 3
    requires PartOf(op, x).Some? ==> |parts| < 3 && PartOf(op, x).value !in parts
    requires PartOf(op, x).None? ==> Bystander(op, x)
    ensures PartOf(op, x).Some? ==>
            Progress(Apply(s, op).state, x, parts + [PartOf(op, x).value],
                reported + TurnEventsIn(Apply(s, op).out, x.turn))
    ensures PartOf(op, x).None? ==>
            Progress(Apply(s, op).state, x, parts, reported + TurnEventsIn(Apply(s, op).out, x.turn))
  {
    if PartOf(op, x).Some? {
      PartJoins(s, op, x, parts);
      assert [] + TurnEventsIn(Apply(s, op).out, x.turn) == TurnEventsIn(Apply(s, op).out, x.turn);
    } else if |parts| < 3 {
      BystanderWaits(s, op, x, parts);
    } else {
      BystanderHolds(s, op, x, []);
      assert reported + [] == reported;
    }
  }

  lemma {:induction false} PartsSoFar(ops: seq<Op>, x: Starting)
    requires ops != [] && Distinct(Parts(ops, x))
    ensures Distinct(Parts(ops[..|ops| - 1], x)) && |Parts(ops[..|ops| - 1], x)| <= |Parts(ops, x)|
    ensures var p := PartOf(ops[|ops| - 1], x);
            p.Some? ==> p.value !in Parts(ops[..|ops| - 1], x) && |Parts(ops[..|ops| - 1], x)| < |Parts(ops, x)|
  {
    var all, so := Parts(ops, x), Parts(ops[..|ops| - 1], x);
    assert so <= all;
    forall i, j | 0 <= i < j < |so| ensures so[i] != so[j] { assert all[i] != all[j]; }
    var p := PartOf(ops[|ops| - 1], x);
    if p.Some? {
      forall i | 0 <= i < |so| ensures so[i] != p.value { assert all[i] != all[|so|]; }
    }
  }

  lemma {:induction false} ProgressRun(s: State, ops: seq<Op>, x: Starting)
    requires Waiting(s, x, []) && Tame(ops, x) && Distinct(Parts(ops, x)) && |Parts(ops, x)| <= 3
    ensures Progress(From(s, ops), x, Parts(ops, x), ReportedFrom(s, ops, x.turn))
  {
    if ops != [] {
      var before, op := ops[..|ops| - 1], ops[|ops| - 1];
      var parts := Parts(before, x);
      PartsSoFar(ops, x);
      ProgressRun(s, before, x);
      ProgressStep(From(s, before), op, x, parts, ReportedFrom(s, before, x.turn));
    }
  }

  lemma {:induction false} FourRepeat(parts: seq<Part>)
    requires |parts| > 3
    ensures !Distinct(parts)
  {
    if parts[0] != parts[1] && parts[0] != parts[2] && parts[0] != parts[3] && parts[1] != parts[2] &&
        parts[1] != parts[3] {
      assert parts[2] == parts[3];
    }
  }

  lemma {:induction false} AtMostThree(parts: seq<Part>)
    requires Distinct(parts)
    ensures |parts| <= 3
  {
    if |parts| > 3 { FourRepeat(parts); }
  }

  /** With the connection initialised, the thread known and the start request pending, let
      the start response, the resolved config and the completion each come at most once, in
      any order, amid bystanders. Then the turn is reported exactly once if all three have
      come and not at all before: so, taking the run at each of its prefixes, at the last of
      the three, with the agreed thread and image count. */
  lemma {:induction false} ReportedOnceAtLastPart(s: State, ops: seq<Op>, x: Starting)
    requires Known(s, x) && RequestPending(s, x) && Holds(TurnOf(s, x.turn), x, [])
    requires Tame(ops, x) && Distinct(Parts(ops, x))
    ensures |Parts(ops, x)| < 3 ==> ReportedFrom(s, ops, x.turn) == []
    ensures |Parts(ops, x)| == 3 ==> TurnEventsFor(ReportedFrom(s, ops, x.turn), x)
    ensures |Parts(ops, x)| <= 3
  {
    AtMostThree(Parts(ops, x));
    ProgressRun(s, ops, x);
  }
}
