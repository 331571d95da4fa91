/** What the reducer's maps hold, told from the history alone: the operations so far and the
    turn events put out. */
module FactHistory {
  import opened Basics
  import opened AnalyticsFacts
  import opened AnalyticsReducer
  import opened TurnEvents

  // ----- requests

  predicate Replies(op: Op, key: RequestKey) {
    (op.StartReply? || op.SteerReply? || op.ErrorReply?) && RequestKey(op.conn, op.request) == key
  }

  /** The request waiting for a reply: the last one asked, unless replied to since. */
  function RequestOf(ops: seq<Op>, key: RequestKey): (r: Option<PendingRequest>) {
    if ops == [] then None
    else
      var op := ops[|ops| - 1];
      if op.Ask? && RequestKey(op.conn, op.request) == key then Some(op.pending)
      else if Replies(op, key) then None
      else RequestOf(ops[..|ops| - 1], key)
  }

  function RequestIn(s: State, key: RequestKey): Option<PendingRequest> {
    if key in s.requests then Some(s.requests[key]) else None
  }

  lemma {:induction false} RequestIsHistory(ops: seq<Op>, key: RequestKey)
    ensures RequestIn(After(ops), key) == RequestOf(ops, key)
  {
    if ops != [] {
      var before, op := ops[..|ops| - 1], ops[|ops| - 1];
      RequestIsHistory(before, key);
      if op.StartReply? || op.SteerReply? || op.ErrorReply? {
        RequestTaken(After(before), op);
      } else if !op.Ask? {
        RequestsKept(After(before), op);
      }
    }
  }

  // ----- turns

  /** The operation makes the turn's state, if there is none. */
  predicate Makes(ops: seq<Op>, op: Op, turn: TurnId) {
    || (op.PatchTurn? && op.turn == turn)
    || (op.StartReply? && op.turn == turn && RequestOf(ops, RequestKey(op.conn, op.request)).Some?
        && RequestOf(ops, RequestKey(op.conn, op.request)).value.TurnStart?)
  }

  /** The turn's state was made, and the turn not reported since. */
  predicate Live(ops: seq<Op>, turn: TurnId) {
    ops != [] && TurnEventsIn(LastOut(ops), turn) == []
    && (Makes(ops[..|ops| - 1], ops[|ops| - 1], turn) || Live(ops[..|ops| - 1], turn))
  }

  lemma {:induction false} EmitLeaves(s: State, turn: TurnId, reading: Reading)
    requires turn in s.turns
    ensures var o := MaybeEmit(s, turn, reading); turn in o.state.turns <==> TurnEventsIn(o.out, turn) == []
  {
    EmitEffect(s, turn, reading);
  }

  lemma {:induction false} PatchLeaves(s: State, turn: TurnId, patch: Patch, emit: Option<Reading>)
    ensures var o := DoPatchTurn(s, turn, patch, emit); turn in o.state.turns <==> TurnEventsIn(o.out, turn) == []
  {
    if emit.Some? { EmitLeaves(s.(turns := s.turns[turn := Patched(TurnOf(s, turn), patch)]), turn, emit.value); }
  }

  lemma {:induction false} StartLeaves(s: State, conn: ConnectionId, request: RequestId, turn: TurnId, reading: Reading)
    ensures var o := DoStartReply(s, conn, request, turn, reading);
            && (MatchesStart(s, conn, request) ==> (turn in o.state.turns <==> TurnEventsIn(o.out, turn) == []))
            && (!MatchesStart(s, conn, request) ==>
               (turn in o.state.turns <==> turn in s.turns) && TurnEventsIn(o.out, turn) == [])
  {
    if MatchesStart(s, conn, request) {
      var key := RequestKey(conn, request);
      EmitLeaves(s.(requests := s.requests - {key}, turns := s.turns[turn := Begun(s, turn, conn, s.requests[key])]),
          turn, reading);
    }
  }

  lemma {:induction false} LiveIsHistory(ops: seq<Op>, turn: TurnId)
    ensures turn in After(ops).turns <==> Live(ops, turn)
  {
    if ops != [] {
      var before, op := ops[..|ops| - 1], ops[|ops| - 1];
      LiveIsHistory(before, turn);
      if op.StartReply? { RequestIsHistory(before, RequestKey(op.conn, op.request)); }
      LiveStep(After(before), op, turn);
    }
  }

  lemma {:induction false} LiveStep(s: State, op: Op, turn: TurnId)
    ensures var o := Apply(s, op);
            if (op.PatchTurn? && op.turn == turn) || IsMatchedStart(s, op, turn)
            then turn in o.state.turns <==> TurnEventsIn(o.out, turn) == []
            else (turn in o.state.turns <==> turn in s.turns) && TurnEventsIn(o.out, turn) == []
  {
    if !Concerns(op, turn) {
      Elsewhere(s, op, turn);
    } else if op.PatchTurn? {
      PatchLeaves(s, turn, op.patch, op.emit);
    } else if op.StartReply? {
      StartLeaves(s, op.conn, op.request, turn, op.reading);
    } else {
      CountingOp(s, op, turn);
    }
  }

  // ----- items

  /** When the item was started, unless it was completed since with its turn live. */
  function StartOf(ops: seq<Op>, key: ItemKey): (r: Option<nat>) {
    if ops == [] then None
    else
      var before, op := ops[..|ops| - 1], ops[|ops| - 1];
      if op.BeginItem? && op.key == key then Some(op.at)
      else if op.EndItem? && op.key == key && Live(before, key.turn) then None
      else StartOf(before, key)
  }

  function StartIn(s: State, key: ItemKey): Option<nat> {
    if key in s.started then Some(s.started[key]) else None
  }

  lemma {:induction false} StartedKept(s: State, op: Op)
    requires !op.BeginItem? && !op.EndItem?
    ensures Apply(s, op).state.started == s.started
  {
  }

  lemma {:induction false} StartTaken(s: State, op: Op)
    requires op.EndItem?
    ensures Apply(s, op).state.started == if op.key.turn in s.turns then s.started - {op.key} else s.started
  {
  }

  lemma {:induction false} StartIsHistory(ops: seq<Op>, key: ItemKey)
    ensures StartIn(After(ops), key) == StartOf(ops, key)
  {
    if ops != [] {
      var before, op := ops[..|ops| - 1], ops[|ops| - 1];
      StartIsHistory(before, key);
      LiveIsHistory(before, key.turn);
      if op.EndItem? {
        StartTaken(After(before), op);
      } else if !op.BeginItem? {
        StartedKept(After(before), op);
      }
    }
  }

  // ----- connections and threads

  predicate Connected(ops: seq<Op>, conn: ConnectionId) {
    exists i :: 0 <= i < |ops| && ops[i].Connect? && ops[i].conn == conn
  }

  lemma {:induction false} ConnectedSnoc(ops: seq<Op>, conn: ConnectionId)
    requires ops != []
    ensures var before, op := ops[..|ops| - 1], ops[|ops| - 1];
            Connected(ops, conn) <==> Connected(before, conn) || (op.Connect? && op.conn == conn)
  {
    var before := ops[..|ops| - 1];
    if i :| 0 <= i < |ops| && ops[i].Connect? && ops[i].conn == conn && i < |before| { assert before[i] == ops[i]; }
    if i :| 0 <= i < |before| && before[i].Connect? && before[i].conn == conn { assert ops[i] == before[i]; }
  }

  lemma {:induction false} ConnectedIsHistory(ops: seq<Op>, conn: ConnectionId)
    ensures conn in After(ops).connections <==> Connected(ops, conn)
  {
    if ops != [] {
      var before, op := ops[..|ops| - 1], ops[|ops| - 1];
      ConnectedIsHistory(before, conn);
      ConnectedSnoc(ops, conn);
      if !op.Connect? { ConnectionsKept(After(before), op); }
    }
  }

  const NO_THREAD := ThreadState(None, None)

  /** What is known of a thread: the last opening of it on a connected connection, or else its
      first spawning, which takes the connection its parent then had. */
  function ThreadOf(ops: seq<Op>, thread: ThreadId): (r: ThreadState) {
    if ops == [] then NO_THREAD
    else
      var before, op := ops[..|ops| - 1], ops[|ops| - 1];
      if op.OpenThread? && op.thread == thread && Connected(before, op.conn)
          then ThreadState(Some(op.conn), Some(op.metadata))
      else
        var was := ThreadOf(before, thread);
        if op.Spawn? && op.thread == thread then Spawned(was,
            if op.parent.Some? then ThreadOf(before, op.parent.value).conn else None, op.metadata)
        else was
  }

  function Spawned(was: ThreadState, parent: Option<ConnectionId>, metadata: ThreadMetadata): ThreadState {
    ThreadState(if was.conn.Some? then was.conn else parent,
        if was.metadata.Some? then was.metadata else Some(metadata))
  }

  function ThreadIn(s: State, thread: ThreadId): ThreadState {
    if thread in s.threads then s.threads[thread] else NO_THREAD
  }

  lemma {:induction false} SpawnEffect(s: State, op: Op, thread: ThreadId)
    requires op.Spawn?
    ensures ThreadIn(Apply(s, op).state, thread)
            == if op.thread == thread
               then Spawned(ThreadIn(s, thread), if op.parent.Some? then ThreadIn(s, op.parent.value).conn else None,
                   op.metadata)
               else ThreadIn(s, thread)
  {
  }

  lemma {:induction false} ThreadIsHistory(ops: seq<Op>, thread: ThreadId)
    ensures ThreadIn(After(ops), thread) == ThreadOf(ops, thread)
  {
    if ops != [] {
      var before, op := ops[..|ops| - 1], ops[|ops| - 1];
      ThreadIsHistory(before, thread);
      if op.OpenThread? {
        ConnectedIsHistory(before, op.conn);
      } else if op.Spawn? {
        SpawnEffect(After(before), op, thread);
        if op.parent.Some? { ThreadIsHistory(before, op.parent.value); }
      } else {
        ThreadsKept(After(before), op);
      }
    }
  }

  /** The thread's connection and metadata are known. */
  predicate InContext(ops: seq<Op>, thread: ThreadId) {
    var t := ThreadOf(ops, thread);
    t.conn.Some? && Connected(ops, t.conn.value) && t.metadata.Some?
  }

  lemma {:induction false} ContextIsHistory(ops: seq<Op>, thread: ThreadId)
    ensures ThreadContext(After(ops), thread).Some? <==> InContext(ops, thread)
  {
    ThreadIsHistory(ops, thread);
    var t := ThreadOf(ops, thread);
    if t.conn.Some? { ConnectedIsHistory(ops, t.conn.value); }
  }
}
