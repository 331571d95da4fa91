/** Facts about disjoint connections, threads, turns and server requests do not see each
    other: however two such streams are interleaved, each causes the events it causes alone. */
module ReducerIsolation {
  import opened Basics
  import opened AnalyticsFacts
  import opened AnalyticsReducer

  datatype Ids = Ids(conns: set<ConnectionId>, threads: set<ThreadId>, turns: set<TurnId>, reviews: set<RequestId>)

  const NO_IDS := Ids({}, {}, {}, {})

  function PatchThreads(p: Patch): set<ThreadId> {
    match p
    case SetConfig(thread, _, _) => {thread}
    case SetUsage(thread, _) => {thread}
    case SetFailure(thread, _) => {thread}
    case SetStarted(_) => {}
    case SetDiff(thread, _) => {thread}
    case SetCompletion(_) => {}
  }

  /** The ids an operation names. */
  function Mentioned(op: Op): Ids {
    match op
    case Skip => NO_IDS
    case Connect(conn, _) => Ids({conn}, {}, {}, {})
    case Ask(conn, _, pending) => Ids({conn}, {pending.thread}, {}, {})
    case OpenThread(conn, thread, _, _) => Ids({conn}, {thread}, {}, {})
    case StartReply(conn, _, turn, _) => Ids({conn}, {}, {turn}, {})
    case SteerReply(conn, _, turn) => Ids({conn}, {}, {turn}, {})
    case ErrorReply(conn, _, _) => Ids({conn}, {}, {}, {})
    case PatchTurn(turn, patch, _) => Ids({}, PatchThreads(patch), {turn}, {})
    case BeginItem(key, _) => Ids({}, {key.thread}, {key.turn}, {})
    case EndItem(key, _, _) => Ids({}, {key.thread}, {key.turn}, {})
    case Judge(review, _, _) => Ids({}, {review.thread}, {review.turn}, {})
    case OpenReview(request, review) => Ids({}, {review.thread}, {review.turn}, {request})
    case ResolveReview(request, _, _) => Ids({}, {}, {}, {request})
    case Spawn(thread, parent, _, _) => Ids({}, {thread} + (if parent.Some? then {parent.value} else {}), {}, {})
    case Scoped(thread, _) => Ids({}, {thread}, {}, {})
    case Record(_) => NO_IDS
  }

  predicate Within(a: Ids, own: Ids) {
    a.conns <= own.conns && a.threads <= own.threads && a.turns <= own.turns && a.reviews <= own.reviews
  }

  predicate Apart(a: Ids, b: Ids) {
    a.conns !! b.conns && a.threads !! b.threads && a.turns !! b.turns && a.reviews !! b.reviews
  }

  // ----- agreement on what is owned

  ghost predicate Same<K, V>(m: map<K, V>, n: map<K, V>, k: K) {
    (k in m <==> k in n) && (k in m ==> m[k] == n[k])
  }

  ghost predicate SameOn<K(!new), V>(m: map<K, V>, n: map<K, V>, own: set<K>) {
    forall k :: k in own ==> Same(m, n, k)
  }

  ghost predicate SameRequests(m: map<RequestKey, PendingRequest>, n: map<RequestKey, PendingRequest>,
                               conns: set<ConnectionId>) {
    forall k: RequestKey :: k.conn in conns ==> Same(m, n, k)
  }

  ghost predicate SameItems<V>(m: map<ItemKey, V>, n: map<ItemKey, V>, threads: set<ThreadId>) {
    forall k: ItemKey :: k.thread in threads ==> Same(m, n, k)
  }

  /** `s` and `t` hold the same about everything in `own`. */
  ghost predicate Alike(s: State, t: State, own: Ids) {
    && SameOn(s.connections, t.connections, own.conns)
    && SameRequests(s.requests, t.requests, own.conns)
    && SameOn(s.threads, t.threads, own.threads)
    && SameOn(s.turns, t.turns, own.turns)
    && SameItems(s.started, t.started, own.threads)
    && SameItems(s.summaries, t.summaries, own.threads)
    && SameOn(s.reviews, t.reviews, own.reviews)
  }

  ghost predicate ThreadsClosed(threads: map<ThreadId, ThreadState>, own: Ids) {
    forall k :: k in threads && k in own.threads && threads[k].conn.Some? ==> threads[k].conn.value in own.conns
  }

  ghost predicate TurnClosed(t: TurnState, own: Ids) {
    (t.conn.Some? ==> t.conn.value in own.conns) && (t.thread.Some? ==> t.thread.value in own.threads)
  }

  ghost predicate TurnsClosed(turns: map<TurnId, TurnState>, own: Ids) {
    forall k :: k in turns && k in own.turns ==> TurnClosed(turns[k], own)
  }

  ghost predicate RequestsClosed(requests: map<RequestKey, PendingRequest>, own: Ids) {
    forall k :: k in requests && k.conn in own.conns ==> requests[k].thread in own.threads
  }

  /** A pending review is owned exactly when its thread is. */
  ghost predicate ReviewsClosed(reviews: map<RequestId, Review>, own: Ids) {
    forall k :: k in reviews ==> (k in own.reviews <==> reviews[k].thread in own.threads)
  }

  /** What is owned refers only to what is owned. */
  ghost predicate Closed(s: State, own: Ids) {
    ThreadsClosed(s.threads, own) && TurnsClosed(s.turns, own) && RequestsClosed(s.requests, own) &&
        ReviewsClosed(s.reviews, own)
  }

  // ----- replacing one map in two states that are alike

  lemma {:induction false} WithConnections(s: State, t: State, own: Ids, m: map<ConnectionId, Connection>,
                                           n: map<ConnectionId, Connection>)
    requires Alike(s, t, own) && Closed(s, own) && SameOn(m, n, own.conns)
    ensures Alike(s.(connections := m), t.(connections := n), own) && Closed(s.(connections := m), own)
  {
  }

  lemma {:induction false} WithRequests(s: State, t: State, own: Ids, m: map<RequestKey, PendingRequest>,
                                        n: map<RequestKey, PendingRequest>)
    requires Alike(s, t, own) && Closed(s, own) && SameRequests(m, n, own.conns) && RequestsClosed(m, own)
    ensures Alike(s.(requests := m), t.(requests := n), own) && Closed(s.(requests := m), own)
  {
  }

  lemma {:induction false} WithThreads(s: State, t: State, own: Ids, m: map<ThreadId, ThreadState>,
                                       n: map<ThreadId, ThreadState>)
    requires Alike(s, t, own) && Closed(s, own) && SameOn(m, n, own.threads) && ThreadsClosed(m, own)
    ensures Alike(s.(threads := m), t.(threads := n), own) && Closed(s.(threads := m), own)
  {
  }

  lemma {:induction false} WithTurns(s: State, t: State, own: Ids, m: map<TurnId, TurnState>, n: map<TurnId, TurnState>)
    requires Alike(s, t, own) && Closed(s, own) && SameOn(m, n, own.turns) && TurnsClosed(m, own)
    ensures Alike(s.(turns := m), t.(turns := n), own) && Closed(s.(turns := m), own)
  {
  }

  lemma {:induction false} WithStarted(s: State, t: State, own: Ids, m: map<ItemKey, nat>, n: map<ItemKey, nat>)
    requires Alike(s, t, own) && Closed(s, own) && SameItems(m, n, own.threads)
    ensures Alike(s.(started := m), t.(started := n), own) && Closed(s.(started := m), own)
  {
  }

  lemma {:induction false} WithSummaries(s: State, t: State, own: Ids, m: map<ItemKey, ReviewSummary>,
                                         n: map<ItemKey, ReviewSummary>)
    requires Alike(s, t, own) && Closed(s, own) && SameItems(m, n, own.threads)
    ensures Alike(s.(summaries := m), t.(summaries := n), own) && Closed(s.(summaries := m), own)
  {
  }

  lemma {:induction false} WithReviews(s: State, t: State, own: Ids, m: map<RequestId, Review>,
                                       n: map<RequestId, Review>)
    requires Alike(s, t, own) && Closed(s, own) && SameOn(m, n, own.reviews) && ReviewsClosed(m, own)
    ensures Alike(s.(reviews := m), t.(reviews := n), own) && Closed(s.(reviews := m), own)
  {
  }

  // ----- one entry put in or taken out of two maps that agree

  lemma {:induction false} PutSame<K(!new), V>(m: map<K, V>, n: map<K, V>, own: set<K>, k: K, v: V)
    requires SameOn(m, n, own)
    ensures SameOn(m[k := v], n[k := v], own)
    ensures k !in own ==> SameOn(m[k := v], n, own)
  {
  }

  lemma {:induction false} DropSame<K(!new), V>(m: map<K, V>, n: map<K, V>, own: set<K>, k: K)
    requires SameOn(m, n, own)
    ensures SameOn(m - {k}, n - {k}, own)
    ensures k !in own ==> SameOn(m - {k}, n, own)
  {
  }

  lemma {:induction false} PutRequest(m: map<RequestKey, PendingRequest>, n: map<RequestKey, PendingRequest>, own: Ids,
                                      k: RequestKey, p: PendingRequest)
    requires SameRequests(m, n, own.conns) && RequestsClosed(m, own) &&
             (k.conn in own.conns ==> p.thread in own.threads)
    ensures SameRequests(m[k := p], n[k := p], own.conns) && RequestsClosed(m[k := p], own)
    ensures k.conn !in own.conns ==> SameRequests(m[k := p], n, own.conns)
  {
  }

  lemma {:induction false} DropRequest(m: map<RequestKey, PendingRequest>, n: map<RequestKey, PendingRequest>,
                                       own: Ids, k: RequestKey)
    requires SameRequests(m, n, own.conns) && RequestsClosed(m, own)
    ensures SameRequests(m - {k}, n - {k}, own.conns) && RequestsClosed(m - {k}, own)
    ensures k.conn !in own.conns ==> SameRequests(m - {k}, n, own.conns)
  {
  }

  lemma {:induction false} PutItem<V>(m: map<ItemKey, V>, n: map<ItemKey, V>, threads: set<ThreadId>, k: ItemKey, v: V)
    requires SameItems(m, n, threads)
    ensures SameItems(m[k := v], n[k := v], threads)
    ensures k.thread !in threads ==> SameItems(m[k := v], n, threads)
  {
  }

  lemma {:induction false} DropItem<V>(m: map<ItemKey, V>, n: map<ItemKey, V>, threads: set<ThreadId>, k: ItemKey)
    requires SameItems(m, n, threads)
    ensures SameItems(m - {k}, n - {k}, threads)
    ensures k.thread !in threads ==> SameItems(m - {k}, n, threads)
  {
  }

  // ----- an operation on owned ids sees only what is owned; one on other ids leaves it alone

  /** Running an operation on both states, when its ids are owned, gives the same events and
      leaves the states alike; running it on one, when its ids are not, leaves them alike. */
  ghost predicate InsideOk(own: Ids, here: Outcome, there: Outcome) {
    here.out == there.out && Alike(here.state, there.state, own) && Closed(here.state, own)
  }

  ghost predicate OutsideOk(t: State, own: Ids, here: Outcome) {
    Alike(here.state, t, own) && Closed(here.state, own)
  }

  lemma {:induction false} SameThreadContext(s: State, t: State, own: Ids, thread: ThreadId)
    requires Alike(s, t, own) && Closed(s, own) && thread in own.threads
    ensures ThreadContext(s, thread) == ThreadContext(t, thread) && MetadataOf(s, thread) == MetadataOf(t, thread)
  {
    assert Same(s.threads, t.threads, thread);
    if thread in s.threads && s.threads[thread].conn.Some? {
      assert Same(s.connections, t.connections, s.threads[thread].conn.value);
    }
  }

  lemma {:induction false} SameReady(s: State, t: State, own: Ids, turn: TurnId)
    requires Alike(s, t, own) && Closed(s, own) && turn in own.turns
    ensures Ready(s, turn) == Ready(t, turn)
    ensures Ready(s, turn) ==> TurnEventOf(s, turn) == TurnEventOf(t, turn) && s.turns[turn] == t.turns[turn]
  {
    assert Same(s.turns, t.turns, turn);
    if turn in s.turns && Complete(s.turns[turn]) {
      assert TurnClosed(s.turns[turn], own);
      assert Same(s.connections, t.connections, s.turns[turn].conn.value);
      SameThreadContext(s, t, own, s.turns[turn].thread.value);
    }
  }

  lemma {:induction false} MaybeEmitInside(s: State, t: State, own: Ids, turn: TurnId, reading: Reading)
    requires Alike(s, t, own) && Closed(s, own) && turn in own.turns
    ensures InsideOk(own, MaybeEmit(s, turn, reading), MaybeEmit(t, turn, reading))
  {
    SameReady(s, t, own, turn);
    DropSame(s.turns, t.turns, own.turns, turn);
    WithTurns(s, t, own, s.turns - {turn}, t.turns - {turn});
  }

  lemma {:induction false} MaybeEmitOutside(s: State, t: State, own: Ids, turn: TurnId, reading: Reading)
    requires Alike(s, t, own) && Closed(s, own) && turn !in own.turns
    ensures OutsideOk(t, own, MaybeEmit(s, turn, reading))
  {
    DropSame(s.turns, t.turns, own.turns, turn);
    WithTurns(s, t, own, s.turns - {turn}, t.turns);
    assert t.(turns := t.turns) == t;
  }

  lemma {:induction false} PatchedClosed(t: TurnState, p: Patch, own: Ids)
    requires TurnClosed(t, own) && PatchThreads(p) <= own.threads
    ensures TurnClosed(Patched(t, p), own)
  {
    match p
    case SetConfig(thread, _, _) => assert thread in PatchThreads(p);
    case SetUsage(thread, _) => assert thread in PatchThreads(p);
    case SetFailure(thread, _) => assert thread in PatchThreads(p);
    case SetDiff(thread, _) => assert thread in PatchThreads(p);
    case _ =>
  }

  lemma {:induction false} SetTurn(s: State, t: State, own: Ids, turn: TurnId, state: TurnState)
    requires Alike(s, t, own) && Closed(s, own) && (turn in own.turns ==> TurnClosed(state, own))
    ensures Alike(s.(turns := s.turns[turn := state]), t.(turns := t.turns[turn := state]), own)
    ensures turn !in own.turns ==> Alike(s.(turns := s.turns[turn := state]), t, own)
    ensures Closed(s.(turns := s.turns[turn := state]), own)
  {
    PutSame(s.turns, t.turns, own.turns, turn, state);
    WithTurns(s, t, own, s.turns[turn := state], t.turns[turn := state]);
    if turn !in own.turns {
      WithTurns(s, t, own, s.turns[turn := state], t.turns);
      assert t.(turns := t.turns) == t;
    }
  }

  lemma {:induction false} PutTurnInside(s: State, t: State, own: Ids, turn: TurnId, state: TurnState,
                                         emit: Option<Reading>)
    requires Alike(s, t, own) && Closed(s, own) && turn in own.turns && TurnClosed(state, own)
    ensures InsideOk(own, PutTurn(s, turn, state, emit), PutTurn(t, turn, state, emit))
  {
    SetTurn(s, t, own, turn, state);
    if emit.Some? {
      MaybeEmitInside(s.(turns := s.turns[turn := state]), t.(turns := t.turns[turn := state]), own, turn, emit.value);
    }
  }

  lemma {:induction false} SameTurn(s: State, t: State, own: Ids, turn: TurnId)
    requires Alike(s, t, own) && Closed(s, own) && turn in own.turns
    ensures TurnOf(s, turn) == TurnOf(t, turn) && TurnClosed(TurnOf(s, turn), own)
  {
    assert Same(s.turns, t.turns, turn);
  }

  lemma {:induction false} PatchTurnInside(s: State, t: State, own: Ids, turn: TurnId, patch: Patch,
                                           emit: Option<Reading>)
    requires Alike(s, t, own) && Closed(s, own) && turn in own.turns && PatchThreads(patch) <= own.threads
    ensures InsideOk(own, DoPatchTurn(s, turn, patch, emit), DoPatchTurn(t, turn, patch, emit))
  {
    SameTurn(s, t, own, turn);
    PatchedClosed(TurnOf(s, turn), patch, own);
    PutTurnInside(s, t, own, turn, Patched(TurnOf(s, turn), patch), emit);
  }

  lemma {:induction false} PatchTurnOutside(s: State, t: State, own: Ids, turn: TurnId, patch: Patch,
                                            emit: Option<Reading>)
    requires Alike(s, t, own) && Closed(s, own) && turn !in own.turns
    ensures OutsideOk(t, own, DoPatchTurn(s, turn, patch, emit))
  {
    var state := Patched(TurnOf(s, turn), patch);
    SetTurn(s, t, own, turn, state);
    if emit.Some? { MaybeEmitOutside(s.(turns := s.turns[turn := state]), t, own, turn, emit.value); }
  }

  lemma {:induction false} TakeRequest(s: State, t: State, own: Ids, key: RequestKey)
    requires Alike(s, t, own) && Closed(s, own)
    ensures Alike(s.(requests := s.requests - {key}), t.(requests := t.requests - {key}), own)
    ensures key.conn !in own.conns ==> Alike(s.(requests := s.requests - {key}), t, own)
    ensures Closed(s.(requests := s.requests - {key}), own)
    ensures key.conn in own.conns ==>
            Same(s.requests, t.requests, key) && (key in s.requests ==> s.requests[key].thread in own.threads)
  {
    DropRequest(s.requests, t.requests, own, key);
    WithRequests(s, t, own, s.requests - {key}, t.requests - {key});
    if key.conn !in own.conns {
      WithRequests(s, t, own, s.requests - {key}, t.requests);
      assert t.(requests := t.requests) == t;
    }
  }

  lemma {:induction false} StartReplyInside(s: State, t: State, own: Ids, conn: ConnectionId, request: RequestId,
                                            turn: TurnId, reading: Reading)
    requires Alike(s, t, own) && Closed(s, own) && conn in own.conns && turn in own.turns
    ensures InsideOk(own, DoStartReply(s, conn, request, turn, reading), DoStartReply(t, conn, request, turn, reading))
  {
    var key := RequestKey(conn, request);
    TakeRequest(s, t, own, key);
    assert Same(s.turns, t.turns, turn);
    if key in s.requests && s.requests[key].TurnStart? {
      var state := Begun(s, turn, conn, s.requests[key]);
      var u, v := s.(requests := s.requests - {key}), t.(requests := t.requests - {key});
      SetTurn(u, v, own, turn, state);
      MaybeEmitInside(u.(turns := u.turns[turn := state]), v.(turns := v.turns[turn := state]), own, turn, reading);
    }
  }

  lemma {:induction false} StartReplyOutside(s: State, t: State, own: Ids, conn: ConnectionId, request: RequestId,
                                             turn: TurnId, reading: Reading)
    requires Alike(s, t, own) && Closed(s, own) && conn !in own.conns && turn !in own.turns
    ensures OutsideOk(t, own, DoStartReply(s, conn, request, turn, reading))
  {
    var key := RequestKey(conn, request);
    TakeRequest(s, t, own, key);
    if key in s.requests && s.requests[key].TurnStart? {
      var state := Begun(s, turn, conn, s.requests[key]);
      var u := s.(requests := s.requests - {key});
      SetTurn(u, t, own, turn, state);
      MaybeEmitOutside(u.(turns := u.turns[turn := state]), t, own, turn, reading);
    }
  }

  lemma {:induction false} SameSteerEvents(s: State, t: State, own: Ids, conn: ConnectionId, steer: PendingRequest,
                                           accepted: Option<TurnId>, reason: Option<string>)
    requires Alike(s, t, own) && Closed(s, own) && conn in own.conns && steer.TurnSteer? && steer.thread in own.threads
    ensures SteerEvents(s, conn, steer, accepted, reason) == SteerEvents(t, conn, steer, accepted, reason)
  {
    assert Same(s.connections, t.connections, conn);
    SameThreadContext(s, t, own, steer.thread);
  }

  lemma {:induction false} SteerReplyInside(s: State, t: State, own: Ids, conn: ConnectionId, request: RequestId,
                                            turn: TurnId)
    requires Alike(s, t, own) && Closed(s, own) && conn in own.conns && turn in own.turns
    ensures InsideOk(own, DoSteerReply(s, conn, request, turn), DoSteerReply(t, conn, request, turn))
  {
    var key := RequestKey(conn, request);
    TakeRequest(s, t, own, key);
    assert Same(s.turns, t.turns, turn);
    if key in s.requests && s.requests[key].TurnSteer? {
      SameSteerEvents(s, t, own, conn, s.requests[key], Some(turn), None);
      if turn in s.turns {
        assert TurnClosed(s.turns[turn], own);
        SetTurn(s.(requests := s.requests - {key}), t.(requests := t.requests - {key}), own, turn,
            s.turns[turn].(steers := s.turns[turn].steers + 1));
      }
    }
  }

  lemma {:induction false} SteerReplyOutside(s: State, t: State, own: Ids, conn: ConnectionId, request: RequestId,
                                             turn: TurnId)
    requires Alike(s, t, own) && Closed(s, own) && conn !in own.conns && turn !in own.turns
    ensures OutsideOk(t, own, DoSteerReply(s, conn, request, turn))
  {
    var key := RequestKey(conn, request);
    TakeRequest(s, t, own, key);
    if key in s.requests && s.requests[key].TurnSteer? && turn in s.turns {
      SetTurn(s.(requests := s.requests - {key}), t, own, turn, s.turns[turn].(steers := s.turns[turn].steers + 1));
    }
  }

  lemma {:induction false} ErrorReplyInside(s: State, t: State, own: Ids, conn: ConnectionId, request: RequestId,
                                            reason: Option<string>)
    requires Alike(s, t, own) && Closed(s, own) && conn in own.conns
    ensures InsideOk(own, DoErrorReply(s, conn, request, reason), DoErrorReply(t, conn, request, reason))
  {
    var key := RequestKey(conn, request);
    TakeRequest(s, t, own, key);
    if key in s.requests && s.requests[key].TurnSteer? {
      SameSteerEvents(s, t, own, conn, s.requests[key], None, reason);
    }
  }

  function Tooled(t: TurnState, item: ThreadItem): TurnState {
    t.(tools := Counted(t.tools, item))
  }

  lemma {:induction false} TakeItem(s: State, t: State, own: Ids, key: ItemKey)
    requires Alike(s, t, own) && Closed(s, own)
    ensures Alike(s.(started := s.started - {key}), t.(started := t.started - {key}), own)
    ensures key.thread !in own.threads ==> Alike(s.(started := s.started - {key}), t, own)
    ensures Closed(s.(started := s.started - {key}), own)
  {
    DropItem(s.started, t.started, own.threads, key);
    WithStarted(s, t, own, s.started - {key}, t.started - {key});
    if key.thread !in own.threads {
      WithStarted(s, t, own, s.started - {key}, t.started);
      assert t.(started := t.started) == t;
    }
  }

  lemma {:induction false} TakeSummary(s: State, t: State, own: Ids, key: ItemKey)
    requires Alike(s, t, own) && Closed(s, own)
    ensures Alike(s.(summaries := s.summaries - {key}), t.(summaries := t.summaries - {key}), own)
    ensures key.thread !in own.threads ==> Alike(s.(summaries := s.summaries - {key}), t, own)
    ensures Closed(s.(summaries := s.summaries - {key}), own)
  {
    DropItem(s.summaries, t.summaries, own.threads, key);
    WithSummaries(s, t, own, s.summaries - {key}, t.summaries - {key});
    if key.thread !in own.threads {
      WithSummaries(s, t, own, s.summaries - {key}, t.summaries);
      assert t.(summaries := t.summaries) == t;
    }
  }

  /** The state once the item is counted and its start used up. */
  function ItemCounted(s: State, key: ItemKey, item: ThreadItem): State
    requires key.turn in s.turns
  {
    s.(turns := s.turns[key.turn := Tooled(s.turns[key.turn], item)]).(started := s.started - {key})
  }

  /** The two states an item's completion may lead to. */
  lemma {:induction false} EndItemState(s: State, key: ItemKey, item: ThreadItem, ended: Option<nat>)
    ensures key.turn !in s.turns ==> DoEndItem(s, key, item, ended) == Outcome(s, [])
    ensures key.turn in s.turns && !ClosesItem(s, key, ended) ==>
            DoEndItem(s, key, item, ended) == Outcome(ItemCounted(s, key, item), [])
    ensures key.turn in s.turns && ClosesItem(s, key, ended) ==>
            DoEndItem(s, key, item, ended).state == ItemCounted(s, key, item).(summaries := s.summaries - {key})
  {
  }

  lemma {:induction false} SameEndItemEvents(s: State, t: State, own: Ids, key: ItemKey, item: ThreadItem,
                                             ended: Option<nat>)
    requires Alike(s, t, own) && Closed(s, own) && key.thread in own.threads && key.turn in own.turns
    ensures ClosesItem(s, key, ended) == ClosesItem(t, key, ended) &&
            DoEndItem(s, key, item, ended).out == DoEndItem(t, key, item, ended).out
  {
    assert Same(s.turns, t.turns, key.turn) && Same(s.started, t.started, key) && Same(s.summaries, t.summaries, key);
    SameThreadContext(s, t, own, key.thread);
  }

  lemma {:induction false} EndItemInside(s: State, t: State, own: Ids, key: ItemKey, item: ThreadItem,
                                         ended: Option<nat>)
    requires Alike(s, t, own) && Closed(s, own) && key.thread in own.threads && key.turn in own.turns
    ensures InsideOk(own, DoEndItem(s, key, item, ended), DoEndItem(t, key, item, ended))
  {
    SameEndItemEvents(s, t, own, key, item, ended);
    EndItemState(s, key, item, ended);
    EndItemState(t, key, item, ended);
    assert Same(s.turns, t.turns, key.turn);
    if key.turn in s.turns {
      assert TurnClosed(s.turns[key.turn], own);
      var state := Tooled(s.turns[key.turn], item);
      SetTurn(s, t, own, key.turn, state);
      var u, v := s.(turns := s.turns[key.turn := state]), t.(turns := t.turns[key.turn := state]);
      TakeItem(u, v, own, key);
      TakeSummary(u.(started := u.started - {key}), v.(started := v.started - {key}), own, key);
    }
  }

  lemma {:induction false} EndItemOutside(s: State, t: State, own: Ids, key: ItemKey, item: ThreadItem,
                                          ended: Option<nat>)
    requires Alike(s, t, own) && Closed(s, own) && key.thread !in own.threads && key.turn !in own.turns
    ensures OutsideOk(t, own, DoEndItem(s, key, item, ended))
  {
    EndItemState(s, key, item, ended);
    if key.turn in s.turns {
      var state := Tooled(s.turns[key.turn], item);
      SetTurn(s, t, own, key.turn, state);
      var u := s.(turns := s.turns[key.turn := state]);
      TakeItem(u, t, own, key);
      TakeSummary(u.(started := u.started - {key}), t, own, key);
    }
  }

  lemma {:induction false} SetSummary(s: State, t: State, own: Ids, key: ItemKey, summary: ReviewSummary)
    requires Alike(s, t, own) && Closed(s, own)
    ensures Alike(s.(summaries := s.summaries[key := summary]), t.(summaries := t.summaries[key := summary]), own)
    ensures key.thread !in own.threads ==> Alike(s.(summaries := s.summaries[key := summary]), t, own)
    ensures Closed(s.(summaries := s.summaries[key := summary]), own)
  {
    PutItem(s.summaries, t.summaries, own.threads, key, summary);
    WithSummaries(s, t, own, s.summaries[key := summary], t.summaries[key := summary]);
    if key.thread !in own.threads {
      WithSummaries(s, t, own, s.summaries[key := summary], t.summaries);
      assert t.(summaries := t.summaries) == t;
    }
  }

  lemma {:induction false} JudgeInside(s: State, t: State, own: Ids, review: Review, verdict: Verdict, at: nat)
    requires Alike(s, t, own) && Closed(s, own) && review.thread in own.threads
    ensures InsideOk(own, DoJudge(s, review, verdict, at), DoJudge(t, review, verdict, at))
  {
    SameThreadContext(s, t, own, review.thread);
    var key := SummaryKey(review);
    if key.Some? {
      assert Same(s.summaries, t.summaries, key.value);
      SetSummary(s, t, own, key.value, Recorded(SummaryOf(s, key.value), review, verdict));
    }
  }

  lemma {:induction false} JudgeOutside(s: State, t: State, own: Ids, review: Review, verdict: Verdict, at: nat)
    requires Alike(s, t, own) && Closed(s, own) && review.thread !in own.threads
    ensures OutsideOk(t, own, DoJudge(s, review, verdict, at))
  {
    var key := SummaryKey(review);
    if key.Some? { SetSummary(s, t, own, key.value, Recorded(SummaryOf(s, key.value), review, verdict)); }
  }

  lemma {:induction false} TakeReview(s: State, t: State, own: Ids, request: RequestId)
    requires Alike(s, t, own) && Closed(s, own)
    ensures Alike(s.(reviews := s.reviews - {request}), t.(reviews := t.reviews - {request}), own)
    ensures request !in own.reviews ==> Alike(s.(reviews := s.reviews - {request}), t, own)
    ensures Closed(s.(reviews := s.reviews - {request}), own)
  {
    DropSame(s.reviews, t.reviews, own.reviews, request);
    WithReviews(s, t, own, s.reviews - {request}, t.reviews - {request});
    if request !in own.reviews {
      WithReviews(s, t, own, s.reviews - {request}, t.reviews);
      assert t.(reviews := t.reviews) == t;
    }
  }

  lemma {:induction false} ResolveInside(s: State, t: State, own: Ids, request: RequestId, verdict: Verdict, at: nat)
    requires Alike(s, t, own) && Closed(s, own) && request in own.reviews
    ensures InsideOk(own, DoResolveReview(s, request, verdict, at), DoResolveReview(t, request, verdict, at))
  {
    assert Same(s.reviews, t.reviews, request);
    if request in s.reviews {
      TakeReview(s, t, own, request);
      JudgeInside(s.(reviews := s.reviews - {request}), t.(reviews := t.reviews - {request}), own, s.reviews[request],
          verdict, at);
    }
  }

  lemma {:induction false} ResolveOutside(s: State, t: State, own: Ids, request: RequestId, verdict: Verdict, at: nat)
    requires Alike(s, t, own) && Closed(s, own) && request !in own.reviews
    ensures OutsideOk(t, own, DoResolveReview(s, request, verdict, at))
  {
    if request in s.reviews {
      TakeReview(s, t, own, request);
      JudgeOutside(s.(reviews := s.reviews - {request}), t, own, s.reviews[request], verdict, at);
    }
  }

  lemma {:induction false} SetThread(s: State, t: State, own: Ids, thread: ThreadId, state: ThreadState)
    requires Alike(s, t, own) && Closed(s, own) &&
             (thread in own.threads && state.conn.Some? ==> state.conn.value in own.conns)
    ensures Alike(s.(threads := s.threads[thread := state]), t.(threads := t.threads[thread := state]), own)
    ensures thread !in own.threads ==> Alike(s.(threads := s.threads[thread := state]), t, own)
    ensures Closed(s.(threads := s.threads[thread := state]), own)
  {
    PutSame(s.threads, t.threads, own.threads, thread, state);
    WithThreads(s, t, own, s.threads[thread := state], t.threads[thread := state]);
    if thread !in own.threads {
      WithThreads(s, t, own, s.threads[thread := state], t.threads);
      assert t.(threads := t.threads) == t;
    }
  }

  lemma {:induction false} OpenThreadInside(s: State, t: State, own: Ids, conn: ConnectionId, thread: ThreadId,
                                            metadata: ThreadMetadata, details: nat)
    requires Alike(s, t, own) && Closed(s, own) && conn in own.conns && thread in own.threads
    ensures InsideOk(own, DoOpenThread(s, conn, thread, metadata, details),
            DoOpenThread(t, conn, thread, metadata, details))
  {
    assert Same(s.connections, t.connections, conn);
    SetThread(s, t, own, thread, ThreadState(Some(conn), Some(metadata)));
  }

  lemma {:induction false} SpawnInside(s: State, t: State, own: Ids, thread: ThreadId, parent: Option<ThreadId>,
                                       metadata: ThreadMetadata, details: nat)
    requires Alike(s, t, own) && Closed(s, own) && thread in own.threads &&
             (parent.Some? ==> parent.value in own.threads)
    ensures InsideOk(own, DoSpawn(s, thread, parent, metadata, details), DoSpawn(t, thread, parent, metadata, details))
  {
    assert Same(s.threads, t.threads, thread);
    if parent.Some? { assert Same(s.threads, t.threads, parent.value); }
    SetThread(s, t, own, thread, DoSpawn(s, thread, parent, metadata, details).state.threads[thread]);
  }

  lemma {:induction false} ThreadOutside(s: State, t: State, own: Ids, op: Op)
    requires Alike(s, t, own) && Closed(s, own) && Apart(Mentioned(op), own)
    requires op.OpenThread? || op.Spawn?
    ensures OutsideOk(t, own, Apply(s, op))
  {
    if op.Spawn? {
      SetThread(s, t, own, op.thread, DoSpawn(s, op.thread, op.parent, op.metadata,
          op.details).state.threads[op.thread]);
    } else {
      SetThread(s, t, own, op.thread, ThreadState(Some(op.conn), Some(op.metadata)));
    }
  }

  lemma {:induction false} ConnectKeeps(s: State, t: State, own: Ids, conn: ConnectionId, connection: Connection)
    requires Alike(s, t, own) && Closed(s, own)
    ensures conn in own.conns ==>
            InsideOk(own, Apply(s, Connect(conn, connection)), Apply(t, Connect(conn, connection)))
    ensures conn !in own.conns ==> OutsideOk(t, own, Apply(s, Connect(conn, connection)))
  {
    PutSame(s.connections, t.connections, own.conns, conn, connection);
    WithConnections(s, t, own, s.connections[conn := connection], t.connections[conn := connection]);
    if conn !in own.conns {
      WithConnections(s, t, own, s.connections[conn := connection], t.connections);
      assert t.(connections := t.connections) == t;
    }
  }

  lemma {:induction false} AskKeeps(s: State, t: State, own: Ids, conn: ConnectionId, request: RequestId,
                                    pending: PendingRequest)
    requires Alike(s, t, own) && Closed(s, own) && (conn in own.conns ==> pending.thread in own.threads)
    ensures conn in own.conns ==>
            InsideOk(own, Apply(s, Ask(conn, request, pending)), Apply(t, Ask(conn, request, pending)))
    ensures conn !in own.conns ==> OutsideOk(t, own, Apply(s, Ask(conn, request, pending)))
  {
    var key := RequestKey(conn, request);
    PutRequest(s.requests, t.requests, own, key, pending);
    WithRequests(s, t, own, s.requests[key := pending], t.requests[key := pending]);
    if conn !in own.conns {
      WithRequests(s, t, own, s.requests[key := pending], t.requests);
      assert t.(requests := t.requests) == t;
    }
  }

  lemma {:induction false} BeginItemKeeps(s: State, t: State, own: Ids, key: ItemKey, at: nat)
    requires Alike(s, t, own) && Closed(s, own)
    ensures key.thread in own.threads ==> InsideOk(own, Apply(s, BeginItem(key, at)), Apply(t, BeginItem(key, at)))
    ensures key.thread !in own.threads ==> OutsideOk(t, own, Apply(s, BeginItem(key, at)))
  {
    PutItem(s.started, t.started, own.threads, key, at);
    WithStarted(s, t, own, s.started[key := at], t.started[key := at]);
    if key.thread !in own.threads {
      WithStarted(s, t, own, s.started[key := at], t.started);
      assert t.(started := t.started) == t;
    }
  }

  lemma {:induction false} OpenReviewKeeps(s: State, t: State, own: Ids, request: RequestId, review: Review)
    requires Alike(s, t, own) && Closed(s, own) && (request in own.reviews <==> review.thread in own.threads)
    ensures request in own.reviews ==>
            InsideOk(own, Apply(s, OpenReview(request, review)), Apply(t, OpenReview(request, review)))
    ensures request !in own.reviews ==> OutsideOk(t, own, Apply(s, OpenReview(request, review)))
  {
    PutSame(s.reviews, t.reviews, own.reviews, request, review);
    WithReviews(s, t, own, s.reviews[request := review], t.reviews[request := review]);
    if request !in own.reviews {
      WithReviews(s, t, own, s.reviews[request := review], t.reviews);
      assert t.(reviews := t.reviews) == t;
    }
  }

  lemma {:induction false} Inside(s: State, t: State, own: Ids, op: Op)
    requires Alike(s, t, own) && Closed(s, own) && Within(Mentioned(op), own)
    ensures InsideOk(own, Apply(s, op), Apply(t, op))
  {
    match op
    case Skip =>
    case Connect(conn, connection) => ConnectKeeps(s, t, own, conn, connection);
    case Ask(conn, request, pending) => AskKeeps(s, t, own, conn, request, pending);
    case OpenThread(conn, thread, metadata, details) => OpenThreadInside(s, t, own, conn, thread, metadata, details);
    case StartReply(conn, request, turn, reading) => StartReplyInside(s, t, own, conn, request, turn, reading);
    case SteerReply(conn, request, turn) => SteerReplyInside(s, t, own, conn, request, turn);
    case ErrorReply(conn, request, reason) => ErrorReplyInside(s, t, own, conn, request, reason);
    case PatchTurn(turn, patch, emit) => PatchTurnInside(s, t, own, turn, patch, emit);
    case BeginItem(key, at) => BeginItemKeeps(s, t, own, key, at);
    case EndItem(key, item, ended) => EndItemInside(s, t, own, key, item, ended);
    case Judge(review, verdict, at) => JudgeInside(s, t, own, review, verdict, at);
    case OpenReview(request, review) => OpenReviewKeeps(s, t, own, request, review);
    case ResolveReview(request, verdict, at) => ResolveInside(s, t, own, request, verdict, at);
    case Spawn(thread, parent, metadata, details) => SpawnInside(s, t, own, thread, parent, metadata, details);
    case Scoped(thread, details) => SameThreadContext(s, t, own, thread);
    case Record(_) =>
  }

  lemma {:induction false} Outside(s: State, t: State, own: Ids, op: Op)
    requires Alike(s, t, own) && Closed(s, own) && Apart(Mentioned(op), own)
    ensures OutsideOk(t, own, Apply(s, op))
  {
    match op
    case Connect(conn, connection) => ConnectKeeps(s, t, own, conn, connection);
    case Ask(conn, request, pending) => AskKeeps(s, t, own, conn, request, pending);
    case OpenThread(_, _, _, _) => ThreadOutside(s, t, own, op);
    case StartReply(conn, request, turn, reading) => StartReplyOutside(s, t, own, conn, request, turn, reading);
    case SteerReply(conn, request, turn) => SteerReplyOutside(s, t, own, conn, request, turn);
    case ErrorReply(conn, request, _) => TakeRequest(s, t, own, RequestKey(conn, request));
    case PatchTurn(turn, patch, emit) => PatchTurnOutside(s, t, own, turn, patch, emit);
    case BeginItem(key, at) => BeginItemKeeps(s, t, own, key, at);
    case EndItem(key, item, ended) => EndItemOutside(s, t, own, key, item, ended);
    case Judge(review, verdict, at) => JudgeOutside(s, t, own, review, verdict, at);
    case OpenReview(request, review) => OpenReviewKeeps(s, t, own, request, review);
    case ResolveReview(request, verdict, at) => ResolveOutside(s, t, own, request, verdict, at);
    case Spawn(_, _, _, _) => ThreadOutside(s, t, own, op);
    case _ =>
  }

  // ----- interleavings

  /** One fact of an interleaving, and whether it is from the stream watched. */
  datatype Tagged = Tagged(watched: bool, fact: Fact)

  /** The facts of one stream, in order. */
  function Stream(run: seq<Tagged>, watched: bool): (r: seq<Fact>) {
    if run == [] then []
    else if run[0].watched == watched then [run[0].fact] + Stream(run[1..], watched)
    else Stream(run[1..], watched)
  }

  /** The events the watched facts cause when the whole interleaving goes through `s`. */
  function Caused(s: State, run: seq<Tagged>): (r: seq<Event>)
    decreases |run|
  {
    if run == [] then []
    else
      var o := Apply(s, Decode(run[0].fact));
      (if run[0].watched then o.out else []) + Caused(o.state, run[1..])
  }

  /** The events of a stream on its own. */
  function Alone(s: State, facts: seq<Fact>): (r: seq<Event>)
    decreases |facts|
  {
    if facts == [] then []
    else
      var o := Apply(s, Decode(facts[0]));
      o.out + Alone(o.state, facts[1..])
  }

  function Union(a: Ids, b: Ids): Ids {
    Ids(a.conns + b.conns, a.threads + b.threads, a.turns + b.turns, a.reviews + b.reviews)
  }

  function AllIds(facts: seq<Fact>): (r: Ids)
    decreases |facts|
    ensures forall f :: f in facts ==> Within(Mentioned(Decode(f)), r)
  {
    if facts == [] then NO_IDS else Union(Mentioned(Decode(facts[0])), AllIds(facts[1..]))
  }

  ghost predicate Owned(run: seq<Tagged>, own: Ids) {
    forall i :: 0 <= i < |run| ==>
      var ids := Mentioned(Decode(run[i].fact));
      if run[i].watched then Within(ids, own) else Apart(ids, own)
  }

  lemma {:induction false} Separate(s: State, t: State, own: Ids, run: seq<Tagged>)
    requires Alike(s, t, own) && Closed(s, own) && Owned(run, own)
    ensures Caused(s, run) == Alone(t, Stream(run, true))
    decreases |run|
  {
    if run != [] {
      var op := Decode(run[0].fact);
      if run[0].watched {
        Inside(s, t, own, op);
        Separate(Apply(s, op).state, Apply(t, op).state, own, run[1..]);
        assert Stream(run, true)[1..] == Stream(run[1..], true);
      } else {
        Outside(s, t, own, op);
        Separate(Apply(s, op).state, t, own, run[1..]);
      }
    }
  }

  lemma {:induction false} InStream(run: seq<Tagged>, i: nat)
    requires i < |run|
    ensures run[i].fact in Stream(run, run[i].watched)
  {
    if i > 0 { InStream(run[1..], i - 1); }
  }

  ghost predicate ShareNothing(a: seq<Fact>, b: seq<Fact>) {
    Apart(AllIds(a), AllIds(b))
  }

  /** If two streams of facts share no connection, thread, parent thread, turn or server
      request id, then in every interleaving of them, from the empty reducer, the events one
      stream causes are exactly those it causes alone. */
  lemma {:induction false} StreamsDoNotInterfere(run: seq<Tagged>)
    requires ShareNothing(Stream(run, true), Stream(run, false))
    ensures Caused(EMPTY, run) == Alone(EMPTY, Stream(run, true))
  {
    var own := AllIds(Stream(run, true));
    forall i | 0 <= i < |run|
      ensures var ids := Mentioned(Decode(run[i].fact)); if run[i].watched then Within(ids, own) else Apart(ids, own)
    {
      InStream(run, i);
    }
    Separate(EMPTY, EMPTY, own, run);
  }

  lemma {:induction false} CausedCons(s: State, x: Tagged, rest: seq<Tagged>)
    ensures Caused(s, [x] + rest) == (if x.watched then Apply(s, Decode(x.fact)).out else []) +
            Caused(Apply(s, Decode(x.fact)).state, rest)
    ensures Stream([x] + rest, x.watched) == [x.fact] + Stream(rest, x.watched)
    ensures Stream([x] + rest, !x.watched) == Stream(rest, !x.watched)
  {
    assert ([x] + rest)[1..] == rest;
  }

  lemma {:induction false} AloneCons(s: State, f: Fact, rest: seq<Fact>)
    ensures Alone(s, [f] + rest) == Apply(s, Decode(f)).out + Alone(Apply(s, Decode(f)).state, rest)
  {
    assert ([f] + rest)[1..] == rest;
  }

  function Asks(request: RequestId, thread: ThreadId, turn: TurnId): Fact {
    ApprovalRequested(request, thread, turn, [], FileChangeApproval(false), 0)
  }

  /** A stream opens a connection and a thread, is asked for an approval, and answers; in
      between another stream is asked for one under the same request id. */
  function SharedRequest(conn: ConnectionId, metadata: ThreadMetadata, request: RequestId, mine: ThreadId,
                         theirs: ThreadId, t: TurnId, u: TurnId): seq<Tagged> {
    [Tagged(true, Initialize(conn, [], []))] + ([Tagged(true, ThreadResponse(conn, mine, metadata, 0))] +
        ([Tagged(true, Asks(request, mine, t))]
      + ([Tagged(false, Asks(request, theirs, u))] + [Tagged(true, FileChangeAnswered(request, AcceptChange, 1))])))
  }

  /** What the answer is worth once another stream's request has taken the review's place. */
  lemma {:induction false} AnswerGoesElsewhere(s: State, request: RequestId, mine: Review, theirs: Review,
                                               verdict: Verdict, at: nat)
    requires ThreadContext(s, mine.thread).Some? && ThreadContext(s, theirs.thread).None?
    ensures var asked := Apply(s, OpenReview(request, mine)).state;
            var taken := Apply(asked, OpenReview(request, theirs)).state;
            && |Apply(asked, ResolveReview(request, verdict, at)).out| == 1
            && Apply(taken, ResolveReview(request, verdict, at)).out == []
  {
    var asked := Apply(s, OpenReview(request, mine)).state;
    var taken := Apply(asked, OpenReview(request, theirs)).state;
    assert ThreadContext(asked.(reviews := asked.reviews - {request}), mine.thread) == ThreadContext(s, mine.thread);
    assert ThreadContext(taken.(reviews := taken.reviews - {request}), theirs.thread) ==
        ThreadContext(s, theirs.thread);
  }

  lemma {:induction false} Opened(conn: ConnectionId, metadata: ThreadMetadata, mine: ThreadId, theirs: ThreadId)
      returns (s: State)
    requires mine != theirs
    ensures var first := Apply(EMPTY, Connect(conn, Connection([], [])));
            first.out == [] && s == Apply(first.state, OpenThread(conn, mine, metadata, 0)).state
    ensures ThreadContext(s, mine).Some? && ThreadContext(s, theirs).None?
  {
    s := Apply(Apply(EMPTY, Connect(conn, Connection([], []))).state, OpenThread(conn, mine, metadata, 0)).state;
  }

  /** Server request ids have to be apart too, for pending reviews are kept by that id alone:
      two streams that share nothing else, from the empty reducer, and one of them loses the
      event that it causes alone. */
  lemma {:induction false} SharedRequestIdInterferes(conn: ConnectionId, metadata: ThreadMetadata, request: RequestId,
                                                     mine: ThreadId, theirs: ThreadId, t: TurnId, u: TurnId)
    requires mine != theirs && t != u
    ensures var run := SharedRequest(conn, metadata, request, mine, theirs, t, u);
            var own, other := AllIds(Stream(run, true)), AllIds(Stream(run, false));
            && own.conns !! other.conns && own.threads !! other.threads && own.turns !! other.turns
            && |Caused(EMPTY, run)| + 1 == |Alone(EMPTY, Stream(run, true))|
  {
    OneEventLost(conn, metadata, request, mine, theirs, t, u);
    SharedOnlyTheRequest(conn, metadata, request, mine, theirs, t, u);
  }

  function OwnFacts(conn: ConnectionId, metadata: ThreadMetadata, request: RequestId, mine: ThreadId,
                    t: TurnId): seq<Fact> {
    [Initialize(conn, [], [])] + ([ThreadResponse(conn, mine, metadata, 0)] +
        ([Asks(request, mine, t)] + [FileChangeAnswered(request, AcceptChange, 1)]))
  }

  lemma {:induction false} OneEventLost(conn: ConnectionId, metadata: ThreadMetadata, request: RequestId,
                                        mine: ThreadId, theirs: ThreadId, t: TurnId, u: TurnId)
    requires mine != theirs
    ensures var run := SharedRequest(conn, metadata, request, mine, theirs, t, u);
            && |Caused(EMPTY, run)| + 1 == |Alone(EMPTY, Stream(run, true))|
            && Stream(run, true) == OwnFacts(conn, metadata, request, mine, t)
            && Stream(run, false) == [Asks(request, theirs, u)]
  {
    var f1, f2, f3, f5 := Initialize(conn, [], []), ThreadResponse(conn, mine, metadata, 0), Asks(request, mine, t),
        FileChangeAnswered(request, AcceptChange, 1);
    var x4, x5 := Tagged(false, Asks(request, theirs, u)), Tagged(true, f5);
    var s1 := Apply(EMPTY, Decode(f1)).state;
    var s2 := Opened(conn, metadata, mine, theirs);
    var s3 := Apply(s2, Decode(f3)).state;
    Answered(s2, request, mine, theirs, t, u);
    LastTwo(s3, x4, x5);
    FirstThree(s1, s2, s3, f1, f2, f3, [x4] + [x5], [f5]);
  }

  lemma {:induction false} SharedOnlyTheRequest(conn: ConnectionId, metadata: ThreadMetadata, request: RequestId,
                                                mine: ThreadId, theirs: ThreadId, t: TurnId, u: TurnId)
    ensures var own := AllIds(OwnFacts(conn, metadata, request, mine, t));
            own.conns == {conn} && own.threads == {mine} && own.turns == {t}
    ensures AllIds([Asks(request, theirs, u)]) == Ids({}, {theirs}, {u}, {request})
  {
    MentionedOpening(conn, metadata, mine);
    MentionedReview(request, mine, t);
    MentionedReview(request, theirs, u);
    FourIds(Initialize(conn, [], []), ThreadResponse(conn, mine, metadata, 0), Asks(request, mine, t),
        FileChangeAnswered(request, AcceptChange, 1));
    UnionOfOwn(conn, request, mine, t);
    OneId(Asks(request, theirs, u));
  }

  lemma {:induction false} MentionedOpening(conn: ConnectionId, metadata: ThreadMetadata, thread: ThreadId)
    ensures Mentioned(Decode(Initialize(conn, [], []))) == Ids({conn}, {}, {}, {})
    ensures Mentioned(Decode(ThreadResponse(conn, thread, metadata, 0))) == Ids({conn}, {thread}, {}, {})
  {
  }

  lemma {:induction false} MentionedReview(request: RequestId, thread: ThreadId, turn: TurnId)
    ensures Mentioned(Decode(Asks(request, thread, turn))) == Ids({}, {thread}, {turn}, {request})
    ensures Mentioned(Decode(FileChangeAnswered(request, AcceptChange, 1))) == Ids({}, {}, {}, {request})
  {
  }

  lemma {:induction false} UnionOfOwn(conn: ConnectionId, request: RequestId, thread: ThreadId, turn: TurnId)
    ensures var own := Union(Ids({conn}, {}, {}, {}), Union(Ids({conn}, {thread}, {}, {}),
              Union(Ids({}, {thread}, {turn}, {request}), Ids({}, {}, {}, {request}))));
            own.conns == {conn} && own.threads == {thread} && own.turns == {turn}
  {
  }

  lemma {:induction false} OneId(f: Fact)
    ensures AllIds([f]) == Mentioned(Decode(f))
  {
    assert [f] + [] == [f];
    AllIdsCons(f, []);
    var m := Mentioned(Decode(f));
    assert m.conns + {} == m.conns && m.threads + {} == m.threads && m.turns + {} == m.turns &&
        m.reviews + {} == m.reviews;
  }

  lemma {:induction false} FourIds(a: Fact, b: Fact, c: Fact, d: Fact)
    ensures AllIds([a] + ([b] + ([c] + [d])))
            == Union(Mentioned(Decode(a)), Union(Mentioned(Decode(b)),
                Union(Mentioned(Decode(c)), Mentioned(Decode(d)))))
  {
    OneId(d);
    AllIdsCons(c, [d]);
    AllIdsCons(b, [c] + [d]);
    AllIdsCons(a, [b] + ([c] + [d]));
  }

  lemma {:induction false} AllIdsCons(f: Fact, rest: seq<Fact>)
    ensures AllIds([f] + rest) == Union(Mentioned(Decode(f)), AllIds(rest))
  {
    assert ([f] + rest)[1..] == rest;
  }

  lemma {:induction false} Answered(s: State, request: RequestId, mine: ThreadId, theirs: ThreadId, t: TurnId,
                                    u: TurnId)
    requires ThreadContext(s, mine).Some? && ThreadContext(s, theirs).None?
    ensures var s3 := Apply(s, Decode(Asks(request, mine, t))).state;
            var s4 := Apply(s3, Decode(Asks(request, theirs, u))).state;
            var answer := Decode(FileChangeAnswered(request, AcceptChange, 1));
            |Apply(s3, answer).out| == 1 && Apply(s4, answer).out == []
  {
    var a := FileChangeApproval(false);
    AnswerGoesElsewhere(s, request, UserReview(request, mine, t, [], a, 0), UserReview(request, theirs, u, [], a, 0),
        FileChangeVerdict(AcceptChange), 1);
  }

  lemma {:induction false} LastTwo(s: State, x: Tagged, y: Tagged)
    requires !x.watched && y.watched
    ensures Caused(s, [x] + [y]) == Apply(Apply(s, Decode(x.fact)).state, Decode(y.fact)).out
    ensures Alone(s, [y.fact]) == Apply(s, Decode(y.fact)).out
    ensures Stream([x] + [y], true) == [y.fact] && Stream([x] + [y], false) == [x.fact]
  {
    CausedCons(s, x, [y]);
    var t := Apply(s, Decode(x.fact)).state;
    CausedCons(t, y, []);
    assert [y] + [] == [y] && [y.fact] + [] == [y.fact];
    AloneCons(s, y.fact, []);
  }

  lemma {:induction false} FirstThree(s1: State, s2: State, s3: State, f1: Fact, f2: Fact, f3: Fact, rest: seq<Tagged>,
                                      facts: seq<Fact>)
    requires s1 == Apply(EMPTY, Decode(f1)).state && s2 == Apply(s1, Decode(f2)).state &&
             s3 == Apply(s2, Decode(f3)).state
    requires facts == Stream(rest, true)
    ensures var run := [Tagged(true, f1)] + ([Tagged(true, f2)] + ([Tagged(true, f3)] + rest));
            && |Caused(EMPTY, run)| - |Caused(s3, rest)| == |Alone(EMPTY, Stream(run, true))| - |Alone(s3, facts)|
            && Stream(run, false) == Stream(rest, false)
            && Stream(run, true) == [f1] + ([f2] + ([f3] + facts))
  {
    var x1, x2, x3 := Tagged(true, f1), Tagged(true, f2), Tagged(true, f3);
    CausedCons(EMPTY, x1, [x2] + ([x3] + rest));
    CausedCons(s1, x2, [x3] + rest);
    CausedCons(s2, x3, rest);
    AloneCons(EMPTY, f1, [f2] + ([f3] + facts));
    AloneCons(s1, f2, [f3] + facts);
    AloneCons(s2, f3, facts);
  }
}
