/** The counters of a turn against its history: tools and steers since its state was made. */
module TurnCounters {
  import opened Basics
  import opened AnalyticsFacts
  import opened AnalyticsReducer
  import opened TurnEvents
  import opened FactHistory

  datatype Tool = Shell | Edit | Mcp | Dynamic | Subagent | Search | Image

  function ToolOf(item: ThreadItem): Option<Tool> {
    match item
    case CommandExecution(_, _) => Some(Shell)
    case FileChange(_, _) => Some(Edit)
    case McpToolCall(_, _) => Some(Mcp)
    case DynamicToolCall(_, _) => Some(Dynamic)
    case CollabAgentToolCall(_, _) => Some(Subagent)
    case WebSearch(_) => Some(Search)
    case ImageGeneration(_) => Some(Image)
    case _ => None
  }

  /** How many of `items` are calls of `tool`. */
  function CountOf(items: seq<ThreadItem>, tool: Tool): (r: nat) {
    if items == [] then 0
    else CountOf(items[..|items| - 1], tool) + (if ToolOf(items[|items| - 1]) == Some(tool) then 1 else 0)
  }

  function Tally(items: seq<ThreadItem>): ToolCounts {
    ToolCounts(|items|, CountOf(items, Shell), CountOf(items, Edit), CountOf(items, Mcp), CountOf(items, Dynamic),
               CountOf(items, Subagent), CountOf(items, Search), CountOf(items, Image))
  }

  /** The counter and the tracked-item test agree on every variant. */
  lemma {:induction false} CounterAgreesWithTracking(counts: ToolCounts, item: ThreadItem)
    ensures TrackedToolItemId(item).Some? <==> ToolOf(item).Some?
    ensures TrackedToolItemId(item).Some? <==> Counted(counts, item).total == counts.total + 1
    ensures TrackedToolItemId(item).None? ==> Counted(counts, item) == counts
  {
  }

  lemma {:induction false} CountSnoc(items: seq<ThreadItem>, item: ThreadItem, tool: Tool)
    ensures CountOf(items + [item], tool) == CountOf(items, tool) + (if ToolOf(item) == Some(tool) then 1 else 0)
  {
    assert (items + [item])[..|items + [item]| - 1] == items;
  }

  lemma {:induction false} TallySnoc(items: seq<ThreadItem>, item: ThreadItem)
    requires ToolOf(item).Some?
    ensures Counted(Tally(items), item) == Tally(items + [item])
  {
    CountSnoc(items, item, Shell);
    CountSnoc(items, item, Edit);
    CountSnoc(items, item, Mcp);
    CountSnoc(items, item, Dynamic);
    CountSnoc(items, item, Subagent);
    CountSnoc(items, item, Search);
    CountSnoc(items, item, Image);
  }

  ghost predicate AllTools(items: seq<ThreadItem>) {
    forall i :: 0 <= i < |items| ==> ToolOf(items[i]).Some?
  }

  function SumOfKinds(c: ToolCounts): nat {
    c.shellCommand + c.fileChange + c.mcpToolCall + c.dynamicToolCall + c.subagentToolCall + c.webSearch +
        c.imageGeneration
  }

  lemma {:induction false} TotalIsSum(items: seq<ThreadItem>)
    requires AllTools(items)
    ensures Tally(items).total == SumOfKinds(Tally(items))
  {
    if items != [] {
      var n := |items| - 1;
      TotalIsSum(items[..n]);
      TallySnoc(items[..n], items[n]);
      assert items[..n] + [items[n]] == items;
    }
  }

  /** The tracked items completed for the turn while live since it was last reported. */
  ghost function ItemsSince(ops: seq<Op>, turn: TurnId): (r: seq<ThreadItem>) {
    if ops == [] then []
    else
      var before, op := ops[..|ops| - 1], ops[|ops| - 1];
      if TurnEventsIn(LastOut(ops), turn) != [] then []
      else if op.EndItem? && op.key.turn == turn && Live(before, turn) then ItemsSince(before, turn) + [op.item]
      else ItemsSince(before, turn)
  }

  /** An accepted steer that answers a steer asked for, by history. */
  predicate AcceptsSteer(ops: seq<Op>, op: Op, turn: TurnId) {
    op.SteerReply? && op.turn == turn && RequestOf(ops, RequestKey(op.conn, op.request)).Some?
    && RequestOf(ops, RequestKey(op.conn, op.request)).value.TurnSteer?
  }

  /** The same, by the reducer's maps. */
  predicate IsMatchedSteer(s: State, op: Op, turn: TurnId) {
    op.SteerReply? && op.turn == turn && RequestKey(op.conn, op.request) in s.requests
    && s.requests[RequestKey(op.conn, op.request)].TurnSteer?
  }

  /** The steers accepted for the turn while live since it was last reported. */
  ghost function SteersSince(ops: seq<Op>, turn: TurnId): (r: nat) {
    if ops == [] then 0
    else
      var before, op := ops[..|ops| - 1], ops[|ops| - 1];
      if TurnEventsIn(LastOut(ops), turn) != [] then 0
      else SteersSince(before, turn) + One(AcceptsSteer(before, op, turn) && Live(before, turn))
  }

  /** The operations that facts decode to end only tracked items. */
  ghost predicate EndsTools(ops: seq<Op>) {
    forall i :: 0 <= i < |ops| && ops[i].EndItem? ==> ToolOf(ops[i].item).Some?
  }

  /** What an operation does to a turn's counters, when it ends `item` for the turn, or
      brings it a steer. */
  ghost predicate CountersStep(was: TurnState, now: TurnState, events: seq<Event>, item: Option<ThreadItem>,
                               steered: bool) {
    && (events != [] ==>
          && now == BLANK_TURN && |events| == 1 && events[0].TurnEvent?
          && events[0].tools == was.tools && events[0].steers == was.steers)
    && (events == [] ==>
          && now.tools == (if item.Some? then Counted(was.tools, item.value) else was.tools)
          && now.steers == was.steers + One(steered))
  }

  ghost function ItemFor(s: State, op: Op, turn: TurnId): Option<ThreadItem> {
    if op.EndItem? && op.key.turn == turn && turn in s.turns then Some(op.item) else None
  }

  ghost predicate Steered(s: State, op: Op, turn: TurnId) {
    IsMatchedSteer(s, op, turn) && turn in s.turns
  }

  lemma {:induction false} ItemCounters(s: State, op: Op, turn: TurnId)
    requires op.EndItem? && op.key.turn == turn
    ensures var o := Apply(s, op);
            CountersStep(TurnOf(s, turn), TurnOf(o.state, turn), TurnEventsIn(o.out, turn), ItemFor(s, op, turn), false)
  {
    QuietOut(s, op);
    NoneIn(Apply(s, op).out, turn);
  }

  lemma {:induction false} SteerCounters(s: State, op: Op, turn: TurnId)
    requires op.SteerReply? && op.turn == turn
    ensures var o := Apply(s, op);
            CountersStep(TurnOf(s, turn), TurnOf(o.state, turn), TurnEventsIn(o.out, turn), None, Steered(s, op, turn))
  {
    QuietOut(s, op);
    NoneIn(Apply(s, op).out, turn);
  }

  lemma {:induction false} Counters(s: State, op: Op, turn: TurnId)
    ensures var o := Apply(s, op);
            CountersStep(TurnOf(s, turn), TurnOf(o.state, turn), TurnEventsIn(o.out, turn), ItemFor(s, op, turn),
                Steered(s, op, turn))
  {
    if !Concerns(op, turn) {
      Elsewhere(s, op, turn);
    } else if op.PatchTurn? {
      PatchReports(s, turn, op.patch, op.emit);
    } else if op.StartReply? {
      StartReports(s, op.conn, op.request, turn, op.reading);
    } else if op.EndItem? {
      ItemCounters(s, op, turn);
    } else {
      SteerCounters(s, op, turn);
    }
  }

  lemma {:induction false} CountersAreHistory(ops: seq<Op>, turn: TurnId)
    requires EndsTools(ops)
    ensures TurnOf(After(ops), turn).tools == Tally(ItemsSince(ops, turn)) && AllTools(ItemsSince(ops, turn))
    ensures TurnOf(After(ops), turn).steers == SteersSince(ops, turn)
  {
    if ops != [] {
      var before, op := ops[..|ops| - 1], ops[|ops| - 1];
      CountersAreHistory(before, turn);
      LiveIsHistory(before, turn);
      if op.SteerReply? { RequestIsHistory(before, RequestKey(op.conn, op.request)); }
      Counters(After(before), op, turn);
      if op.EndItem? { TallySnoc(ItemsSince(before, turn), op.item); }
    }
  }

  lemma {:induction false} FactsEndTools(facts: seq<Fact>)
    ensures EndsTools(Decoded(facts))
  {
  }

  /** In every reachable state a turn's tool counters are the tally of the tracked items
      completed since its state was made, so that `total` is the sum of the seven kinds, and
      its steer counter the steers accepted since. */
  lemma {:induction false} TurnCountersEqualHistory(facts: seq<Fact>, turn: TurnId)
    ensures var ops := Decoded(facts);
            && TurnOf(After(ops), turn).tools == Tally(ItemsSince(ops, turn))
            && TurnOf(After(ops), turn).steers == SteersSince(ops, turn)
            && TurnOf(After(ops), turn).tools.total == SumOfKinds(TurnOf(After(ops), turn).tools)
  {
    FactsEndTools(facts);
    CountersAreHistory(Decoded(facts), turn);
    TotalIsSum(ItemsSince(Decoded(facts), turn));
  }

  lemma {:induction false} TheOneEvent(was: TurnState, now: TurnState, events: seq<Event>, item: Option<ThreadItem>,
                                       steered: bool, e: Event)
    requires CountersStep(was, now, events, item, steered) && e in events
    ensures e.TurnEvent? && e.tools == was.tools && e.steers == was.steers
  {
  }

  lemma {:induction false} EventCarries(s: State, op: Op, turn: TurnId, e: Event)
    requires e in TurnEventsIn(Apply(s, op).out, turn)
    ensures e.TurnEvent? && e.tools == TurnOf(s, turn).tools && e.steers == TurnOf(s, turn).steers
  {
    Counters(s, op, turn);
    var o := Apply(s, op);
    TheOneEvent(TurnOf(s, turn), TurnOf(o.state, turn), TurnEventsIn(o.out, turn), ItemFor(s, op, turn),
        Steered(s, op, turn), e);
  }

  /** Every turn event carries them. */
  lemma {:induction false} TurnEventCarriesHistory(facts: seq<Fact>, fact: Fact, turn: TurnId, e: Event)
    requires e in TurnEventsIn(Apply(After(Decoded(facts)), Decode(fact)).out, turn)
    ensures e.TurnEvent? && e.tools == Tally(ItemsSince(Decoded(facts), turn)) &&
            e.steers == SteersSince(Decoded(facts), turn)
  {
    FactsEndTools(facts);
    CountersAreHistory(Decoded(facts), turn);
    EventCarries(After(Decoded(facts)), Decode(fact), turn, e);
  }
}
