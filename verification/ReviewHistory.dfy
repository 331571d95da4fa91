/** The review summary of an item against its history: the rulings on it since its summary
    was last used up; and every review request is resolved at most once. */
module ReviewHistory {
  import opened Basics
  import opened AnalyticsFacts
  import opened AnalyticsReducer
  import opened FactHistory

  // ----- pending reviews

  /** The review a request is waiting for, by history: the last one opened, unless resolved since. */
  function PendingOf(ops: seq<Op>, request: RequestId): (r: Option<Review>) {
    if ops == [] then None
    else
      var before, op := ops[..|ops| - 1], ops[|ops| - 1];
      if op.OpenReview? && op.request == request then Some(op.review)
      else if op.ResolveReview? && op.request == request then None
      else PendingOf(before, request)
  }

  function PendingIn(s: State, request: RequestId): Option<Review> {
    if request in s.reviews then Some(s.reviews[request]) else None
  }

  lemma {:induction false} ReviewsKept(s: State, op: Op)
    requires !op.OpenReview? && !op.ResolveReview?
    ensures Apply(s, op).state.reviews == s.reviews
  {
  }

  lemma {:induction false} ReviewTaken(s: State, op: Op)
    requires op.ResolveReview?
    ensures Apply(s, op).state.reviews == s.reviews - {op.request}
  {
  }

  lemma {:induction false} PendingIsHistory(ops: seq<Op>, request: RequestId)
    ensures PendingIn(After(ops), request) == PendingOf(ops, request)
  {
    if ops != [] {
      var before, op := ops[..|ops| - 1], ops[|ops| - 1];
      PendingIsHistory(before, request);
      if op.ResolveReview? {
        ReviewTaken(After(before), op);
      } else if !op.OpenReview? {
        ReviewsKept(After(before), op);
      }
    }
  }

  // ----- each request is resolved at most once

  function Opens(ops: seq<Op>, request: RequestId): (r: nat) {
    if ops == [] then 0
    else
      var op := ops[|ops| - 1];
      Opens(ops[..|ops| - 1], request) + (if op.OpenReview? && op.request == request then 1 else 0)
  }

  /** The answers that resolved a pending review. */
  function Resolutions(ops: seq<Op>, request: RequestId): (r: nat) {
    if ops == [] then 0
    else
      var before, op := ops[..|ops| - 1], ops[|ops| - 1];
      Resolutions(before, request) + (if op.ResolveReview? && op.request == request &&
          PendingOf(before, request).Some? then 1 else 0)
  }

  lemma {:induction false} ResolvedOrPending(ops: seq<Op>, request: RequestId)
    ensures Resolutions(ops, request) + (if PendingOf(ops, request).Some? then 1 else 0) <= Opens(ops, request)
  {
    if ops != [] {
      ResolvedOrPending(ops[..|ops| - 1], request);
    }
  }

  /** The answer at `i` resolved a pending review. */
  predicate Resolves(ops: seq<Op>, i: nat, request: RequestId)
    requires i < |ops|
  {
    ops[i].ResolveReview? && ops[i].request == request && PendingOf(ops[..i], request).Some?
  }

  ghost predicate OpenedBetween(ops: seq<Op>, i: nat, j: nat, request: RequestId)
    requires j <= |ops|
  {
    exists k :: i < k < j && ops[k].OpenReview? && ops[k].request == request
  }

  lemma {:induction false} PendingWasOpened(ops: seq<Op>, i: nat, j: nat, request: RequestId)
    requires i < j <= |ops| && ops[i].ResolveReview? && ops[i].request == request && PendingOf(ops[..j], request).Some?
    ensures OpenedBetween(ops, i, j, request)
  {
    var before, op := ops[..j][..j - 1], ops[j - 1];
    assert before == ops[..j - 1] && ops[..j][j - 1] == op;
    if !(op.OpenReview? && op.request == request) {
      PendingWasOpened(ops, i, j - 1, request);
    }
  }

  /** No review is resolved twice: between two answers that each resolve a review for one
      request id, a review was opened under that id. */
  lemma {:induction false} ResolvedAtMostOnce(ops: seq<Op>, i: nat, j: nat, request: RequestId)
    requires i < j < |ops| && Resolves(ops, i, request) && Resolves(ops, j, request)
    ensures OpenedBetween(ops, i, j, request)
  {
    PendingWasOpened(ops, i, j, request);
  }

  /** Over any run no more answers resolve a review than reviews were opened. */
  lemma {:induction false} ResolvedNoMoreThanOpened(ops: seq<Op>, request: RequestId)
    ensures Resolutions(ops, request) <= Opens(ops, request)
  {
    ResolvedOrPending(ops, request);
  }

  // ----- summaries

  datatype Ruling = Ruling(review: Review, verdict: Verdict)

  /** The ruling an operation brings, after the history `ops`. */
  function RulingOf(ops: seq<Op>, op: Op): Option<Ruling> {
    if op.Judge? then Some(Ruling(op.review, op.verdict))
    else if op.ResolveReview? && PendingOf(ops, op.request).Some?
        then Some(Ruling(PendingOf(ops, op.request).value, op.verdict))
    else None
  }

  predicate RulesOn(r: Option<Ruling>, key: ItemKey) {
    r.Some? && SummaryKey(r.value.review) == Some(key)
  }

  predicate UsesUp(s: State, op: Op, key: ItemKey) {
    op.EndItem? && op.key == key && ClosesItem(s, key, op.ended)
  }

  /** The item is completed with its turn live, its start seen and its context known. */
  predicate Completes(ops: seq<Op>, op: Op, key: ItemKey) {
    op.EndItem? && op.key == key && op.ended.Some? && Live(ops, key.turn) && StartOf(ops, key).Some? &&
        InContext(ops, key.thread)
  }

  lemma {:induction false} CompletionUsesUp(ops: seq<Op>, op: Op, key: ItemKey)
    ensures UsesUp(After(ops), op, key) <==> Completes(ops, op, key)
  {
    LiveIsHistory(ops, key.turn);
    StartIsHistory(ops, key);
    ContextIsHistory(ops, key.thread);
  }

  /** The rulings on an item since it was last completed. */
  ghost function RulingsSince(ops: seq<Op>, key: ItemKey): (r: seq<Ruling>) {
    if ops == [] then []
    else
      var before, op := ops[..|ops| - 1], ops[|ops| - 1];
      if Completes(before, op, key) then []
      else if RulesOn(RulingOf(before, op), key) then RulingsSince(before, key) + [RulingOf(before, op).value]
      else RulingsSince(before, key)
  }

  function CountBy(rulings: seq<Ruling>, reviewer: Reviewer): (r: nat) {
    if rulings == [] then 0
    else
      var n := |rulings| - 1;
      CountBy(rulings[..n], reviewer) + (if rulings[n].verdict.reviewer == reviewer then 1 else 0)
  }

  predicate AskedForPermissions(rulings: seq<Ruling>) {
    exists i :: 0 <= i < |rulings| && rulings[i].review.permissions
  }

  predicate AskedForNetwork(rulings: seq<Ruling>) {
    exists i :: 0 <= i < |rulings| && rulings[i].review.network
  }

  function LastOutcome(rulings: seq<Ruling>): Option<FinalOutcome> {
    if rulings == [] then None else Some(FinalApprovalOutcome(rulings[|rulings| - 1].verdict))
  }

  /** The summary a history of rulings calls for. */
  function Digest(rulings: seq<Ruling>): ReviewSummary {
    ReviewSummary(|rulings|, CountBy(rulings, Guardian), CountBy(rulings, User), LastOutcome(rulings),
                  AskedForPermissions(rulings), AskedForNetwork(rulings))
  }

  lemma {:induction false} CountBySnoc(rulings: seq<Ruling>, r: Ruling, reviewer: Reviewer)
    ensures CountBy(rulings + [r], reviewer) == CountBy(rulings, reviewer) +
            (if r.verdict.reviewer == reviewer then 1 else 0)
  {
    assert (rulings + [r])[..|rulings + [r]| - 1] == rulings;
  }

  lemma {:induction false} AskedSnoc(rulings: seq<Ruling>, r: Ruling)
    ensures AskedForPermissions(rulings + [r]) == (AskedForPermissions(rulings) || r.review.permissions)
    ensures AskedForNetwork(rulings + [r]) == (AskedForNetwork(rulings) || r.review.network)
  {
    var all := rulings + [r];
    assert all[|rulings|] == r;
    if i :| 0 <= i < |rulings| && rulings[i].review.permissions { assert all[i].review.permissions; }
    if i :| 0 <= i < |rulings| && rulings[i].review.network { assert all[i].review.network; }
  }

  lemma {:induction false} DigestSnoc(rulings: seq<Ruling>, r: Ruling)
    ensures Recorded(Digest(rulings), r.review, r.verdict) == Digest(rulings + [r])
  {
    CountBySnoc(rulings, r, Guardian);
    CountBySnoc(rulings, r, User);
    AskedSnoc(rulings, r);
  }

  lemma {:induction false} CountsSplit(rulings: seq<Ruling>)
    ensures Digest(rulings).reviews == Digest(rulings).guardian + Digest(rulings).user
  {
    if rulings != [] { CountsSplit(rulings[..|rulings| - 1]); }
  }

  lemma {:induction false} SummariesKept(s: State, op: Op)
    requires !op.EndItem? && !op.Judge? && !op.ResolveReview?
    ensures Apply(s, op).state.summaries == s.summaries
  {
  }

  lemma {:induction false} EndItemSummary(s: State, op: Op, key: ItemKey)
    requires op.EndItem?
    ensures UsesUp(s, op, key) ==> key !in Apply(s, op).state.summaries
    ensures !UsesUp(s, op, key) ==> SameSummary(s, Apply(s, op).state, key)
  {
  }

  ghost predicate SameSummary(s: State, t: State, key: ItemKey) {
    (key in t.summaries <==> key in s.summaries) && SummaryOf(t, key) == SummaryOf(s, key)
  }

  lemma {:induction false} JudgeSummary(s: State, review: Review, verdict: Verdict, at: nat, key: ItemKey)
    ensures var t := DoJudge(s, review, verdict, at).state;
            && (SummaryKey(review) == Some(key) ==>
               key in t.summaries && SummaryOf(t, key) == Recorded(SummaryOf(s, key), review, verdict))
            && (SummaryKey(review) != Some(key) ==> SameSummary(s, t, key))
  {
  }

  /** What an operation does to an item's summary. */
  lemma {:induction false} SummaryStep(ops: seq<Op>, op: Op, key: ItemKey)
    ensures var s, t, r := After(ops), Apply(After(ops), op).state, RulingOf(ops, op);
            && (UsesUp(s, op, key) ==> key !in t.summaries)
            && (!UsesUp(s, op, key) && RulesOn(r, key) ==>
                  key in t.summaries && SummaryOf(t, key) == Recorded(SummaryOf(s, key), r.value.review,
                      r.value.verdict))
            && (!UsesUp(s, op, key) && !RulesOn(r, key) ==> SameSummary(s, t, key))
  {
    var s := After(ops);
    if op.EndItem? {
      EndItemSummary(s, op, key);
    } else if op.Judge? {
      JudgeSummary(s, op.review, op.verdict, op.at, key);
    } else if op.ResolveReview? {
      PendingIsHistory(ops, op.request);
      ResolveSummary(s, op, key);
    } else {
      SummariesKept(s, op);
    }
  }

  lemma {:induction false} ResolveSummary(s: State, op: Op, key: ItemKey)
    requires op.ResolveReview?
    ensures var t, p := Apply(s, op).state, PendingIn(s, op.request);
            && (p.Some? && SummaryKey(p.value) == Some(key) ==>
                  key in t.summaries && SummaryOf(t, key) == Recorded(SummaryOf(s, key), p.value, op.verdict))
            && (!(p.Some? && SummaryKey(p.value) == Some(key)) ==> SameSummary(s, t, key))
  {
    if op.request in s.reviews {
      JudgeSummary(s.(reviews := s.reviews - {op.request}), s.reviews[op.request], op.verdict, op.at, key);
    }
  }

  /** In every reachable state an item's summary is the digest of the rulings on it since the
      summary was last used up, with as many reviews as guardian and user reviews together. */
  lemma {:induction false} SummariesEqualHistory(ops: seq<Op>, key: ItemKey)
    ensures key in After(ops).summaries <==> RulingsSince(ops, key) != []
    ensures SummaryOf(After(ops), key) == Digest(RulingsSince(ops, key))
    ensures SummaryOf(After(ops), key).reviews == SummaryOf(After(ops), key).guardian + SummaryOf(After(ops), key).user
  {
    if ops != [] {
      var before, op := ops[..|ops| - 1], ops[|ops| - 1];
      SummariesEqualHistory(before, key);
      SummaryStep(before, op, key);
      CompletionUsesUp(before, op, key);
      if RulesOn(RulingOf(before, op), key) { DigestSnoc(RulingsSince(before, key), RulingOf(before, op).value); }
    }
    CountsSplit(RulingsSince(ops, key));
  }

  lemma {:induction false} ToolItemSummary(s: State, op: Op, e: Event)
    requires e in Apply(s, op).out && e.ToolItem?
    ensures op.EndItem? && op.key == e.key && e.summary == SummaryOf(s, e.key)
  {
  }

  /** Every tool event carries the digest of its item's history. */
  lemma {:induction false} ToolEventCarriesHistory(ops: seq<Op>, op: Op, e: Event)
    requires e in Apply(After(ops), op).out && e.ToolItem?
    ensures e.summary == Digest(RulingsSince(ops, e.key)) && e.summary.reviews == e.summary.guardian + e.summary.user
  {
    ToolItemSummary(After(ops), op, e);
    SummariesEqualHistory(ops, e.key);
  }

  lemma {:induction false} ToolItemSpan(s: State, op: Op, e: Event)
    requires e in Apply(s, op).out && e.ToolItem?
    ensures op.EndItem? && op.key == e.key && StartIn(s, e.key) == Some(e.from) && op.ended == Some(e.until)
    ensures e.duration == ObservedDuration(e.from, e.until)
  {
  }

  /** Every tool event spans its item: from the time it was last started, by history, until
      the time it completed; and its duration is what lies between, unless time ran back. */
  lemma {:induction false} ToolEventSpansItem(ops: seq<Op>, op: Op, e: Event)
    requires e in Apply(After(ops), op).out && e.ToolItem?
    ensures StartOf(ops, e.key) == Some(e.from) && op.EndItem? && op.ended == Some(e.until)
    ensures e.from <= e.until ==> e.duration == Some(e.until - e.from)
    ensures e.until < e.from ==> e.duration == None
  {
    ToolItemSpan(After(ops), op, e);
    StartIsHistory(ops, e.key);
  }
}
