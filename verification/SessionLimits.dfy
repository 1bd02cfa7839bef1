/**
 * Where streaming sessions meet the limits of the scheduler: an empty chunk
 * trips the assertion on admitted requests, and a chunk that reaches beyond the
 * model length, unless it is admitted whole, is never computed to its end.
 */
module SessionLimits {
  import opened Seqs
  import opened Requests
  import opened SchedulerSpec
  import opened Accounting
  import opened Engine
  import opened EngineStep
  import opened ReportStep
  import opened Runs

  /**
   * A continued session passes the assertion that a waiting request has tokens
   * to schedule exactly when its new chunk is not empty.
   */
  lemma {:induction false} ContinuedSessionHasTokens(c: Config, run: seq<Event>, id: Id, u: Update, budget: int)
    requires LegalRun(c, INITIAL, run) && budget > 0
    requires var s := After(c, INITIAL, run).s; id in s.reqs && s.reqs[id].status == WaitingForStreamingReq
    ensures var w := Session(After(c, INITIAL, run).s, id, u).reqs[id];
      w.computed > 0 && (Min(WaitingWant(c, w, w.computed), budget) > 0 <==> u.prompt != [])
  {
    hide LegalRun, After, Session;
    SessionUpdateKeepsComputed(c, run, id, u);
    InitialInv(c);
    RunKeepsInv(c, INITIAL, run);
    AwaitingComputed(c, After(c, INITIAL, run), id);
    hide EngineInv;
  }

  lemma AwaitingComputed(c: Config, e: Engine, id: Id)
    requires EngineInv(c, e) && id in e.s.reqs && e.s.reqs[id].status == WaitingForStreamingReq
    ensures e.s.reqs[id].computed > 0 && e.s.reqs[id].spec == []
  {
    assert RequestOk(c, e, id);
  }

  /**
   * A running request with tokens left is planned for exactly when the next
   * position is below the last one of the model; at that position it is passed
   * over, and beyond it the planned count is negative.
   */
  lemma RunningWantSign(c: Config, v: View, budget: int)
    requires v.computed < |v.all| + |v.spec| && budget > 0
    ensures RunningWant(c, v, budget) > 0 <==> v.computed < c.maxModelLen - 1
    ensures RunningWant(c, v, budget) == 0 <==> v.computed == c.maxModelLen - 1
  {
  }

  /**
   * A request without drafts is planned for at every position up to its last
   * token exactly when it has none left or all its tokens stay below the model
   * length.
   */
  lemma WantsToTheEnd(c: Config, v: View, budget: int)
    requires v.spec == [] && 0 <= v.computed <= |v.all| && budget > 0
    ensures (forall k :: v.computed <= k < |v.all| ==> RunningWant(c, v.(computed := k), budget) > 0)
       <==> v.computed == |v.all| || |v.all| < c.maxModelLen
  {
    hide RunningWant;
    forall k | v.computed <= k < |v.all|
      ensures RunningWant(c, v.(computed := k), budget) > 0 <==> k < c.maxModelLen - 1
    {
      RunningWantSign(c, v.(computed := k), budget);
    }
    var last := |v.all| - 1;
    assert v.computed < |v.all| ==> (RunningWant(c, v.(computed := last), budget) > 0 <==> last < c.maxModelLen - 1);
  }

  /** Where a running request without drafts is after steps with these token budgets, if nothing else interferes. */
  function Walk(c: Config, v: View, budgets: seq<int>): int
    decreases |budgets|
  {
    if budgets == [] || v.computed >= |v.all| then v.computed
    else Walk(c, v.(computed := v.computed + RunningWant(c, v, budgets[0])), budgets[1..])
  }

  ghost predicate Positive(budgets: seq<int>) { forall k :: 0 <= k < |budgets| ==> budgets[k] > 0 }

  lemma {:induction false} WalkArrives(c: Config, v: View, budgets: seq<int>)
    requires v.spec == [] && 0 <= v.computed <= |v.all| < c.maxModelLen
    requires Positive(budgets) && |budgets| >= |v.all| - v.computed
    ensures Walk(c, v, budgets) == |v.all|
    decreases |budgets|
  {
    if v.computed < |v.all| {
      assert budgets[0] > 0;
      WalkArrives(c, v.(computed := v.computed + RunningWant(c, v, budgets[0])), budgets[1..]);
    }
  }

  lemma {:induction false} WalkEndsEarly(c: Config, v: View, budgets: seq<int>)
    requires v.spec == [] && v.computed < |v.all| && |v.all| >= c.maxModelLen && Positive(budgets)
    ensures Walk(c, v, budgets) < |v.all|
    decreases |budgets|
  {
    if budgets != [] {
      assert budgets[0] > 0;
      WalkEndsEarly(c, v.(computed := v.computed + RunningWant(c, v, budgets[0])), budgets[1..]);
    }
  }

  /**
   * A continued session that is admitted with a first plan of `n` tokens and
   * goes on running has its chunk computed, given enough steps, exactly when
   * that plan was the whole chunk or the chunk, behind the computed tokens,
   * stays below the model length. This is also when no later plan can be zero
   * or negative.
   */
  lemma {:induction false} ChunkFitsIff(c: Config, run: seq<Event>, id: Id, u: Update, n: int, budgets: seq<int>, budget: int)
    requires LegalRun(c, INITIAL, run) && 0 < n <= |u.prompt| && budget > 0
    requires Positive(budgets) && |budgets| >= |u.prompt|
    requires var s := After(c, INITIAL, run).s; id in s.reqs && s.reqs[id].status == WaitingForStreamingReq
    ensures var s := After(c, INITIAL, run).s;
            var w := Session(s, id, u).reqs[id];
            var v := w.(computed := w.computed + n);
            var fits := n == |u.prompt| || s.reqs[id].computed + |u.prompt| < c.maxModelLen;
            && (Walk(c, v, budgets) == |w.all| <==> fits)
            && ((forall k :: v.computed <= k < |v.all| ==> RunningWant(c, v.(computed := k), budget) > 0) <==> fits)
  {
    hide LegalRun, After, RunningWant, Positive, Walk;
    SessionUpdateKeepsComputed(c, run, id, u);
    InitialInv(c);
    RunKeepsInv(c, INITIAL, run);
    AwaitingComputed(c, After(c, INITIAL, run), id);
    hide EngineInv;
    var w := Session(After(c, INITIAL, run).s, id, u).reqs[id];
    var v := w.(computed := w.computed + n);
    WantsToTheEnd(c, v, budget);
    if v.computed == |v.all| {
      WalkStays(c, v, budgets);
    } else if |v.all| < c.maxModelLen {
      WalkArrives(c, v, budgets);
    } else {
      WalkEndsEarly(c, v, budgets);
    }
  }

  lemma WalkStays(c: Config, v: View, budgets: seq<int>)
    requires v.computed == |v.all|
    ensures Walk(c, v, budgets) == |v.all|
  {
  }

  /** The first plan of a continued session is made without regard to the model length. */
  lemma {:induction false} WholeChunkIff(c: Config, run: seq<Event>, id: Id, u: Update, budget: int)
    requires LegalRun(c, INITIAL, run) && budget > 0 && u.prompt != []
    requires var s := After(c, INITIAL, run).s; id in s.reqs && s.reqs[id].status == WaitingForStreamingReq
    ensures var w := Session(After(c, INITIAL, run).s, id, u).reqs[id];
            var n := Min(WaitingWant(c, w, w.computed), budget);
            && 0 < n <= |u.prompt|
            && (n == |u.prompt| <==> |u.prompt| <= budget && !(0 < c.longPrefill < |u.prompt|))
  {
    hide LegalRun, After, Session;
    SessionUpdateKeepsComputed(c, run, id, u);
  }

  /** As long as every chunk fits, each running request is planned for in every step. */
  lemma {:induction false} RunningAlwaysWants(c: Config, run: seq<Event>, id: Id, budget: int)
    requires LegalRun(c, INITIAL, run) && After(c, INITIAL, run).pending.None? && budget > 0
    requires id in After(c, INITIAL, run).s.running
    ensures var s := After(c, INITIAL, run).s; RunningWant(c, At(s, id), budget) > 0
  {
    hide LegalRun, After;
    InitialInv(c);
    RunKeepsInv(c, INITIAL, run);
    var e := After(c, INITIAL, run);
    AtRest(c, e);
    hide EngineInv;
    RunningReady(c, e.s, id);
    RunningWantSign(c, e.s.reqs[id], budget);
  }

  lemma RunningReady(c: Config, s: State, id: Id)
    requires ScheduleStep.Rest(c, s) && id in s.running
    ensures id in s.reqs && s.reqs[id].computed < |s.reqs[id].all| < c.maxModelLen
  {
    ScheduleStep.RunningKnown(s, id);
    assert Ready(c, s.reqs[id]);
  }
}
