/** What a step gives out, in every step of every run. */
module StepResults {
  import opened Seqs
  import opened Requests
  import opened SchedulerSpec
  import opened Accounting
  import opened ScheduleStep
  import opened Engine
  import opened EngineStep
  import opened ReportStep
  import opened StepCounts
  import opened WaitingLine
  import opened RequestFates
  import opened LineOrder
  import opened Urgency
  import M = MambaSplit

  lemma AtRestAfter(c: Config, run: seq<Event>, env: Env)
    requires LegalRun(c, INITIAL, run) && Legal(c, After(c, INITIAL, run), Event.Step(env))
    ensures var s := After(c, INITIAL, run).s; Rest(c, s) && EnvOk(env, s)
  {
    hide EngineInv, LegalRun, After, Legal;
    InitialInv(c);
    RunKeepsInv(c, INITIAL, run);
    StepParts(c, After(c, INITIAL, run), env);
    AtRest(c, After(c, INITIAL, run));
  }

  /**
   * In every step of every run, each request gets no more than it has left, no
   * more than the long-prefill threshold, and a running one stays below the
   * last position of the model; it got slots for that and the look-ahead; its
   * computed count then lies that many tokens behind what was computed, cached
   * or loaded; and what is scheduled of its drafts is what lies within.
   */
  lemma EveryCountIsAllowed(c: Config, run: seq<Event>, env: Env, id: Id)
    requires LegalRun(c, INITIAL, run) && Legal(c, After(c, INITIAL, run), Event.Step(env))
    requires id in SchedulePass(c, env, After(c, INITIAL, run).s).order
    ensures var s := After(c, INITIAL, run).s;
            var out := OutputOf(SchedulePass(c, env, s));
            var n := Get(out.num, id);
            && Allowed(c, env, s, id, n) && (c.longPrefill > 0 ==> n <= c.longPrefill)
            && Slots(c, env, s, id, n)
            && At(Schedule(c, env, s), id).computed == Base(c, env, s, id) + n
            && Drafts(out.specs, id) == DraftsWithin(s, id, n)
  {
    hide LegalRun, After, Legal, Rest, EnvOk, SchedulePass, Schedule, Slots, Base, DraftsWithin, Maximal;
    AtRestAfter(c, run, env);
    ScheduleCounted(c, env, After(c, INITIAL, run).s);
  }

  /**
   * Nor does it get one token less, unless the budget is used up by those
   * scheduled before it, as long as no scheduled request was taken back. Without
   * chunked prefill no waiting request is cut short by the budget at all. Only
   * encoder inputs and block alignment take something of that.
   */
  lemma CountsAreMaximal(c: Config, run: seq<Event>, env: Env, k: nat)
    requires LegalRun(c, INITIAL, run) && Legal(c, After(c, INITIAL, run), Event.Step(env))
    requires k < |SchedulePass(c, env, After(c, INITIAL, run).s).order|
    requires c.priority ==> SchedulePass(c, env, After(c, INITIAL, run).s).preempted == []
    ensures var s := After(c, INITIAL, run).s;
            var p := SchedulePass(c, env, s);
            var id, left := p.order[k], Left(p, Tokens(c, s), k);
            var n := Get(p.num, id);
            && n <= left
            && (!At(s, id).enc && !c.mamba ==>
                  && (n == left || !Allowed(c, env, s, id, n + 1))
                  && (!c.chunked && id !in s.running ==> !Allowed(c, env, s, id, n + 1)))
            && exists m: nat, b: nat :: MostOf(c, env, s, id, m, left) && n == Fitted(c, env, s, id, m, b)
  {
    hide LegalRun, After, Legal, Rest, EnvOk, SchedulePass, Allowed, CountOk;
    AtRestAfter(c, run, env);
    ScheduleCounted(c, env, After(c, INITIAL, run).s);
    assert Maximal(c, env, After(c, INITIAL, run).s, SchedulePass(c, env, After(c, INITIAL, run).s),
                   Tokens(c, After(c, INITIAL, run).s), k);
  }

  /**
   * With block-aligned splits a step leaves each request without encoder inputs
   * that was at a block boundary, up to its last cache position, at one again,
   * or beyond that position; but it steps over it only as `DecodesPastCache`
   * says, for the offer `m`.
   */
  lemma ChunksStayAligned(c: Config, run: seq<Event>, env: Env, k: nat) returns (m: nat)
    requires LegalRun(c, INITIAL, run) && Legal(c, After(c, INITIAL, run), Event.Step(env))
    requires k < |SchedulePass(c, env, After(c, INITIAL, run).s).order|
    requires c.priority ==> SchedulePass(c, env, After(c, INITIAL, run).s).preempted == []
    requires c.mamba && c.blockSize > 0
    ensures var s := After(c, INITIAL, run).s;
            var p := SchedulePass(c, env, s);
            var id := p.order[k];
            var f, base, after := Chunked(c, s, id), Base(c, env, s, id), Base(c, env, s, id) + Get(p.num, id);
            var last := M.LastCachePosition(f);
      && MostOf(c, env, s, id, m, Left(p, Tokens(c, s), k))
      && (f.Valid() && !At(s, id).enc && 0 <= base <= last && M.Aligned(base, c.blockSize) ==>
            && (after <= last ==> M.Aligned(after, c.blockSize))
            && (base < last < after <==> M.DecodesPastCache(f, base, m)))
  {
    hide LegalRun, After, Legal, SchedulePass, Base, Left, MostOf, M.LastCachePosition, M.DecodesPastCache, M.Aligned;
    CountsAreMaximal(c, run, env, k);
    var s := After(c, INITIAL, run).s;
    var p := SchedulePass(c, env, s);
    var id := p.order[k];
    var offer: nat, b: nat :| MostOf(c, env, s, id, offer, Left(p, Tokens(c, s), k)) && Get(p.num, id) == Fitted(c, env, s, id, offer, b);
    m := offer;
    var f, base := Chunked(c, s, id), Base(c, env, s, id);
    if f.Valid() && !At(s, id).enc && 0 <= base <= M.LastCachePosition(f) && M.Aligned(base, c.blockSize) {
      M.ChunkStep(f, base, m);
    }
  }

  // ------------------------------------------------------------------------------------- drafts

  /**
   * `update_draft_token_ids`: an unfinished request beyond its prefill has the
   * drafts it was given, one in its prefill has none, and all others keep theirs.
   */
  lemma DraftsAreSet(s: State, drafts: map<Id, seq<Token>>, id: Id)
    requires id in s.reqs
    ensures var v, t := s.reqs[id], UpdateDrafts(s, drafts);
      && id in t.reqs && t.reqs[id] == v.(spec := t.reqs[id].spec)
      && (id in drafts && !IsFinished(v.status) && !v.prefill ==> t.reqs[id].spec == drafts[id])
      && (id in drafts && !IsFinished(v.status) && v.prefill ==> t.reqs[id].spec == [])
      && (id !in drafts || IsFinished(v.status) ==> t.reqs[id].spec == v.spec)
  {
  }

  /**
   * The drafts that the next step schedules for a running request are the first
   * of those it was given, as many as its count covers.
   */
  lemma DraftsReachTheStep(c: Config, run: seq<Event>, drafts: map<Id, seq<Token>>, env: Env, id: Id)
    requires LegalRun(c, INITIAL, run + [Event.Draft(drafts)])
    requires Legal(c, After(c, INITIAL, run + [Event.Draft(drafts)]), Event.Step(env))
    requires var s := After(c, INITIAL, run).s;
      id in drafts && id in s.running && id in s.reqs && !IsFinished(s.reqs[id].status) && !s.reqs[id].prefill
    requires id in SchedulePass(c, env, After(c, INITIAL, run + [Event.Draft(drafts)]).s).order
    ensures var v := After(c, INITIAL, run).s.reqs[id];
            var out := OutputOf(SchedulePass(c, env, After(c, INITIAL, run + [Event.Draft(drafts)]).s));
            var covered := v.computed + Get(out.num, id) - |v.all|;
      && Drafts(out.specs, id) <= drafts[id]
      && |Drafts(out.specs, id)| == Max(0, Min(|drafts[id]|, covered))
  {
    hide LegalRun, Legal, SchedulePass, Allowed, Slots, Schedule, Base, UpdateDrafts;
    var all := run + [Event.Draft(drafts)];
    EveryCountIsAllowed(c, all, env, id);
    assert all[..|all| - 1] == run;
    DraftsAreSet(After(c, INITIAL, run).s, drafts, id);
    DraftQueues(After(c, INITIAL, run).s, drafts);
    assert After(c, INITIAL, all) == Next(c, After(c, INITIAL, run), Event.Draft(drafts));
    hide After;
  }

  lemma DraftQueues(s: State, drafts: map<Id, seq<Token>>)
    ensures UpdateDrafts(s, drafts).running == s.running
  {
  }

  // -------------------------------------------------------------------------------- all requests

  /**
   * What becomes of every request in every step of every run. A running one is
   * preempted and starts over, or stays and gives away its drafts when it is
   * scheduled. Unless somebody was preempted, and that only because slots were
   * refused, it is scheduled if there is a token that it may get. When nobody was preempted and nothing is paused, one that waits
   * is admitted, starts to load, or is set aside because what it waits for is
   * not there, its LoRA has no place or the connector cannot tell yet; or it is
   * not reached, and then tokens or places were used up, or a head could not be
   * served. Otherwise nobody that waits is touched.
   */
  lemma EveryRequestHasItsFate(c: Config, run: seq<Event>, env: Env, id: Id)
    requires LegalRun(c, INITIAL, run) && Legal(c, After(c, INITIAL, run), Event.Step(env))
    ensures var s := After(c, INITIAL, run).s;
            var p := SchedulePass(c, env, s);
      && (id in s.running ==>
            && RunningFate(s, p, id)
            && (p.preempted != [] || id in p.order || NothingFor(c, env, s, id) || p.budget <= 0))
      && (p.preempted != [] ==> Refused(c, env, s) && (p.stop || p.order != []))
      && (id in Unfinished(s) && id !in s.running ==>
            if p.preempted == [] && s.pause.Unpaused? then WaitingFate(c, env, s, p, id)
            else id !in p.order && AsBefore(s, p.s, id))
      && (id in p.newly || id in p.resumed ==> id in p.order && id !in s.running)
  {
    hide LegalRun, After, Legal, Rest, EnvOk, SchedulePass, RunningFate, WaitingFate, AsBefore, Unfinished, Refused, NothingFor;
    AtRestAfter(c, run, env);
    ScheduleFates(c, env, After(c, INITIAL, run).s);
  }

  /**
   * Under FCFS the line keeps its order in every step: those considered were
   * the first, and those of them that were set aside keep their places; victims
   * go to the front of the waiting queue, the last one first.
   */
  lemma LineKeepsItsOrder(c: Config, run: seq<Event>, env: Env)
    requires LegalRun(c, INITIAL, run) && Legal(c, After(c, INITIAL, run), Event.Step(env)) && !c.priority
    ensures var s := After(c, INITIAL, run).s;
            var p := SchedulePass(c, env, s);
      if p.preempted == [] && s.pause.Unpaused? then exists m :: LineAfter(c, env, s, p, m)
      else p.s.skipped == s.skipped && p.s.waiting == Reverse(p.preempted) + s.waiting
  {
    hide LegalRun, After, Legal, Rest, EnvOk, SchedulePass, LineAfter;
    AtRestAfter(c, run, env);
    FcfsLine(c, env, After(c, INITIAL, run).s);
  }

  /** Under PRIORITY nobody is admitted before a request that comes first, unless that one was set aside. */
  lemma NobodyJumpsTheLine(c: Config, run: seq<Event>, env: Env, d: Id, r: Id)
    requires LegalRun(c, INITIAL, run) && Legal(c, After(c, INITIAL, run), Event.Step(env)) && c.priority
    requires var s := After(c, INITIAL, run).s;
             var p := SchedulePass(c, env, s);
      d in p.order && d !in s.running && r in Unfinished(s) && r !in s.running && r !in p.order
    ensures var s := After(c, INITIAL, run).s;
            var p := SchedulePass(c, env, s);
      ComesFirst(At(s, d), d, At(s, r), r) || Aside(c, env, s, p.s, p.loras, r)
  {
    hide LegalRun, After, Legal, Rest, EnvOk, SchedulePass, Aside, Before, ComesFirst, Unfinished;
    AtRestAfter(c, run, env);
    BeforeMeans(After(c, INITIAL, run).s, d, r);
    NobodyJumps(c, env, After(c, INITIAL, run).s, d, r);
  }

  // ------------------------------------------------------------------------------- the last step

  /** Those that the last step of a run scheduled, unless the running requests were reset since. */
  function LastScheduled(c: Config, run: seq<Event>): set<Id> {
    if run == [] then {}
    else
      var front := run[..|run| - 1];
      match run[|run| - 1]
      case Step(env) => Ids(SchedulePass(c, env, After(c, INITIAL, front).s).order)
      case Reset(running) => if running then {} else LastScheduled(c, front)
      case _ => LastScheduled(c, front)
  }

  lemma UpdateOnePrev(c: Config, out: Output, ans: Answer, failed: set<Id>, a: Acc, id: Id)
    ensures UpdateOne(c, out, ans, failed, a, id).s.prev == a.s.prev
  {
    hide Receive, SessionView, Drafts, TokensFor, ReasonOf;
  }

  lemma {:induction false} UpdateAllPrev(c: Config, out: Output, ans: Answer, failed: set<Id>, a: Acc, ids: seq<Id>)
    ensures UpdateAll(c, out, ans, failed, a, ids).s.prev == a.s.prev
  {
    hide UpdateOne;
    if ids != [] {
      var n := |ids| - 1;
      UpdateAllPrev(c, out, ans, failed, a, ids[..n]);
      UpdateOnePrev(c, out, ans, failed, UpdateAll(c, out, ans, failed, a, ids[..n]), ids[n]);
    }
  }

  lemma ReportPrev(c: Config, s: State, out: Output, ans: Answer)
    ensures UpdateFromOutput(c, s, out, ans).s.prev == s.prev
  {
    var r := HandleInvalid(c, s, out.num, ans);
    RecoveryPrev(c, s, out.num, ans);
    UpdateAllPrev(c, out, ans, r.failed, Acc(r.s, {}, {}, []), out.order);
    hide HandleInvalid, UpdateAll, Without, FailMessages, WithStatus, Finishable, DelayedFree;
  }

  lemma RecoveryPrev(c: Config, s: State, num: map<Id, int>, ans: Answer)
    ensures HandleInvalid(c, s, num, ans).s.prev == s.prev
  {
    hide AsyncLoading, ItemsFor;
  }

  lemma AddPrev(s: State, id: Id, v: View, late: set<Id>)
    ensures AddRequest(s, id, v, late).prev == s.prev
  {
    hide WithStatus, Finishable, DelayedFree, Without, SessionView;
  }

  lemma NextPrev(c: Config, e: Engine, ev: Event)
    ensures Next(c, e, ev).s.prev == match ev {
      case Step(env) => Ids(SchedulePass(c, env, e.s).order)
      case Reset(running) => if running then {} else e.s.prev
      case _ => e.s.prev
    }
  {
    match ev {
      case Step(env) => hide SchedulePass, WriteKv;
      case Report(ans) =>
        if e.pending.Some? {
          ReportPrev(c, e.s, e.pending.value, ans);
        }
        hide UpdateFromOutput;
      case Add(id, v, late) => AddPrev(e.s, id, v, late); hide AddRequest;
      case Abort(ids, st, late) => hide WithStatus, Finishable, DelayedFree, Without;
      case _ => hide PreemptAll;
    }
  }

  /** `prev_step_scheduled_req_ids` are those that the last step scheduled, over whole runs. */
  lemma {:induction false} LastStepIsRemembered(c: Config, run: seq<Event>)
    ensures After(c, INITIAL, run).s.prev == LastScheduled(c, run)
  {
    if run != [] {
      LastStepIsRemembered(c, run[..|run| - 1]);
      hide Next, SchedulePass;
      NextPrev(c, After(c, INITIAL, run[..|run| - 1]), run[|run| - 1]);
    }
  }
}
