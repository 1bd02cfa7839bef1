/** The main results, about every state that a legal run reaches. */
module Runs {
  import opened Seqs
  import opened Requests
  import opened SchedulerSpec
  import opened QueuePartition
  import opened Frames
  import opened Accounting
  import opened Planning
  import opened Admission
  import opened ScheduleStep
  import opened Engine
  import opened EngineStep
  import opened Receiving
  import opened Reporting
  import opened Recovering
  import opened Finishing
  import opened Interventions
  import opened ReportStep
  import opened Delivery

  /**
   * Every unfinished request is in exactly one queue; RUNNING means `running`,
   * blocked means `skipped_waiting`; a finished one is in no queue. `running`
   * stays within its limit.
   */
  lemma {:induction false} OneQueueEach(c: Config, run: seq<Event>, id: Id)
    requires LegalRun(c, INITIAL, run) && id in After(c, INITIAL, run).s.reqs
    ensures var s := After(c, INITIAL, run).s;
            var v := s.reqs[id];
            && (!IsFinished(v.status) ==>
                  && multiset(s.running)[id] + multiset(s.waiting)[id] + multiset(s.skipped)[id] == 1
                  && (v.status == Running <==> id in s.running)
                  && (IsBlocked(v.status) ==> id in s.skipped))
            && (IsFinished(v.status) ==> id !in s.running && id !in s.waiting && id !in s.skipped)
            && |s.running| <= c.maxRunning
  {
    hide EngineInv, LegalRun, After, Partition;
    InitialInv(c);
    RunKeepsInv(c, INITIAL, run);
    var e := After(c, INITIAL, run);
    InvQueues(c, e);
    if IsFinished(e.s.reqs[id].status) {
      FinishedInNoQueue(e.s, id);
    } else {
      ExactlyOneQueue(e.s, id);
    }
  }

  /**
   * Between steps, the KV at the computed positions of a request is that of its
   * own tokens, and a running one has a token left to compute. While a step is
   * in flight this holds for the tokens followed by the scheduled drafts.
   */
  ghost predicate KvAgreement(e: Engine, id: Id)
    requires id in e.s.reqs
  {
    var v := e.s.reqs[id];
    var kv := if id in e.s.kv then e.s.kv[id] else [];
    && v.all == v.prompt + v.output
    && 0 <= v.computed <= |kv|
    && (!InFlight(e, id) ==>
          && v.computed <= |v.all| && kv[..v.computed] == v.all[..v.computed]
          && (v.status == Running ==> v.computed < |v.all|))
    && (InFlight(e, id) ==>
          var tokens := v.all + Drafts(e.pending.value.specs, id);
          && v.status == Running && v.computed <= |tokens| && kv[..v.computed] == tokens[..v.computed]
          && (v.prefill <==> v.computed < |v.all|)
          && (!v.prefill ==> v.computed == |tokens|))
  }

  /** KV agreement, after every run. */
  lemma {:induction false} KvAgrees(c: Config, run: seq<Event>, id: Id)
    requires LegalRun(c, INITIAL, run)
    requires var s := After(c, INITIAL, run).s; id in s.reqs && !IsFinished(s.reqs[id].status)
    ensures KvAgreement(After(c, INITIAL, run), id)
  {
    hide LegalRun, After, KvAgreement, EngineInv;
    InitialInv(c);
    RunKeepsInv(c, INITIAL, run);
    KvNow(c, After(c, INITIAL, run), id);
  }

  lemma KvNow(c: Config, e: Engine, id: Id)
    requires EngineInv(c, e) && id in e.s.reqs && !IsFinished(e.s.reqs[id].status)
    ensures KvAgreement(e, id)
  {
    assert RequestOk(c, e, id);
    hide Partition, PrevOk, LoadsOk, PendingOk;
    var v := e.s.reqs[id];
    if InFlight(e, id) {
      TokensInFlight(c, v, Get(e.pending.value.num, id), Drafts(e.pending.value.specs, id));
    }
  }

  lemma TokensInFlight(c: Config, v: View, n: int, d: seq<Token>)
    requires Flying(c, v, n, d)
    ensures 0 <= v.computed <= |v.all + d|
  {
  }

  /** The budgets balance in every step of every run. */
  lemma {:induction false} EveryStepBalances(c: Config, run: seq<Event>, env: Env)
    requires LegalRun(c, INITIAL, run) && Legal(c, After(c, INITIAL, run), Event.Step(env))
    ensures var s := After(c, INITIAL, run).s;
            var p := SchedulePass(c, env, s);
            var out := OutputOf(p);
            && 0 <= p.budget
            && (!s.pause.PausedAll? ==> p.budget + Sum(out.order, out.num) == c.maxScheduled)
            && (s.pause.PausedAll? ==> out.order == [])
            && NoDup(out.order)
            && (forall id :: id in out.num <==> id in out.order)
            && (forall id :: id in out.order ==> out.num[id] > 0 && id !in out.preempted && id in Schedule(c, env, s).running)
            && 0 <= p.encBudget && p.encBudget + Sum(out.order, p.encs) <= c.maxEncoder
            && (forall id :: id in out.resumed ==> id in out.order && id !in s.prev)
            && !p.invalid
  {
    hide EngineInv, LegalRun, After, SchedulePass, Legal, Schedule;
    InitialInv(c);
    RunKeepsInv(c, INITIAL, run);
    ScheduleBalances(c, After(c, INITIAL, run), env);
    ScheduledAreRunning(c, After(c, INITIAL, run), env);
  }

  // ------------------------------------------------------------------- finished requests

  /** Why a request may stay known after it finished in event `ev`: its blocks are still needed. */
  ghost predicate Delayed(c: Config, e: Engine, ev: Event, id: Id) {
    match ev
    case Report(ans) => id in ans.delay || Loading(e.s, id)
    case Add(_, _, late) => id in late
    case Abort(_, _, late) => id in late || Loading(e.s, id)
    case _ => false
  }

  /** The KV of `id` is being loaded, and the end of that was not reported yet. */
  predicate Loading(s: State, id: Id) {
    id in s.reqs && s.reqs[id].status == WaitingForRemoteKvs && id !in s.recvDone
  }

  /** Each finished request that is still known stays so only because its free was delayed. */
  ghost predicate OnlyDelayed(s: State, t: State, delay: set<Id>) {
    forall id {:trigger id in t.reqs} :: id in t.reqs ==>
      id in s.reqs && (IsFinished(t.reqs[id].status) ==> IsFinished(s.reqs[id].status) || id in delay)
  }

  lemma UpdateOneDelays(c: Config, out: Output, ans: Answer, failed: set<Id>, a: Acc, id: Id)
    ensures OnlyDelayed(a.s, UpdateOne(c, out, ans, failed, a, id).s, ans.delay)
  {
    if id in failed || id !in a.s.reqs || IsFinished(a.s.reqs[id].status) {
      UpdateOneNothing(c, out, ans, failed, a, id);
    } else {
      var v := a.s.reqs[id];
      var r := Receive(c, v, Drafts(out.specs, id), TokensFor(ans, id), id in ans.rejected);
      ReceiveShape(c, v, Drafts(out.specs, id), TokensFor(ans, id), id in ans.rejected);
      StoppedDelays(Put(a.s, id, r.v), id);
      hide Receive, Drafts, TokensFor, HandleStopped, Extend, Reconcile;
    }
  }

  lemma StoppedDelays(s: State, id: Id)
    requires id in s.reqs
    ensures var h := HandleStopped(s, id);
      && (forall x :: x in h.s.reqs <==> x in s.reqs)
      && (forall x :: x in h.s.reqs && x != id ==> h.s.reqs[x] == s.reqs[x])
      && (!h.finished ==> !IsFinished(h.s.reqs[id].status))
  {
  }

  lemma {:induction false} UpdateAllDelays(c: Config, out: Output, ans: Answer, failed: set<Id>, a: Acc, ids: seq<Id>)
    ensures OnlyDelayed(a.s, UpdateAll(c, out, ans, failed, a, ids).s, ans.delay)
  {
    hide UpdateOne;
    if ids != [] {
      var n := |ids| - 1;
      UpdateAllDelays(c, out, ans, failed, a, ids[..n]);
      UpdateOneDelays(c, out, ans, failed, UpdateAll(c, out, ans, failed, a, ids[..n]), ids[n]);
    }
  }

  ghost predicate NoneFinished(s: State) {
    forall id :: id in s.reqs ==> !IsFinished(s.reqs[id].status)
  }

  lemma FinishLeavesNone(c: Config, s: State, ids: set<Id>, st: Status)
    requires !c.connector && LoadsOk(c, s) && NoneFinished(s) && IsFinished(st)
    ensures NoneFinished(FinishRequests(s, ids, st, {}))
  {
    FinishViews(s, ids, st, {});
    assert DelayedFree(s, Finishable(s, ids), {}) == {};
    hide FinishRequests;
  }

  lemma DelaysNone(s: State, t: State)
    requires NoneFinished(s) && OnlyDelayed(s, t, {})
    ensures NoneFinished(t)
  {
  }

  lemma FramedFinished(c: Config, s: State, t: State)
    requires NoneFinished(s) && Framed(c, s, t)
    ensures NoneFinished(t)
  {
    forall id | id in t.reqs ensures !IsFinished(t.reqs[id].status) {
      assert id in s.reqs.Keys && Touched(c, s.reqs[id], t.reqs[id]);
    }
  }

  lemma SameFinished(s: State, t: State)
    requires NoneFinished(s) && SameStatuses(s, t)
    ensures NoneFinished(t)
  {
  }

  lemma StepFinished(c: Config, e: Engine, env: Env)
    requires EngineInv(c, e) && Legal(c, e, Event.Step(env)) && NoneFinished(e.s)
    ensures NoneFinished(Next(c, e, Event.Step(env)).s)
  {
    hide SchedulePass, Next, EngineInv, Legal, Rest, EnvOk, PassOk, Books, AfterSchedule, Framed, AllPlanned, Partition,
         AllReady, AllKv, NoneFinished;
    StepParts(c, e, env);
    AtRest(c, e);
    StepNext(c, e, env);
    var p := SchedulePass(c, env, e.s);
    SchedulePassOk(c, env, e.s);
    PassOkParts(c, e.s, p);
    FramedFinished(c, e.s, p.s);
    AfterScheduleViews(c, p, Tokens(c, e.s));
    SameFinished(p.s, AfterSchedule(p.s, p.order, p.num, p.specs));
  }

  lemma ReportFinished(c: Config, e: Engine, ans: Answer)
    requires !c.connector && EngineInv(c, e) && Legal(c, e, Event.Report(ans)) && NoneFinished(e.s)
    ensures NoneFinished(Next(c, e, Event.Report(ans)).s)
  {
    hide EngineInv, UpdateAll, NoneFinished, Settled, AfterFail, FailedNow, Next, Loop, TransfersFinished, AnswerOk, HandleInvalid,
         LoadsDisjoint, OnlyDelayed;
    ReportStages(c, e, ans);
    LegalReport(c, e, ans);
    var out := e.pending.value;
    NoFailures(c, e.s, out, ans);
    UpdateAllDelays(c, out, ans, {}, Acc(e.s, {}, {}, []), out.order);
    var a := UpdateAll(c, out, ans, {}, Acc(e.s, {}, {}, []), out.order);
    DelaysNone(e.s, a.s);
    NothingLeft(a);
    PlainLoop(c, e.s, out, ans);
  }

  lemma NothingLeft(a: Acc)
    requires NoneFinished(a.s)
    ensures NoneFinished(TransfersFinished(Settled(a), {}, {}))
  {
    hide Without;
  }

  lemma {:induction false} ResetFinished(s: State)
    requires NoneFinished(s)
    ensures NoneFinished(PreemptAll(s))
    decreases |s.running|
  {
    if s.running != [] {
      var n := |s.running| - 1;
      PreemptShortens(s);
      var t := Preempt(s.(running := s.running[..n]), s.running[n]);
      assert NoneFinished(t);
      hide Preempt, NoneFinished;
      ResetFinished(t);
    }
  }

  lemma AddLeavesNone(c: Config, e: Engine, id: Id, v: View)
    requires !c.connector && LoadsOk(c, e.s) && Legal(c, e, Event.Add(id, v, {})) && NoneFinished(e.s)
    ensures NoneFinished(AddRequest(e.s, id, v, {}))
  {
    if id in e.s.reqs && e.s.reqs[id].status == WaitingForStreamingReq && !v.resumable {
      hide FinishRequests, NoneFinished;
      FinishLeavesNone(c, e.s, {id}, FinishedAborted);
    }
  }

  lemma InvLoads(c: Config, e: Engine)
    requires EngineInv(c, e)
    ensures LoadsOk(c, e.s)
  {
  }

  lemma NextFinished(c: Config, e: Engine, ev: Event)
    requires !c.connector && EngineInv(c, e) && Legal(c, e, ev) && NoneFinished(e.s)
    ensures NoneFinished(Next(c, e, ev).s)
  {
    hide EngineInv, LoadsOk, FinishRequests, PreemptAll, Schedule, SchedulePass, UpdateFromOutput, UpdateDrafts, AddRequest;
    InvLoads(c, e);
    match ev {
      case Step(env) => hide Next; StepFinished(c, e, env);
      case Report(ans) => hide Next; ReportFinished(c, e, ans);
      case Draft(drafts) => DraftViews(e.s, drafts);
      case Add(id, v, late) => AddLeavesNone(c, e, id, v);
      case Abort(ids, st, late) => FinishLeavesNone(c, e.s, ids, st);
      case Reset(running) => ResetFinished(e.s);
      case SetPause(pause) =>
    }
  }

  /** Without a connector, finished requests are forgotten at once. */
  lemma {:induction false} FinishedAreForgotten(c: Config, run: seq<Event>)
    requires !c.connector && LegalRun(c, INITIAL, run)
    ensures NoneFinished(After(c, INITIAL, run).s)
  {
    if run != [] {
      var front := run[..|run| - 1];
      FinishedAreForgotten(c, front);
      InitialInv(c);
      hide EngineInv, Legal, Next, NoneFinished;
      RunKeepsInv(c, INITIAL, front);
      NextFinished(c, After(c, INITIAL, front), run[|run| - 1]);
    }
  }

  lemma HasFinishedTest(c: Config, s: State)
    requires NoneFinished(s) || c.connector
    requires |s.reqs| > |s.waiting| + |s.skipped| + |s.running| <==>
      exists id :: id in s.reqs && IsFinished(s.reqs[id].status)
    ensures HasFinished(c, s) <==> s.finishedIds != {} || exists id :: id in s.reqs && IsFinished(s.reqs[id].status)
  {
  }

  /** `has_finished_requests`, and its comparison of lengths, are exact in every reachable state. */
  lemma {:induction false} HasFinishedIsExact(c: Config, run: seq<Event>)
    requires LegalRun(c, INITIAL, run)
    ensures var s := After(c, INITIAL, run).s;
            var known := exists id :: id in s.reqs && IsFinished(s.reqs[id].status);
            && (|s.reqs| > |s.waiting| + |s.skipped| + |s.running| <==> known)
            && (HasFinished(c, s) <==> s.finishedIds != {} || known)
  {
    hide EngineInv, LegalRun, After, Partition, HasFinished;
    InitialInv(c);
    RunKeepsInv(c, INITIAL, run);
    var e := After(c, INITIAL, run);
    InvQueues(c, e);
    if !c.connector {
      FinishedAreForgotten(c, run);
    }
    MoreThanQueued(e.s);
    HasFinishedTest(c, e.s);
  }

  /** A request known to be finished after an event was so before, or its free was delayed by that event. */
  lemma KeptOnlyWhenDelayed(c: Config, e: Engine, ev: Event, id: Id)
    requires EngineInv(c, e) && Legal(c, e, ev)
    requires id in Next(c, e, ev).s.reqs && IsFinished(Next(c, e, ev).s.reqs[id].status)
    ensures (id in e.s.reqs && IsFinished(e.s.reqs[id].status)) || Delayed(c, e, ev, id)
  {
    hide EngineInv, Partition, FinishRequests, PreemptAll, Schedule, SchedulePass, UpdateFromOutput, UpdateDrafts, RequestOk;
    match ev {
      case Step(env) => hide Next; StepUnfinished(c, e, env);
      case Report(ans) => hide Next; ReportDelays(c, e, ans, id);
      case Draft(drafts) => DraftViews(e.s, drafts);
      case Add(x, v, late) => hide Enqueue; AddDelays(c, e, x, v, late, id);
      case Abort(ids, st, late) => AbortDelays(e.s, ids, st, late, id);
      case Reset(running) => InvQueues(c, e); ResetOnly(e.s, id);
      case SetPause(pause) =>
    }
  }

  lemma AbortDelays(s: State, ids: set<Id>, st: Status, late: set<Id>, id: Id)
    requires IsFinished(st)
    requires var t := FinishRequests(s, ids, st, late); id in t.reqs && IsFinished(t.reqs[id].status)
    ensures id in s.reqs
    ensures IsFinished(s.reqs[id].status) || id in late
         || (id in ids && s.reqs[id].status == WaitingForRemoteKvs && id !in s.recvDone)
  {
    FinishViews(s, ids, st, late);
    hide FinishRequests;
  }

  lemma AddedUnfinished(c: Config, e: Engine, x: Id, v: View, late: set<Id>)
    requires Legal(c, e, Event.Add(x, v, late)) && x !in e.s.reqs
    ensures !IsFinished(v.status) && AddRequest(e.s, x, v, late).reqs == e.s.reqs[x := v]
  {
    hide FinishRequests;
  }

  lemma AddDelays(c: Config, e: Engine, x: Id, v: View, late: set<Id>, id: Id)
    requires Legal(c, e, Event.Add(x, v, late))
    requires var t := AddRequest(e.s, x, v, late); id in t.reqs && IsFinished(t.reqs[id].status)
    ensures (id in e.s.reqs && IsFinished(e.s.reqs[id].status)) || id in late
  {
    hide FinishRequests, Legal;
    if x !in e.s.reqs {
      AddedUnfinished(c, e, x, v, late);
      hide Enqueue;
    } else if e.s.reqs[x].status == WaitingForStreamingReq && !v.resumable {
      AbortDelays(e.s, {x}, FinishedAborted, late, id);
    }
  }

  lemma StepUnfinished(c: Config, e: Engine, env: Env)
    requires EngineInv(c, e) && Legal(c, e, Event.Step(env))
    ensures var t := Next(c, e, Event.Step(env)).s;
      forall id :: id in t.reqs ==> id in e.s.reqs && (IsFinished(t.reqs[id].status) ==> IsFinished(e.s.reqs[id].status))
  {
    hide SchedulePass, Next, EngineInv, Legal, Rest, EnvOk, PassOk, Books, AfterSchedule, AllPlanned, Partition,
         AllReady, AllKv;
    StepParts(c, e, env);
    AtRest(c, e);
    StepNext(c, e, env);
    var p := SchedulePass(c, env, e.s);
    SchedulePassOk(c, env, e.s);
    PassOkParts(c, e.s, p);
    AfterScheduleViews(c, p, Tokens(c, e.s));
    forall id | id in p.s.reqs ensures id in e.s.reqs && (IsFinished(p.s.reqs[id].status) ==> IsFinished(e.s.reqs[id].status)) {
      assert id in e.s.reqs.Keys && Touched(c, e.s.reqs[id], p.s.reqs[id]);
    }
  }

  lemma {:induction false} ResetOnly(s: State, id: Id)
    requires Partition(s, [])
    ensures id in PreemptAll(s).reqs ==>
      id in s.reqs && (IsFinished(PreemptAll(s).reqs[id].status) ==> IsFinished(s.reqs[id].status))
    decreases |s.running|
  {
    if s.running != [] {
      var n := |s.running| - 1;
      assert RemoveAt(s.running, n) == s.running[..n];
      RunningKnown(s, s.running[n]);
      PreemptKeeps(s, n, []);
      PreemptShortens(s);
      hide Partition;
      ResetOnly(Preempt(s.(running := s.running[..n]), s.running[n]), id);
    }
  }

  lemma {:induction false} UpdateAllLoads(c: Config, out: Output, ans: Answer, failed: set<Id>, a: Acc, ids: seq<Id>)
    ensures UpdateAll(c, out, ans, failed, a, ids).s.recvDone == a.s.recvDone
  {
    if ids != [] {
      var n := |ids| - 1;
      UpdateAllLoads(c, out, ans, failed, a, ids[..n]);
      UpdateOneLoads(c, out, ans, failed, UpdateAll(c, out, ans, failed, a, ids[..n]), ids[n]);
      hide UpdateOne;
    }
  }

  lemma UpdateOneLoads(c: Config, out: Output, ans: Answer, failed: set<Id>, a: Acc, id: Id)
    ensures UpdateOne(c, out, ans, failed, a, id).s.recvDone == a.s.recvDone
  {
    hide Receive, SessionView, Drafts, TokensFor, ReasonOf;
  }

  lemma RecoveredLoadsDone(c: Config, s: State, num: map<Id, int>, ans: Answer)
    ensures HandleInvalid(c, s, num, ans).s.recvDone == s.recvDone
  {
    hide ItemsFor, AsyncLoading;
  }

  lemma SettledLoads(a: Acc)
    ensures Settled(a).recvDone == a.s.recvDone
  {
    hide Without;
  }

  lemma LoopDelays(c: Config, e: Engine, ans: Answer)
    requires EngineInv(c, e) && Legal(c, e, Event.Report(ans))
    ensures e.pending.Some?
    ensures var t := Settled(Loop(c, e.s, e.pending.value, ans));
            && OnlyDelayed(e.s, t, ans.delay)
            && (forall id :: id in FailedNow(c, e.s, e.pending.value, ans) && id in t.reqs ==>
                  id in e.s.reqs && t.reqs[id].status == e.s.reqs[id].status)
            && t.recvDone == e.s.recvDone
  {
    hide EngineInv, UpdateAll, Settled, AnswerOk, HandleInvalid, LoadsDisjoint, OnlyDelayed, RecoveryOk, MidInv, Legal, FailedNow;
    LegalReport(c, e, ans);
    var out := e.pending.value;
    var r := HandleInvalid(c, e.s, out.num, ans);
    var a := Acc(r.s, {}, {}, []);
    RecoveredMid(c, e, ans);
    RecoveredStatuses(e.s, r, out.num);
    UpdateAllDelays(c, out, ans, r.failed, a, out.order);
    var b := UpdateAll(c, out, ans, r.failed, a, out.order);
    SettledReqs(b);
    DelaysFrom(e.s, r.s, b.s, Settled(b), ans.delay);
    FailedParts(c, e.s, out, ans);
    RecoveredTexts(e.s, r, out.num);
    UpdateAllLoads(c, out, ans, r.failed, a, out.order);
    RecoveredLoadsDone(c, e.s, out.num, ans);
    SettledLoads(b);
    forall id | id in FailedNow(c, e.s, out, ans) ensures id in b.s.reqs && b.s.reqs[id].status == e.s.reqs[id].status {
      FailedUntouched(c, out, ans, r.failed, a, out.order, id);
    }
  }

  lemma DelaysFrom(s: State, t: State, u: State, v: State, delay: set<Id>)
    requires SameStatuses(s, t) && OnlyDelayed(t, u, delay) && v.reqs == u.reqs
    ensures OnlyDelayed(s, v, delay)
  {
  }

  lemma TransferKeeps(s: State, recv: set<Id>, send: set<Id>, id: Id)
    ensures id in TransfersFinished(s, recv, send).reqs ==>
      id in s.reqs && TransfersFinished(s, recv, send).reqs[id] == s.reqs[id]
  {
  }

  lemma FailDelays(s: State, failed: set<Id>, delay: set<Id>, id: Id)
    requires var t := FinishRequests(s, failed, FinishedError, delay); id in t.reqs && IsFinished(t.reqs[id].status)
    ensures id in s.reqs
    ensures IsFinished(s.reqs[id].status) || id in delay || (id in failed && Loading(s, id))
  {
    FinishViews(s, failed, FinishedError, delay);
    hide FinishRequests;
  }

  lemma ReportDelays(c: Config, e: Engine, ans: Answer, id: Id)
    requires EngineInv(c, e) && Legal(c, e, Event.Report(ans))
    requires var t := Next(c, e, Event.Report(ans)).s; id in t.reqs && IsFinished(t.reqs[id].status)
    ensures id in e.s.reqs
    ensures IsFinished(e.s.reqs[id].status) || id in ans.delay || Loading(e.s, id)
  {
    hide EngineInv, UpdateAll, Settled, AfterFail, FailedNow, Next, Loop, TransfersFinished, AnswerOk, HandleInvalid,
         LoadsDisjoint, OnlyDelayed, FinishRequests, Legal;
    ReportStages(c, e, ans);
    LoopDelays(c, e, ans);
    var out := e.pending.value;
    var s, u := Settled(Loop(c, e.s, out, ans)), AfterFail(c, e.s, out, ans);
    AfterFailIs(c, e.s, out, ans);
    TransferKeeps(u, ans.recv, ans.send, id);
    if FailedNow(c, e.s, out, ans) != {} {
      FailDelays(s, FailedNow(c, e.s, out, ans), ans.delay, id);
    }
    OnlyDelayedAt(e.s, s, ans.delay, id);
  }

  lemma OnlyDelayedAt(s: State, t: State, delay: set<Id>, id: Id)
    requires OnlyDelayed(s, t, delay) && id in t.reqs
    ensures id in s.reqs && (IsFinished(t.reqs[id].status) ==> IsFinished(s.reqs[id].status) || id in delay)
  {
  }

  // ------------------------------------------------------------------------------ sessions

  /**
   * Continuing a session that awaits input drops the last sampled token, keeps
   * the computed tokens as they are, and makes prompt and tokens the same.
   */
  lemma {:induction false} SessionUpdateKeepsComputed(c: Config, run: seq<Event>, id: Id, u: Update)
    requires LegalRun(c, INITIAL, run)
    requires var s := After(c, INITIAL, run).s; id in s.reqs && s.reqs[id].status == WaitingForStreamingReq
    ensures var s := After(c, INITIAL, run).s;
            var v, w := s.reqs[id], Session(s, id, u).reqs[id];
            && w.prompt == w.all && w.output == []
            && w.computed == v.computed && w.all == Take(v.all, v.computed) + u.prompt
            && |w.all| - w.computed == |u.prompt|
            && w.status == Waiting && Session(s, id, u).numStreaming == s.numStreaming - 1
  {
    hide LegalRun, After;
    InitialInv(c);
    RunKeepsInv(c, INITIAL, run);
    SessionNow(c, After(c, INITIAL, run), id);
    hide EngineInv;
    SessionContinues(After(c, INITIAL, run).s.reqs[id], u);
  }

  lemma SessionNow(c: Config, e: Engine, id: Id)
    requires EngineInv(c, e) && id in e.s.reqs && e.s.reqs[id].status == WaitingForStreamingReq
    ensures var v := e.s.reqs[id]; |v.prompt| <= v.computed < |v.all| && v.all == v.prompt + v.output
  {
    assert RequestOk(c, e, id);
  }
}
