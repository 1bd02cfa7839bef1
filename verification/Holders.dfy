/** Without a connector, the requests that hold KV blocks are running. */
module Holders {
  import opened Seqs
  import opened Requests
  import opened SchedulerSpec
  import opened QueuePartition
  import opened Frames
  import opened Accounting
  import opened Planning
  import opened Admission
  import opened ScheduleStep
  import opened Engine
  import opened EngineStep
  import opened Receiving
  import opened Reporting
  import opened Recovering
  import opened Finishing
  import opened Interventions
  import opened ReportStep
  import opened ArrivalOrder
  import opened Progress

  // -------------------------------------------------------------------------- schedule

  lemma {:induction false} MakeRoomHolders(c: Config, env: Env, p: Pass, id: Id, tokens: int)
    requires !c.priority && HoldersRun(p.s)
    ensures HoldersRun(MakeRoom(c, env, p, id, tokens).p.s)
    decreases |p.s.running|
  {
    hide HoldersRun;
    if SlotAsk(p.s.kv.Keys, id, tokens) in env.refused && p.s.running != [] {
      VictimHolders(c, p);
      VictimCount(c, p);
      hide PreemptVictim, VictimIndex;
      if p.s.running[VictimIndex(c, p.s)] != id {
        MakeRoomHolders(c, env, PreemptVictim(c, p), id, tokens);
      }
    }
  }

  lemma RunningStepHolders(c: Config, env: Env, p: Pass)
    requires !c.priority && HoldersRun(p.s) && !RunningDone(p)
    ensures HoldersRun(RunningStep(c, env, p).s)
  {
    hide MakeRoom, RunningPlan;
    var id := p.s.running[p.idx];
    MakeRoomHolders(c, env, p, id, At(p.s, id).computed + RunningPlan(c, env, p, id).n + c.lookahead);
  }

  lemma {:induction false} RunningLoopHolders(c: Config, env: Env, p: Pass)
    requires !c.priority && HoldersRun(p.s)
    ensures HoldersRun(RunningLoop(c, env, p).s)
    decreases !p.stop, |p.s.running| - p.idx
  {
    if !RunningDone(p) {
      hide RunningStep, RunningDone, HoldersRun;
      RunningStepHolders(c, env, p);
      RunningStepDecreases(c, env, p);
      RunningLoopHolders(c, env, RunningStep(c, env, p));
    }
  }

  lemma WaitingStepHolders(c: Config, env: Env, p: Pass)
    requires Plain(c) && HoldersRun(p.s) && Partition(p.s, []) && p.s.skipped == [] && !WaitingDone(c, p)
    ensures HoldersRun(WaitingStep(c, env, p).s)
  {
    HeadIsDecided(c, env, p);
    hide Consider, Partition, Peek, RemoveAt;
    var ch := Consider(c, env, p, p.s.waiting[0]);
    PopOnlyQueues(c, p.s, ch.s);
    hide Pop;
  }

  lemma {:induction false} WaitingLoopHolders(c: Config, env: Env, p: Pass, line: seq<Id>)
    requires Plain(c) && HoldersRun(p.s) && Partition(p.s, p.stepSkipped) && InLine(line, p)
    ensures HoldersRun(WaitingLoop(c, env, p).s)
    decreases !p.stop, |p.s.waiting| + |p.s.skipped|
  {
    if !WaitingDone(c, p) {
      WaitingStepHolders(c, env, p);
      WaitingStepLine(c, env, p, line);
      WaitingStepKeeps(c, env, p);
      hide WaitingStep, InLine, Partition, HoldersRun;
      WaitingLoopHolders(c, env, WaitingStep(c, env, p), line);
    }
  }

  lemma PassHolders(c: Config, env: Env, s: State)
    requires Plain(c) && Rest(c, s) && EnvOk(env, s) && s.skipped == [] && HoldersRun(s)
    ensures HoldersRun(SchedulePass(c, env, s).s)
  {
    hide TailPreempted, InLine, Rest, RunningLoop, WaitingLoop, Partition, EnvOk, RunningInv, Quiet, Framed, PrevOk, Start,
         HoldersRun;
    RestParts(c, s);
    var p := RunningLoop(c, env, Start(c, s));
    RunningLoopHolders(c, env, Start(c, s));
    StartTail(c, s);
    RunningLoopTail(c, env, s, Start(c, s));
    TailLine(s, p);
    FirstLoop(c, env, s);
    FirstLoopParts(c, env, s, p);
    if p.preempted == [] {
      var q := SecondStart(c, p);
      SecondStartFacts(c, p);
      LineMade(s, q);
      WaitingLoopHolders(c, env, q, Line(s));
      RequeueHolders(WaitingLoop(c, env, q));
    }
  }

  lemma RequeueHolders(p: Pass)
    requires HoldersRun(p.s)
    ensures HoldersRun(Requeue(p).s)
  {
    hide Reverse;
  }

  lemma StepHolders(c: Config, e: Engine, env: Env)
    requires Plain(c) && EngineInv(c, e) && Legal(c, e, Event.Step(env)) && e.s.skipped == [] && HoldersRun(e.s)
    ensures HoldersRun(Next(c, e, Event.Step(env)).s)
  {
    AtRest(c, e);
    StepParts(c, e, env);
    StepNext(c, e, env);
    hide SchedulePass, Next, EngineInv, Legal, Rest, EnvOk;
    PassHolders(c, env, e.s);
    hide WriteKv;
  }

  // ---------------------------------------------------------------------------- reports

  lemma UpdateStepHolders(c: Config, out: Output, ans: Answer, failed: set<Id>, done: seq<Id>, a: Acc, id: Id)
    requires HoldersRun(Settled(a)) && id in out.order && id !in done && ans.delay == {}
    requires MidInv(c, out, failed, done, a) && (id in a.s.reqs ==> !a.s.reqs[id].resumable)
    ensures HoldersRun(Settled(UpdateOne(c, out, ans, failed, a, id)))
  {
    hide HoldersRun, UpdateOne, Receive, MidInv;
    var b := UpdateOne(c, out, ans, failed, a, id);
    if id in failed || id !in a.s.reqs || IsFinished(a.s.reqs[id].status) {
      UpdateOneNothing(c, out, ans, failed, a, id);
    } else {
      BusyRuns(c, out, failed, done, a, id);
      var v, d, gen := a.s.reqs[id], Drafts(out.specs, id), TokensFor(ans, id);
      ReceiveShape(c, v, d, gen, id in ans.rejected);
      UpdateOneShape(c, out, ans, failed, a, id);
      SettledHolders(a, b, id);
    }
  }

  lemma SettledHolders(a: Acc, b: Acc, id: Id)
    requires HoldersRun(Settled(a)) && b.s.running == a.s.running
    requires (b.s.kv == a.s.kv && b.stoppedRunning == a.stoppedRunning)
          || (b.s.kv == a.s.kv - {id} && b.stoppedRunning == a.stoppedRunning + {id})
    ensures HoldersRun(Settled(b))
  {
    WithoutCounts(a.s.running, a.stoppedRunning);
    WithoutCounts(b.s.running, b.stoppedRunning);
  }

  lemma {:induction false} UpdateAllHolders(c: Config, out: Output, ans: Answer, failed: set<Id>, a: Acc, n: nat)
    requires NoDup(out.order) && n <= |out.order| && HoldersRun(Settled(a)) && ans.delay == {}
    requires MidInv(c, out, failed, [], a) && ReportsOk(c, out, ans, failed, [], a.s)
    requires forall id :: id in a.s.reqs ==> !a.s.reqs[id].resumable
    ensures var b := UpdateAll(c, out, ans, failed, a, out.order[..n]);
      HoldersRun(Settled(b)) && forall id :: id in b.s.reqs ==> !b.s.reqs[id].resumable
  {
    hide MidInv, ReportsOk, UpdateOne, HoldersRun, Settled;
    if n > 0 {
      UpdateAllHolders(c, out, ans, failed, a, n - 1);
      UpdateAllInv(c, out, ans, failed, a, n - 1);
      NextInOrder(out.order, n - 1);
      var ids := out.order[..n];
      assert ids[..n - 1] == out.order[..n - 1] && ids[n - 1] == out.order[n - 1];
      var b := UpdateAll(c, out, ans, failed, a, out.order[..n - 1]);
      UpdateStepHolders(c, out, ans, failed, out.order[..n - 1], b, out.order[n - 1]);
      UpdateOneKeepsPlain(c, out, ans, failed, out.order[..n - 1], b, out.order[n - 1]);
    } else {
      assert out.order[..0] == [];
    }
  }

  /** What `update_from_output` comes down to without a connector. */
  lemma {:induction false} PlainReportShape(c: Config, e: Engine, ans: Answer)
    requires Plain(c) && EngineInv(c, e) && Legal(c, e, Event.Report(ans))
    ensures e.pending.Some?
    ensures var out := e.pending.value;
            var a := Acc(e.s, {}, {}, []);
            && NoDup(out.order) && ans.delay == {}
            && MidInv(c, out, {}, [], a) && ReportsOk(c, out, ans, {}, [], e.s)
            && Next(c, e, Event.Report(ans)).s
                 == TransfersFinished(Settled(UpdateAll(c, out, ans, {}, a, out.order)), {}, {})
  {
    hide EngineInv, UpdateAll, MidInv, ReportsOk, Settled, RecoveryOk, AnswerOk, Loop, AfterFail, FailedNow, Next,
         HandleInvalid, TransfersFinished, LoadsDisjoint, Unfinished;
    ReportStages(c, e, ans);
    var out := e.pending.value;
    LegalReport(c, e, ans);
    NoFailures(c, e.s, out, ans);
    RecoveredMid(c, e, ans);
    ReportsApply(c, e, ans, Recovery(e.s, {}));
    PlainLoop(c, e.s, out, ans);
  }

  lemma TransfersNothing(s: State)
    ensures TransfersFinished(s, {}, {}) == s
  {
    assert s.kv - {} == s.kv && s.reqs - {} == s.reqs;
    assert WithStatus(s, {}, WaitingForRemoteKvs) == {};
  }

  lemma ReportHolders(c: Config, e: Engine, ans: Answer)
    requires Plain(c) && EngineInv(c, e) && Legal(c, e, Event.Report(ans)) && Arrived(e) && HoldersRun(e.s)
    ensures HoldersRun(Next(c, e, Event.Report(ans)).s)
  {
    hide EngineInv, UpdateAll, MidInv, ReportsOk, Settled, Next, TransfersFinished, HoldersRun, Legal, Arrived;
    PlainReportShape(c, e, ans);
    var out := e.pending.value;
    var a := Acc(e.s, {}, {}, []);
    SettledAtFirst(e, a);
    assert out.order[..|out.order|] == out.order;
    UpdateAllHolders(c, out, ans, {}, a, |out.order|);
    TransfersNothing(Settled(UpdateAll(c, out, ans, {}, a, out.order)));
  }

  // ---------------------------------------------------------------------- other events

  lemma FinishHolders(c: Config, s: State, ids: set<Id>, st: Status)
    requires HoldersRun(s) && Partition(s, []) && LoadsOk(c, s) && !c.connector
    ensures HoldersRun(FinishRequests(s, ids, st, {}))
  {
    var valid := Finishable(s, ids);
    var run := WithStatus(s, valid, Running);
    FinishRemoves(s, ids);
    WithoutCounts(s.running, run);
    hide Partition, Without;
    assert DelayedFree(s, valid, {}) == {};
  }

  lemma {:induction false} ResetHolders(s: State)
    requires HoldersRun(s)
    ensures HoldersRun(PreemptAll(s))
    decreases |s.running|
  {
    if s.running != [] {
      var n := |s.running| - 1;
      var id := s.running[n];
      PreemptShortens(s);
      assert s.running == s.running[..n] + [id];
      var t := Preempt(s.(running := s.running[..n]), id);
      assert HoldersRun(t);
      hide Preempt, HoldersRun;
      ResetHolders(t);
    }
  }

  lemma NextHolders(c: Config, e: Engine, ev: Event)
    requires Plain(c) && PlainEvent(ev) && EngineInv(c, e) && Legal(c, e, ev)
    requires InOrder(e.arrivals, e.s) && Arrived(e) && HoldersRun(e.s)
    ensures HoldersRun(Next(c, e, ev).s)
  {
    InvParts(c, e);
    NoSkipped(e.arrivals, e.s);
    hide EngineInv, Partition, RequestOk, PrevOk, LoadsOk, InOrder;
    match ev {
      case Step(env) => hide Next, Legal, HoldersRun; StepHolders(c, e, env);
      case Report(ans) => hide Next, Legal, HoldersRun; ReportHolders(c, e, ans);
      case Draft(drafts) =>
      case Add(id, v, late) => assert id !in e.s.reqs;
      case Abort(ids, st, late) => hide FinishRequests; FinishHolders(c, e.s, ids, st);
      case Reset(running) => ResetHolders(e.s);
      case SetPause(pause) =>
    }
  }

  /** Over every run. */
  lemma {:induction false} HoldersAreRunning(c: Config, run: seq<Event>)
    requires Plain(c) && PlainRun(run) && LegalRun(c, INITIAL, run)
    ensures HoldersRun(After(c, INITIAL, run).s)
  {
    if run != [] {
      var front := run[..|run| - 1];
      assert PlainRun(front) && PlainEvent(run[|run| - 1]);
      HoldersAreRunning(c, front);
      InitialInv(c);
      hide EngineInv, Legal, Next, InOrder, Arrived, HoldersRun;
      RunKeepsInv(c, INITIAL, front);
      ArrivalOrderKept(c, front);
      NextHolders(c, After(c, INITIAL, front), run[|run| - 1]);
    }
  }
}
