/**
 * A request that waits for a tool call leaves that wait only by ending, or in a
 * step in which there is a response for it.
 */
module ToolWait {
  import opened Seqs
  import opened Requests
  import opened SchedulerSpec
  import opened QueuePartition
  import opened Frames
  import opened Accounting
  import opened Planning
  import opened Admission
  import opened ScheduleStep
  import opened Engine
  import opened EngineStep
  import opened Reporting
  import opened Recovering
  import opened Finishing
  import opened Interventions
  import opened ReportStep

  predicate Waits(s: State, id: Id) { id in s.reqs && s.reqs[id].status == WaitingForToolCall }

  /** Waiting as before, ended, or forgotten. */
  predicate WaitsOrEnds(s: State, id: Id) {
    id in s.reqs ==> s.reqs[id].status == WaitingForToolCall || IsFinished(s.reqs[id].status)
  }

  // ------------------------------------------------------------------------------ schedule

  /** Request `id` waits, and has not been scheduled. */
  ghost predicate Off(p: Pass, id: Id) {
    Waits(p.s, id) && id !in p.s.running && id !in p.num
  }

  lemma VictimOff(c: Config, p: Pass, id: Id)
    requires Partition(p.s, []) && p.s.running != [] && Off(p, id)
    ensures Off(PreemptVictim(c, p), id)
  {
    VictimLeaves(c, p);
    hide Partition, VictimIndex, Remove;
  }

  lemma {:induction false} MakeRoomOff(c: Config, env: Env, p: Pass, asker: Id, tokens: int, id: Id)
    requires Partition(p.s, []) && Off(p, id)
    ensures Off(MakeRoom(c, env, p, asker, tokens).p, id)
    decreases |p.s.running|
  {
    hide Partition, Off;
    if SlotAsk(p.s.kv.Keys, asker, tokens) in env.refused && p.s.running != [] {
      var q := PreemptVictim(c, p);
      VictimOff(c, p, id);
      PreemptVictimKeeps(c, p, []);
      VictimCount(c, p);
      hide PreemptVictim, VictimIndex;
      if p.s.running[VictimIndex(c, p.s)] != asker {
        MakeRoomOff(c, env, q, asker, tokens, id);
      }
    }
  }

  lemma RunningStepOff(c: Config, env: Env, p: Pass, id: Id)
    requires Partition(p.s, []) && Off(p, id) && !RunningDone(p)
    ensures Off(RunningStep(c, env, p), id)
  {
    hide Partition, MakeRoom, RunningPlan, DraftsFor;
    var asker := p.s.running[p.idx];
    assert asker in p.s.running;
    MakeRoomOff(c, env, p, asker, At(p.s, asker).computed + RunningPlan(c, env, p, asker).n + c.lookahead, id);
  }

  lemma {:induction false} RunningLoopOff(c: Config, env: Env, p: Pass, id: Id)
    requires Partition(p.s, []) && Off(p, id)
    ensures Off(RunningLoop(c, env, p), id)
    decreases !p.stop, |p.s.running| - p.idx
  {
    if !RunningDone(p) {
      RunningStepDecreases(c, env, p);
      hide Partition, Off, RunningStep, RunningDone;
      RunningStepOff(c, env, p, id);
      RunningStepKeeps(c, env, p);
      RunningLoopOff(c, env, RunningStep(c, env, p), id);
    }
  }

  /** Nothing happens to the head while there is no response for it. */
  lemma HeadStays(c: Config, env: Env, p: Pass)
    requires Partition(p.s, p.stepSkipped) && !WaitingDone(c, p)
    requires Waits(p.s, Peek(c, p.s)) && Peek(c, p.s) !in env.toolReady
    ensures var q := WaitingStep(c, env, p); q.s.reqs == p.s.reqs && q.s.running == p.s.running && q.num == p.num
  {
    var head := Peek(c, p.s);
    assert Promote(env, p.s, head).None?;
    ConsiderState(c, env, p, head);
    hide Partition, Peek, Consider, Promote, Pop;
    PopOnlyQueues(c, p.s, p.s);
  }

  lemma WaitingStepOff(c: Config, env: Env, p: Pass, id: Id)
    requires Partition(p.s, p.stepSkipped) && !WaitingDone(c, p) && Off(p, id) && id !in env.toolReady
    ensures Off(WaitingStep(c, env, p), id)
  {
    hide Partition, Peek, WaitingStep;
    if id == Peek(c, p.s) {
      HeadStays(c, env, p);
    } else {
      WaitingStepOthers(c, env, p, id);
    }
  }

  lemma {:induction false} WaitingLoopOff(c: Config, env: Env, p: Pass, id: Id)
    requires Partition(p.s, p.stepSkipped) && Off(p, id) && id !in env.toolReady
    ensures Off(WaitingLoop(c, env, p), id)
    decreases !p.stop, |p.s.waiting| + |p.s.skipped|
  {
    hide Off, Partition, WaitingStep;
    if !WaitingDone(c, p) {
      WaitingStepOff(c, env, p, id);
      WaitingStepKeeps(c, env, p);
      WaitingLoopOff(c, env, WaitingStep(c, env, p), id);
    }
  }

  lemma OffElsewhere(p: Pass, q: Pass, id: Id)
    requires Off(p, id) && q.num == p.num && q.s.reqs == p.s.reqs && q.s.running == p.s.running
    ensures Off(q, id)
  {
  }

  lemma StartOff(c: Config, s: State, id: Id)
    requires Partition(s, []) && Waits(s, id)
    ensures Off(Start(c, s), id)
  {
    RunningKnown(s, id);
    hide Partition;
  }

  lemma PassOff(c: Config, env: Env, s: State, id: Id)
    requires Rest(c, s) && EnvOk(env, s) && Waits(s, id) && id !in env.toolReady
    ensures Off(SchedulePass(c, env, s), id)
  {
    hide Rest, RunningInv, Quiet, EnvOk, RunningLoop, WaitingLoop, Framed, PrevOk, Requeue, Partition, WaitingInv, Start,
         LorasOf, AllReady, AllKv, Off;
    RestParts(c, s);
    FirstLoop(c, env, s);
    StartOff(c, s, id);
    RunningLoopOff(c, env, Start(c, s), id);
    var p := RunningLoop(c, env, Start(c, s));
    var q := SecondStart(c, p);
    if p.preempted == [] {
      HandOver(c, env, s, p);
      WaitingInvAll(c, env, Tokens(c, s), q);
      OffElsewhere(p, q, id);
      WaitingLoopOff(c, env, q, id);
      RequeueOff(WaitingLoop(c, env, q), id);
    }
  }

  lemma RequeueOff(p: Pass, id: Id)
    requires Off(p, id)
    ensures Off(Requeue(p), id)
  {
    hide Reverse;
    OffElsewhere(p, Requeue(p), id);
  }

  lemma OffAdvance(p: Pass, id: Id)
    requires Off(p, id)
    ensures Waits(AfterSchedule(p.s, p.order, p.num, p.specs), id)
  {
    hide WriteKv;
  }

  lemma StepWaits(c: Config, e: Engine, env: Env, id: Id)
    requires EngineInv(c, e) && Legal(c, e, Event.Step(env)) && Waits(e.s, id) && id !in env.toolReady
    ensures Waits(Next(c, e, Event.Step(env)).s, id)
  {
    hide EngineInv, Legal, Rest, EnvOk, SchedulePass, Next, Off, AfterSchedule, Waits;
    StepParts(c, e, env);
    AtRest(c, e);
    StepNext(c, e, env);
    PassOff(c, env, e.s, id);
    OffAdvance(SchedulePass(c, env, e.s), id);
  }

  // -------------------------------------------------------------------------- other events

  lemma NotInFlight(c: Config, e: Engine, id: Id)
    requires EngineInv(c, e) && e.pending.Some? && Waits(e.s, id)
    ensures id !in e.pending.value.order
  {
    assert RequestOk(c, e, id);
  }

  lemma {:induction false} UpdateAllWaits(c: Config, out: Output, ans: Answer, failed: set<Id>, a: Acc, ids: seq<Id>, id: Id)
    requires id !in ids && Waits(a.s, id)
    ensures Waits(UpdateAll(c, out, ans, failed, a, ids).s, id)
  {
    hide UpdateOne;
    if ids != [] {
      var n := |ids| - 1;
      UpdateAllWaits(c, out, ans, failed, a, ids[..n], id);
      var b := UpdateAll(c, out, ans, failed, a, ids[..n]);
      if ids[n] in failed || ids[n] !in b.s.reqs || IsFinished(b.s.reqs[ids[n]].status) {
        UpdateOneNothing(c, out, ans, failed, b, ids[n]);
      } else {
        UpdateOneOthers(c, out, ans, failed, b, ids[n]);
      }
    }
  }

  lemma FinishWaits(s: State, ids: set<Id>, st: Status, delay: set<Id>, id: Id)
    requires IsFinished(st) && Waits(s, id)
    ensures WaitsOrEnds(FinishRequests(s, ids, st, delay), id)
  {
    FinishViews(s, ids, st, delay);
    hide FinishRequests;
  }

  lemma TransfersWait(s: State, recv: set<Id>, send: set<Id>, id: Id)
    requires WaitsOrEnds(s, id)
    ensures WaitsOrEnds(TransfersFinished(s, recv, send), id)
  {
    hide WithStatus;
  }

  lemma RecoveredWaits(s: State, t: State, id: Id)
    requires SameStatuses(s, t) && Waits(s, id)
    ensures Waits(t, id)
  {
  }

  lemma LoopWaits(c: Config, e: Engine, ans: Answer, id: Id)
    requires EngineInv(c, e) && Legal(c, e, Event.Report(ans)) && Waits(e.s, id)
    ensures e.pending.Some? && Waits(Loop(c, e.s, e.pending.value, ans).s, id)
  {
    hide EngineInv, UpdateAll, AnswerOk, HandleInvalid, LoadsDisjoint, Legal, MidInv, RecoveryOk, SameStatuses, Waits;
    LegalReport(c, e, ans);
    NotInFlight(c, e, id);
    RecoveredMid(c, e, ans);
    var out := e.pending.value;
    var r := HandleInvalid(c, e.s, out.num, ans);
    RecoveredStatuses(e.s, r, out.num);
    RecoveredWaits(e.s, r.s, id);
    UpdateAllWaits(c, out, ans, r.failed, Acc(r.s, {}, {}, []), out.order, id);
  }

  lemma ReportWaits(c: Config, e: Engine, ans: Answer, id: Id)
    requires EngineInv(c, e) && Legal(c, e, Event.Report(ans)) && Waits(e.s, id)
    ensures WaitsOrEnds(Next(c, e, Event.Report(ans)).s, id)
  {
    hide EngineInv, Settled, AfterFail, FailedNow, Next, Loop, TransfersFinished, FinishRequests, Legal, Waits, WaitsOrEnds;
    ReportStages(c, e, ans);
    LoopWaits(c, e, ans, id);
    var out := e.pending.value;
    var a := Loop(c, e.s, out, ans);
    SettledWaits(a, id);
    AfterFailIs(c, e.s, out, ans);
    if FailedNow(c, e.s, out, ans) != {} {
      FinishWaits(Settled(a), FailedNow(c, e.s, out, ans), FinishedError, ans.delay, id);
    }
    TransfersWait(AfterFail(c, e.s, out, ans), ans.recv, ans.send, id);
  }

  lemma SettledWaits(a: Acc, id: Id)
    requires Waits(a.s, id)
    ensures Waits(Settled(a), id) && WaitsOrEnds(Settled(a), id)
  {
    SettledReqs(a);
    hide Settled;
  }

  lemma {:induction false} ResetWaits(s: State, id: Id)
    requires Partition(s, []) && Waits(s, id)
    ensures Waits(PreemptAll(s), id)
    decreases |s.running|
  {
    if s.running != [] {
      var n := |s.running| - 1;
      assert RemoveAt(s.running, n) == s.running[..n];
      RunningKnown(s, s.running[n]);
      PreemptKeeps(s, n, []);
      hide Partition;
      ResetWaits(Preempt(s.(running := s.running[..n]), s.running[n]), id);
    }
  }

  lemma AddWaits(c: Config, e: Engine, x: Id, v: View, late: set<Id>, id: Id)
    requires Legal(c, e, Event.Add(x, v, late)) && Waits(e.s, id)
    ensures WaitsOrEnds(AddRequest(e.s, x, v, late), id)
  {
    if x in e.s.reqs && e.s.reqs[x].status == WaitingForStreamingReq && !v.resumable {
      hide FinishRequests;
      FinishWaits(e.s, {x}, FinishedAborted, late, id);
    }
  }

  lemma NextWaits(c: Config, e: Engine, ev: Event, id: Id)
    requires EngineInv(c, e) && Legal(c, e, ev) && Waits(e.s, id)
    ensures WaitsOrEnds(Next(c, e, ev).s, id) || (ev.Step? && id in ev.env.toolReady)
  {
    hide EngineInv, Partition, FinishRequests, PreemptAll, Schedule, SchedulePass, UpdateFromOutput, AddRequest;
    match ev {
      case Step(env) =>
        if id !in env.toolReady {
          hide Next;
          StepWaits(c, e, env, id);
        }
      case Report(ans) => hide Next; ReportWaits(c, e, ans, id);
      case Draft(drafts) =>
      case Add(x, v, late) => AddWaits(c, e, x, v, late, id);
      case Abort(ids, st, late) => FinishWaits(e.s, ids, st, late, id);
      case Reset(running) => InvQueues(c, e); ResetWaits(e.s, id);
      case SetPause(pause) =>
    }
  }
}
