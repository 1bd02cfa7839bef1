/** `num_waiting_for_streaming_input` counts exactly the sessions that await input. */
module Streaming {
  import opened Seqs
  import opened Requests
  import opened SchedulerSpec
  import opened QueuePartition
  import opened Frames
  import opened Accounting
  import opened Admission
  import opened ScheduleStep
  import opened Engine
  import opened EngineStep
  import opened Receiving
  import opened Reporting
  import opened Recovering
  import opened Finishing
  import opened Interventions
  import opened ReportStep

  ghost function Awaiting(s: State): set<Id> {
    set id | id in s.reqs && s.reqs[id].status == WaitingForStreamingReq
  }

  ghost predicate CounterOk(s: State) { s.numStreaming == |Awaiting(s)| }

  /** Nobody starts or stops awaiting input. */
  lemma SameAwaiting(s: State, t: State)
    requires CounterOk(s) && t.numStreaming == s.numStreaming && t.reqs.Keys == s.reqs.Keys
    requires forall id :: id in s.reqs ==>
      (s.reqs[id].status == WaitingForStreamingReq <==> t.reqs[id].status == WaitingForStreamingReq)
    ensures CounterOk(t)
  {
    assert Awaiting(t) == Awaiting(s);
  }

  lemma StepCounter(c: Config, e: Engine, env: Env)
    requires EngineInv(c, e) && Legal(c, e, Event.Step(env)) && CounterOk(e.s)
    ensures CounterOk(Next(c, e, Event.Step(env)).s)
  {
    AtRest(c, e);
    StepParts(c, e, env);
    StepNext(c, e, env);
    var p := SchedulePass(c, env, e.s);
    hide SchedulePass, Next, EngineInv, Legal, Rest, EnvOk, PassOk, Books, CounterOk;
    SchedulePassOk(c, env, e.s);
    PassOkParts(c, e.s, p);
    FramedCounter(c, e.s, p.s);
    AdvancedCounter(p);
  }

  lemma FramedCounter(c: Config, s: State, t: State)
    requires Framed(c, s, t) && CounterOk(s)
    ensures CounterOk(t)
  {
    hide CounterOk;
    forall id | id in s.reqs
      ensures s.reqs[id].status == WaitingForStreamingReq <==> t.reqs[id].status == WaitingForStreamingReq
    {
      assert Touched(c, s.reqs[id], t.reqs[id]);
    }
    SameAwaiting(s, t);
  }

  lemma AdvancedCounter(p: Pass)
    requires CounterOk(p.s)
    ensures CounterOk(AfterSchedule(p.s, p.order, p.num, p.specs))
  {
    hide CounterOk, WriteKv;
    SameAwaiting(p.s, AfterSchedule(p.s, p.order, p.num, p.specs));
  }

  /** One request changes. */
  lemma OneCounter(s: State, t: State, id: Id)
    requires CounterOk(s) && SameBut(s, t, id)
    requires var before := id in s.reqs && s.reqs[id].status == WaitingForStreamingReq;
      var after := id in t.reqs && t.reqs[id].status == WaitingForStreamingReq;
      t.numStreaming == s.numStreaming - (if before then 1 else 0) + (if after then 1 else 0)
    ensures CounterOk(t)
  {
    assert Awaiting(t) - {id} == Awaiting(s) - {id};
    SizeWithout(Awaiting(s), id);
    SizeWithout(Awaiting(t), id);
  }

  lemma SizeWithout(a: set<Id>, id: Id)
    ensures |a| == |a - {id}| + (if id in a then 1 else 0)
  {
    if id !in a {
      assert a - {id} == a;
    }
  }

  lemma UpdateOneCounter(c: Config, out: Output, ans: Answer, failed: set<Id>, a: Acc, id: Id)
    requires id !in failed && id in a.s.reqs && a.s.reqs[id].status == Running
    ensures var b := UpdateOne(c, out, ans, failed, a, id);
      b.s.numStreaming == a.s.numStreaming
        + (if id in b.s.reqs && b.s.reqs[id].status == WaitingForStreamingReq then 1 else 0)
  {
    var r := Receive(c, a.s.reqs[id], Drafts(out.specs, id), TokensFor(ans, id), id in ans.rejected);
    ReceiveShape(c, a.s.reqs[id], Drafts(out.specs, id), TokensFor(ans, id), id in ans.rejected);
    StoppedCounter(Put(a.s, id, r.v), id);
    hide Receive, Drafts, TokensFor, Extend, Reconcile, HandleStopped;
  }

  lemma StoppedCounter(s: State, id: Id)
    requires id in s.reqs && s.reqs[id].status != WaitingForStreamingReq
    ensures var h := HandleStopped(s, id);
            && id in h.s.reqs && h.s.reqs.Keys == s.reqs.Keys
            && (h.finished ==> h.s.reqs[id].status == s.reqs[id].status)
            && h.s.numStreaming == s.numStreaming + (if h.s.reqs[id].status == WaitingForStreamingReq then 1 else 0)
  {
  }

  lemma UpdateStepCounter(c: Config, out: Output, ans: Answer, failed: set<Id>, done: seq<Id>, a: Acc, id: Id)
    requires CounterOk(a.s) && id in out.order && id !in done && MidInv(c, out, failed, done, a)
    ensures CounterOk(UpdateOne(c, out, ans, failed, a, id).s)
  {
    hide UpdateOne, CounterOk;
    if id in failed || id !in a.s.reqs || IsFinished(a.s.reqs[id].status) {
      UpdateOneNothing(c, out, ans, failed, a, id);
    } else {
      BusyRuns(c, out, failed, done, a, id);
      hide MidInv;
      UpdateOneOthers(c, out, ans, failed, a, id);
      UpdateOneCounter(c, out, ans, failed, a, id);
      OneCounter(a.s, UpdateOne(c, out, ans, failed, a, id).s, id);
    }
  }

  lemma {:induction false} UpdateAllCounter(c: Config, out: Output, ans: Answer, failed: set<Id>, a: Acc, n: nat)
    requires NoDup(out.order) && n <= |out.order| && CounterOk(a.s)
    requires MidInv(c, out, failed, [], a) && ReportsOk(c, out, ans, failed, [], a.s)
    ensures CounterOk(UpdateAll(c, out, ans, failed, a, out.order[..n]).s)
  {
    hide MidInv, ReportsOk, UpdateOne, CounterOk;
    if n > 0 {
      UpdateAllCounter(c, out, ans, failed, a, n - 1);
      UpdateAllInv(c, out, ans, failed, a, n - 1);
      NextInOrder(out.order, n - 1);
      var ids := out.order[..n];
      assert ids[..n - 1] == out.order[..n - 1] && ids[n - 1] == out.order[n - 1];
      UpdateStepCounter(c, out, ans, failed, out.order[..n - 1],
                        UpdateAll(c, out, ans, failed, a, out.order[..n - 1]), out.order[n - 1]);
    } else {
      assert out.order[..0] == [];
    }
  }

  lemma FinishCounter(s: State, ids: set<Id>, st: Status, delay: set<Id>)
    requires CounterOk(s) && IsFinished(st)
    ensures CounterOk(FinishRequests(s, ids, st, delay))
  {
    var valid := Finishable(s, ids);
    var gone := WithStatus(s, valid, WaitingForStreamingReq);
    var t := FinishRequests(s, ids, st, delay);
    FinishViews(s, ids, st, delay);
    assert t.numStreaming == s.numStreaming - |gone|;
    assert forall id :: id in gone <==> id in valid && id in s.reqs && s.reqs[id].status == WaitingForStreamingReq;
    hide FinishRequests, WithStatus, Finishable, DelayedFree, Unfinished, CounterOk;
    ThinCounter(s, t, valid, gone);
  }

  lemma ThinCounter(s: State, t: State, valid: set<Id>, gone: set<Id>)
    requires CounterOk(s) && t.numStreaming == s.numStreaming - |gone|
    requires Thinned(s, t) && forall id :: id in s.reqs && id !in valid ==> id in t.reqs && t.reqs[id] == s.reqs[id]
    requires forall id :: id in t.reqs && id in valid ==> IsFinished(t.reqs[id].status)
    requires forall id :: id in gone <==> id in valid && id in s.reqs && s.reqs[id].status == WaitingForStreamingReq
    ensures CounterOk(t)
  {
    assert Awaiting(t) == Awaiting(s) - gone;
    assert gone <= Awaiting(s);
  }

  lemma TransfersCounter(s: State, recv: set<Id>, send: set<Id>)
    requires CounterOk(s)
    requires forall id :: id in recv && id in s.reqs ==>
      s.reqs[id].status == WaitingForRemoteKvs || IsFinished(s.reqs[id].status)
    requires forall id :: id in send && id in s.reqs ==> IsFinished(s.reqs[id].status)
    ensures CounterOk(TransfersFinished(s, recv, send))
  {
    assert Awaiting(TransfersFinished(s, recv, send)) == Awaiting(s);
  }

  lemma SettledCounter(a: Acc)
    requires CounterOk(a.s)
    ensures CounterOk(Settled(a))
  {
    assert Awaiting(Settled(a)) == Awaiting(a.s);
  }

  lemma RecoveredCounter(s: State, r: Recovery, num: map<Id, int>)
    requires RecoveryOk(s, num, r) && CounterOk(s)
    ensures CounterOk(r.s)
  {
    RecoveredStatuses(s, r, num);
    hide CounterOk;
    SameAwaiting(s, r.s);
  }

  lemma LoopCounter(c: Config, e: Engine, ans: Answer)
    requires EngineInv(c, e) && Legal(c, e, Event.Report(ans)) && CounterOk(e.s)
    ensures e.pending.Some?
    ensures CounterOk(Settled(Loop(c, e.s, e.pending.value, ans)))
  {
    var out := e.pending.value;
    var r := HandleInvalid(c, e.s, out.num, ans);
    assert AnswerOk(c, e.s, out, ans) && LoadsDisjoint(e.s, ans) && NoDup(out.order);
    hide HandleInvalid, LoadsDisjoint, UpdateAll, MidInv, EngineInv, AnswerOk, ReportsOk, RecoveryOk, CounterOk, Settled;
    RecoveredMid(c, e, ans);
    ReportsApply(c, e, ans, r);
    RecoveredCounter(e.s, r, out.num);
    assert out.order[..|out.order|] == out.order;
    UpdateAllCounter(c, out, ans, r.failed, Acc(r.s, {}, {}, []), |out.order|);
    SettledCounter(Loop(c, e.s, out, ans));
  }

  lemma ReportCounter(c: Config, e: Engine, ans: Answer)
    requires EngineInv(c, e) && Legal(c, e, Event.Report(ans)) && CounterOk(e.s)
    ensures CounterOk(Next(c, e, Event.Report(ans)).s)
  {
    hide Loop, Legal, EngineInv, FinishRequests, TransfersFinished, UpdateFromOutput, Settled, CounterOk, FailedNow, Next, AfterFail;
    LoopCounter(c, e, ans);
    ReportStages(c, e, ans);
    var out := e.pending.value;
    AfterFailIs(c, e.s, out, ans);
    if FailedNow(c, e.s, out, ans) != {} {
      FinishCounter(Settled(Loop(c, e.s, out, ans)), FailedNow(c, e.s, out, ans), FinishedError, ans.delay);
    }
    TransfersCounter(AfterFail(c, e.s, out, ans), ans.recv, ans.send);
  }

  lemma AddCounter(c: Config, e: Engine, id: Id, v: View, late: set<Id>)
    requires CounterOk(e.s) && Legal(c, e, Event.Add(id, v, late)) && (id !in e.seen ==> id !in e.s.reqs)
    ensures CounterOk(Next(c, e, Event.Add(id, v, late)).s)
  {
    if id in e.s.reqs && e.s.reqs[id].status == WaitingForStreamingReq && !v.resumable {
      FinishCounter(e.s, {id}, FinishedAborted, late);
      hide CounterOk, FinishRequests;
    } else {
      hide CounterOk;
      OneCounter(e.s, AddRequest(e.s, id, v, late), id);
    }
  }

  lemma {:induction false} PreemptAllCounter(s: State)
    requires CounterOk(s) && Partition(s, [])
    ensures CounterOk(PreemptAll(s))
    decreases |s.running|
  {
    if s.running != [] {
      var n := |s.running| - 1;
      var id := s.running[n];
      assert RemoveAt(s.running, n) == s.running[..n];
      RunningKnown(s, id);
      PreemptKeeps(s, n, []);
      hide CounterOk, Partition;
      PreemptShortens(s);
      var t := Preempt(s.(running := s.running[..n]), id);
      OneCounter(s, t, id);
      hide Preempt;
      PreemptAllCounter(t);
    }
  }

  lemma NextCounter(c: Config, e: Engine, ev: Event)
    requires EngineInv(c, e) && Legal(c, e, ev) && CounterOk(e.s)
    ensures CounterOk(Next(c, e, ev).s)
  {
    match ev {
      case Step(env) => StepCounter(c, e, env);
      case Report(ans) => ReportCounter(c, e, ans);
      case Draft(drafts) =>
        DraftViews(e.s, drafts);
        hide CounterOk, EngineInv;
        SameAwaiting(e.s, UpdateDrafts(e.s, drafts));
      case Add(id, v, late) =>
        InvParts(c, e);
        hide CounterOk, EngineInv;
        AddCounter(c, e, id, v, late);
      case Abort(ids, st, late) =>
        hide CounterOk, FinishRequests, EngineInv;
        FinishCounter(e.s, ids, st, late);
      case Reset(running) =>
        InvParts(c, e);
        PreemptAllCounter(e.s);
        hide EngineInv, PreemptAll;
        assert Awaiting(PreemptAll(e.s).(prev := {})) == Awaiting(PreemptAll(e.s));
      case SetPause(pause) =>
        hide EngineInv;
        assert Awaiting(e.s.(pause := pause)) == Awaiting(e.s);
    }
  }

  lemma {:induction false} RunCounter(c: Config, run: seq<Event>)
    requires LegalRun(c, INITIAL, run)
    ensures CounterOk(After(c, INITIAL, run).s)
  {
    if run != [] {
      var front := run[..|run| - 1];
      RunCounter(c, front);
      InitialInv(c);
      hide EngineInv, Legal, Next, CounterOk;
      RunKeepsInv(c, INITIAL, front);
      NextCounter(c, After(c, INITIAL, front), run[|run| - 1]);
    } else {
      assert Awaiting(EMPTY) == {};
    }
  }

  /**
   * The counter is exact in every reachable state, each session it counts sits
   * in `skipped_waiting` with no input left, and so the number of unfinished
   * requests reported while unpaused is the number of those not awaiting input.
   */
  lemma {:induction false} CounterIsExact(c: Config, run: seq<Event>)
    requires LegalRun(c, INITIAL, run)
    ensures var s := After(c, INITIAL, run).s;
            && s.numStreaming == |Awaiting(s)|
            && (forall id :: id in Awaiting(s) ==>
                  id in s.skipped && id !in s.running && id !in s.waiting && s.reqs[id].queue == [])
            && (s.pause.Unpaused? ==> NumUnfinished(s) == |Unfinished(s) - Awaiting(s)|)
  {
    hide EngineInv, After, LegalRun, NumUnfinished;
    RunCounter(c, run);
    InitialInv(c);
    RunKeepsInv(c, INITIAL, run);
    CounterNow(c, After(c, INITIAL, run));
  }

  lemma CounterNow(c: Config, e: Engine)
    requires EngineInv(c, e) && CounterOk(e.s)
    ensures forall id :: id in Awaiting(e.s) ==>
      id in e.s.skipped && id !in e.s.running && id !in e.s.waiting && e.s.reqs[id].queue == []
    ensures e.s.pause.Unpaused? ==> NumUnfinished(e.s) == |Unfinished(e.s) - Awaiting(e.s)|
  {
    hide EngineInv, Partition;
    InvParts(c, e);
    forall id | id in Awaiting(e.s)
      ensures id in e.s.skipped && id !in e.s.running && id !in e.s.waiting && e.s.reqs[id].queue == []
    {
      AwaitingHasNoInput(c, e, id);
      OnlyQueue(e.s, id);
    }
    CountQueued(e.s);
  }

  lemma AwaitingHasNoInput(c: Config, e: Engine, id: Id)
    requires EngineInv(c, e) && id in Awaiting(e.s)
    ensures e.s.reqs[id].queue == []
  {
    assert RequestOk(c, e, id);
    hide Partition, LoadsOk, PrevOk, PendingOk;
  }

  lemma OnlyQueue(s: State, id: Id)
    requires Partition(s, []) && id in s.reqs && IsBlocked(s.reqs[id].status)
    ensures id in s.skipped && id !in s.running && id !in s.waiting
  {
    ExactlyOneQueue(s, id);
    assert multiset(s.skipped)[id] >= 1 && multiset(s.running)[id] == 0 && multiset(s.waiting)[id] == 0;
  }

  lemma CountQueued(s: State)
    requires Partition(s, [])
    ensures |s.running| + |s.waiting| + |s.skipped| == |Unfinished(s)|
    ensures |Unfinished(s) - Awaiting(s)| == |Unfinished(s)| - |Awaiting(s)|
  {
    assert |multiset(Unfinished(s))| == |Unfinished(s)|;
    assert |Queued(s, [])| == |s.running| + |s.waiting| + |s.skipped|;
    assert Awaiting(s) <= Unfinished(s);
  }
}
