/** `update_from_output` as a whole, and every event of a run. */
module ReportStep {
  import opened Seqs
  import opened Requests
  import opened SchedulerSpec
  import opened QueuePartition
  import opened Admission
  import opened Engine
  import opened EngineStep
  import opened Reporting
  import opened Recovering
  import opened Finishing
  import opened Interventions

  /** Requests may go, but none comes, and only running ones change their status. */
  ghost predicate OnlyRunningMove(s: State, t: State) {
    forall id {:trigger id in t.reqs} {:trigger t.reqs[id]} :: id in t.reqs ==>
      id in s.reqs && (s.reqs[id].status == Running || t.reqs[id].status == s.reqs[id].status)
  }

  lemma MoveStep(c: Config, out: Output, ans: Answer, failed: set<Id>, done: seq<Id>, s: State, a: Acc, id: Id)
    requires OnlyRunningMove(s, a.s) && id in out.order && id !in done
    requires MidInv(c, out, failed, done, a)
    ensures OnlyRunningMove(s, UpdateOne(c, out, ans, failed, a, id).s)
  {
    var b := UpdateOne(c, out, ans, failed, a, id);
    if id in failed || id !in a.s.reqs || IsFinished(a.s.reqs[id].status) {
      UpdateOneNothing(c, out, ans, failed, a, id);
    } else {
      BusyRuns(c, out, failed, done, a, id);
      UpdateOneOthers(c, out, ans, failed, a, id);
      hide UpdateOne, MidInv;
    }
  }

  lemma BusyRuns(c: Config, out: Output, failed: set<Id>, done: seq<Id>, a: Acc, id: Id)
    requires MidInv(c, out, failed, done, a) && Busy(out, failed, done, id)
    requires id in a.s.reqs && !IsFinished(a.s.reqs[id].status)
    ensures a.s.reqs[id].status == Running
  {
    assert MidRequest(c, out, failed, done, a.s, id);
  }

  lemma {:induction false} UpdateAllMoves(c: Config, out: Output, ans: Answer, failed: set<Id>, a: Acc, n: nat)
    requires NoDup(out.order) && n <= |out.order|
    requires MidInv(c, out, failed, [], a) && ReportsOk(c, out, ans, failed, [], a.s)
    ensures OnlyRunningMove(a.s, UpdateAll(c, out, ans, failed, a, out.order[..n]).s)
  {
    hide MidInv, ReportsOk, UpdateOne;
    if n > 0 {
      UpdateAllMoves(c, out, ans, failed, a, n - 1);
      UpdateAllInv(c, out, ans, failed, a, n - 1);
      NextInOrder(out.order, n - 1);
      var ids := out.order[..n];
      assert ids[..n - 1] == out.order[..n - 1] && ids[n - 1] == out.order[n - 1];
      MoveStep(c, out, ans, failed, out.order[..n - 1], a.s,
               UpdateAll(c, out, ans, failed, a, out.order[..n - 1]), out.order[n - 1]);
    } else {
      assert out.order[..0] == [];
    }
  }

  /** Requests in flight that did not fail to load are as they were, so the report is about them. */
  lemma ReportsApply(c: Config, e: Engine, ans: Answer, r: Recovery)
    requires EngineInv(c, e) && e.pending.Some? && AnswerOk(c, e.s, e.pending.value, ans)
    requires RecoveryOk(e.s, e.pending.value.num, r)
    ensures ReportsOk(c, e.pending.value, ans, r.failed, [], r.s)
  {
    var out := e.pending.value;
    forall id | id in r.s.reqs && !IsFinished(r.s.reqs[id].status) && Busy(out, r.failed, [], id)
      ensures TokensOk(r.s.reqs[id], Drafts(out.specs, id), TokensFor(ans, id)) && NextInputFits(c, r.s.reqs[id])
    {
      assert RecoveredRequest(e.s, out.num, r, id) && RequestOk(c, e, id);
    }
  }

  /** The local variables of `update_from_output` after its loop. */
  ghost function Loop(c: Config, s: State, out: Output, ans: Answer): Acc {
    var r := HandleInvalid(c, s, out.num, ans);
    UpdateAll(c, out, ans, r.failed, Acc(r.s, {}, {}, []), out.order)
  }

  lemma LoopOk(c: Config, e: Engine, ans: Answer)
    requires EngineInv(c, e) && Legal(c, e, Event.Report(ans))
    ensures var out := e.pending.value;
            var a := Loop(c, e.s, out, ans);
            && MidInv(c, out, HandleInvalid(c, e.s, out.num, ans).failed, out.order, a)
            && OnlyRunningMove(e.s, a.s)
  {
    var out := e.pending.value;
    var r := HandleInvalid(c, e.s, out.num, ans);
    var a := Acc(r.s, {}, {}, []);
    assert AnswerOk(c, e.s, out, ans) && LoadsDisjoint(e.s, ans) && NoDup(out.order);
    hide HandleInvalid, LoadsDisjoint, UpdateAll, MidInv, EngineInv, AnswerOk, ReportsOk, RecoveryOk;
    RecoveredMid(c, e, ans);
    ReportsApply(c, e, ans, r);
    assert out.order[..|out.order|] == out.order;
    UpdateAllInv(c, out, ans, r.failed, a, |out.order|);
    UpdateAllMoves(c, out, ans, r.failed, a, |out.order|);
    RecoveredStatuses(e.s, r, out.num);
    MoveFrom(e.s, r.s, UpdateAll(c, out, ans, r.failed, a, out.order).s);
  }

  lemma MoveFrom(s: State, t: State, u: State)
    requires SameStatuses(s, t) && OnlyRunningMove(t, u)
    ensures OnlyRunningMove(s, u)
  {
  }

  /** When everybody in flight was looked at, the engine is at rest. */
  lemma LoopDone(c: Config, e: Engine, out: Output, failed: set<Id>, a: Acc)
    requires MidInv(c, out, failed, out.order, a)
    requires forall id :: id in a.s.reqs ==> id in e.seen
    ensures EngineInv(c, e.(s := Settled(a), pending := None))
  {
    var f := e.(s := Settled(a), pending := None);
    forall id | id in f.s.reqs ensures RequestOk(c, f, id) && id in f.seen {
      assert MidRequest(c, out, failed, out.order, a.s, id);
    }
    MidParts(c, out, failed, out.order, a);
    hide RequestOk, MidInv, MidRequest;
    SameLoads(c, a.s, f.s);
    hide Settled;
    Whole(c, f);
  }

  lemma SameLoads(c: Config, s: State, t: State)
    requires LoadsOk(c, s) && PrevOk(s) && t.reqs == s.reqs && t.recvFailed == s.recvFailed && t.prev == s.prev
    ensures LoadsOk(c, t) && PrevOk(t)
  {
  }

  /** The requests that the "fail" policy ends. */
  ghost function FailedNow(c: Config, s: State, out: Output, ans: Answer): set<Id> {
    if c.recompute then {} else HandleInvalid(c, s, out.num, ans).failed
  }

  /** The state of `update_from_output` before transfers are looked at. */
  ghost function AfterFail(c: Config, s: State, out: Output, ans: Answer): State {
    var failed := FailedNow(c, s, out, ans);
    var t := Settled(Loop(c, s, out, ans));
    if failed != {} then FinishRequests(t, failed, FinishedError, ans.delay) else t
  }

  lemma AfterFailIs(c: Config, s: State, out: Output, ans: Answer)
    ensures var failed := FailedNow(c, s, out, ans);
      var t := Settled(Loop(c, s, out, ans));
      AfterFail(c, s, out, ans) == if failed != {} then FinishRequests(t, failed, FinishedError, ans.delay) else t
  {
  }

  /** Nobody but running requests stops, so `waiting` is never searched. */
  lemma AfterLoop(c: Config, s: State, out: Output, ans: Answer)
    requires Loop(c, s, out, ans).stoppedOther == {}
    ensures UpdateFromOutput(c, s, out, ans).s == TransfersFinished(AfterFail(c, s, out, ans), ans.recv, ans.send)
  {
    var a := Loop(c, s, out, ans);
    WithoutNothing(a.s.waiting, {});
    hide HandleInvalid, UpdateAll, FinishRequests, TransfersFinished, Without;
  }

  lemma FailKeepsInv(c: Config, e: Engine, failing: bool, failed: set<Id>, delay: set<Id>)
    requires EngineInv(c, e)
    ensures var u := if failing then FinishRequests(e.s, failed, FinishedError, delay) else e.s;
      EngineInv(c, e.(s := u)) && StatusesKept(e.s, u)
  {
    hide FinishRequests, EngineInv;
    if failing {
      FinishKeepsInv(c, e, failed, FinishedError, delay);
      FinishViews(e.s, failed, FinishedError, delay);
    } else {
      assert e.(s := e.s) == e;
    }
  }

  /** Requests may go or finish, but their status does not change otherwise. */
  ghost predicate StatusesKept(s: State, t: State) {
    forall id {:trigger id in t.reqs} {:trigger t.reqs[id]} :: id in t.reqs ==>
      id in s.reqs && (IsFinished(t.reqs[id].status) || t.reqs[id].status == s.reqs[id].status)
  }

  lemma TransfersKnown(s: State, t: State, u: State, recv: set<Id>, send: set<Id>)
    requires OnlyRunningMove(s, t) && StatusesKept(t, u)
    requires forall id :: id in recv ==>
      id in s.reqs && (s.reqs[id].status == WaitingForRemoteKvs || IsFinished(s.reqs[id].status))
    requires forall id :: id in send ==> id in s.reqs && IsFinished(s.reqs[id].status)
    ensures forall id :: id in recv && id in u.reqs ==>
      u.reqs[id].status == WaitingForRemoteKvs || IsFinished(u.reqs[id].status)
    ensures forall id :: id in send && id in u.reqs ==> IsFinished(u.reqs[id].status)
  {
  }

  lemma ReportParts(c: Config, e: Engine, ans: Answer)
    requires EngineInv(c, e) && Legal(c, e, Event.Report(ans))
    ensures e.pending.Some?
    ensures forall id :: id in ans.recv ==>
      id in e.s.reqs && (e.s.reqs[id].status == WaitingForRemoteKvs || IsFinished(e.s.reqs[id].status))
    ensures forall id :: id in ans.send ==> id in e.s.reqs && IsFinished(e.s.reqs[id].status)
    ensures forall id :: id in e.s.reqs ==> id in e.seen
  {
  }

  /** What `update_from_output` goes through. */
  lemma ReportStages(c: Config, e: Engine, ans: Answer)
    requires EngineInv(c, e) && Legal(c, e, Event.Report(ans))
    ensures e.pending.Some?
    ensures var out := e.pending.value;
            var s := Settled(Loop(c, e.s, out, ans));
            var u := AfterFail(c, e.s, out, ans);
            && EngineInv(c, e.(s := s, pending := None))
            && EngineInv(c, e.(s := u, pending := None))
            && (forall id :: id in ans.recv && id in u.reqs ==>
                  u.reqs[id].status == WaitingForRemoteKvs || IsFinished(u.reqs[id].status))
            && (forall id :: id in ans.send && id in u.reqs ==> IsFinished(u.reqs[id].status))
            && Next(c, e, Event.Report(ans)).s == TransfersFinished(u, ans.recv, ans.send)
  {
    var out := e.pending.value;
    var a := Loop(c, e.s, out, ans);
    var held := HandleInvalid(c, e.s, out.num, ans).failed;
    LoopOk(c, e, ans);
    ReportParts(c, e, ans);
    MidParts(c, out, held, out.order, a);
    AfterLoop(c, e.s, out, ans);
    hide HandleInvalid, Loop, Legal, EngineInv, MidInv, FinishRequests, TransfersFinished, UpdateFromOutput, Settled,
         Partition, PrevOk, LoadsOk, FailedNow, AfterFail;
    LoopDone(c, e, out, held, a);
    var f := e.(s := Settled(a), pending := None);
    SettledReqs(a);
    AfterFailIs(c, e.s, out, ans);
    var failed := FailedNow(c, e.s, out, ans);
    FailKeepsInv(c, f, failed != {}, failed, ans.delay);
    var u := AfterFail(c, e.s, out, ans);
    TransfersKnown(e.s, f.s, u, ans.recv, ans.send);
  }

  lemma ReportKeepsInv(c: Config, e: Engine, ans: Answer)
    requires EngineInv(c, e) && Legal(c, e, Event.Report(ans))
    ensures EngineInv(c, Next(c, e, Event.Report(ans)))
  {
    ReportStages(c, e, ans);
    var out := e.pending.value;
    hide Loop, EngineInv, TransfersFinished, UpdateFromOutput, Settled, FailedNow, AfterFail;
    var f := e.(s := AfterFail(c, e.s, out, ans), pending := None);
    TransfersKeepInv(c, f, ans.recv, ans.send);
    var g := f.(s := TransfersFinished(f.s, ans.recv, ans.send));
    LogDoesNotMatter(c, g, e.log + UpdateFromOutput(c, e.s, out, ans).msgs);
  }

  lemma LegalReport(c: Config, e: Engine, ans: Answer)
    requires EngineInv(c, e) && Legal(c, e, Event.Report(ans))
    ensures e.pending.Some? && AnswerOk(c, e.s, e.pending.value, ans) && NoDup(e.pending.value.order)
    ensures LoadsDisjoint(e.s, ans)
  {
  }

  /** Without a connector there are no failed loads, no delays and no transfers. */
  lemma NoFailures(c: Config, s: State, out: Output, ans: Answer)
    requires !c.connector && AnswerOk(c, s, out, ans)
    ensures HandleInvalid(c, s, out.num, ans) == Recovery(s, {}) && FailedNow(c, s, out, ans) == {}
    ensures ans.recv == {} && ans.send == {} && ans.delay == {}
  {
  }

  lemma {:induction false} PlainLoop(c: Config, s: State, out: Output, ans: Answer)
    requires HandleInvalid(c, s, out.num, ans) == Recovery(s, {})
    ensures AfterFail(c, s, out, ans) == Settled(UpdateAll(c, out, ans, {}, Acc(s, {}, {}, []), out.order))
  {
    hide HandleInvalid, UpdateAll, Settled;
  }

  lemma SettledReqs(a: Acc)
    ensures Settled(a).reqs == a.s.reqs
  {
  }

  lemma LogDoesNotMatter(c: Config, e: Engine, log: seq<Message>)
    requires EngineInv(c, e)
    ensures EngineInv(c, e.(log := log))
  {
    forall id | id in e.s.reqs ensures RequestOk(c, e.(log := log), id) {
      assert RequestOk(c, e, id);
    }
    hide RequestOk;
  }

  /** Every event keeps the invariant. */
  lemma NextKeepsInv(c: Config, e: Engine, ev: Event)
    requires EngineInv(c, e) && Legal(c, e, ev)
    ensures EngineInv(c, Next(c, e, ev))
  {
    match ev {
      case Step(env) => StepKeepsInv(c, e, env);
      case Report(ans) => ReportKeepsInv(c, e, ans);
      case Draft(drafts) => DraftKeepsInv(c, e, drafts);
      case Add(id, v, late) => AddKeepsInv(c, e, id, v, late);
      case Abort(ids, st, late) => hide EngineInv, FinishRequests; FinishKeepsInv(c, e, ids, st, late);
      case Reset(running) => ResetKeepsInv(c, e, running);
      case SetPause(pause) => hide EngineInv; PauseKeepsInv(c, e, pause);
    }
  }

  lemma InitialInv(c: Config)
    ensures EngineInv(c, INITIAL)
  {
    assert Unfinished(EMPTY) == {};
  }

  /** The invariant holds after every legal run. */
  lemma {:induction false} RunKeepsInv(c: Config, e: Engine, run: seq<Event>)
    requires EngineInv(c, e) && LegalRun(c, e, run)
    ensures EngineInv(c, After(c, e, run))
  {
    if run != [] {
      RunKeepsInv(c, e, run[..|run| - 1]);
      hide EngineInv, Legal, Next;
      NextKeepsInv(c, After(c, e, run[..|run| - 1]), run[|run| - 1]);
    }
  }
}
