/**
 * Asynchronous loads of KV over whole runs: a load ends when the connector has
 * reported it, and not before (`finished_recving_kv_req_ids`).
 */
module Loads {
  import opened Seqs
  import opened Requests
  import opened SchedulerSpec
  import opened QueuePartition
  import opened Accounting
  import opened ScheduleStep
  import opened Engine
  import opened EngineStep
  import opened Receiving
  import opened Reporting
  import opened Recovering
  import opened Finishing
  import opened Interventions
  import opened ReportStep
  import opened StepCounts
  import opened WaitingLine
  import opened RequestFates
  import N = EndNotes
  import R = Runs

  /** The requests whose KV is being loaded. */
  ghost function Fetching(s: State): set<Id> {
    set id | id in s.reqs && s.reqs[id].status == WaitingForRemoteKvs
  }

  /** Only loads going on count as arrived. */
  ghost predicate DoneOk(s: State) { s.recvDone <= Fetching(s) }

  /** Loads go on, except those of requests that end. */
  ghost predicate LoadsGoOn(s: State, t: State) {
    && Unfinished(t) <= Unfinished(s)
    && Fetching(t) == Fetching(s) * Unfinished(t)
    && t.recvDone == s.recvDone * Fetching(t)
  }

  lemma GoOnTwice(s: State, t: State, u: State)
    requires LoadsGoOn(s, t) && LoadsGoOn(t, u)
    ensures LoadsGoOn(s, u)
  {
  }

  lemma SameLoads(s: State, t: State)
    requires DoneOk(s) && Fetching(t) == Fetching(s) && Unfinished(t) == Unfinished(s) && t.recvDone == s.recvDone
    ensures LoadsGoOn(s, t)
  {
    assert Fetching(s) <= Unfinished(s);
  }

  lemma FinishLoads(s: State, ids: set<Id>, st: Status, delay: set<Id>)
    requires DoneOk(s) && IsFinished(st)
    ensures LoadsGoOn(s, FinishRequests(s, ids, st, delay))
  {
    FinishViews(s, ids, st, delay);
    var valid, t := Finishable(s, ids), FinishRequests(s, ids, st, delay);
    assert t.recvDone == s.recvDone - WithStatus(s, valid, WaitingForRemoteKvs);
    hide FinishRequests, DelayedFree, Finishable, Unfinished;
    FetchingWithout(s, t, valid);
    ValidLoads(s, valid);
    hide WithStatus;
  }

  lemma FetchingWithout(s: State, t: State, valid: set<Id>)
    requires Thinned(s, t) && forall id :: id in s.reqs && id !in valid ==> id in t.reqs && t.reqs[id] == s.reqs[id]
    requires forall id :: id in t.reqs && id in valid ==> IsFinished(t.reqs[id].status)
    requires Unfinished(t) == Unfinished(s) - valid
    ensures Fetching(t) == Fetching(s) - valid == Fetching(s) * Unfinished(t)
  {
  }

  lemma ValidLoads(s: State, valid: set<Id>)
    ensures WithStatus(s, valid, WaitingForRemoteKvs) == valid * Fetching(s)
  {
  }

  // -------------------------------------------------------------------------------- reports

  lemma NobodyFetches(c: Config, v: View, d: seq<Token>, gen: seq<Token>, rejected: bool)
    requires v.status == Running
    ensures Treated(Receive(c, v, d, gen, rejected)).status != WaitingForRemoteKvs
  {
    ReceiveShape(c, v, d, gen, rejected);
    hide Receive;
  }

  lemma FetchStep(c: Config, out: Output, ans: Answer, failed: set<Id>, done: seq<Id>, a: Acc, id: Id)
    requires id in out.order && id !in done && MidInv(c, out, failed, done, a)
    ensures Fetching(UpdateOne(c, out, ans, failed, a, id).s) == Fetching(a.s)
  {
    var b := UpdateOne(c, out, ans, failed, a, id);
    if id in failed || id !in a.s.reqs || IsFinished(a.s.reqs[id].status) {
      UpdateOneNothing(c, out, ans, failed, a, id);
    } else {
      BusyRuns(c, out, failed, done, a, id);
      UpdateOneShape(c, out, ans, failed, a, id);
      NobodyFetches(c, a.s.reqs[id], Drafts(out.specs, id), TokensFor(ans, id), id in ans.rejected);
      hide UpdateOne, MidInv, Receive, Treated, Treatment, Drafts, TokensFor;
    }
  }

  lemma {:induction false} UpdateAllFetch(c: Config, out: Output, ans: Answer, failed: set<Id>, a: Acc, n: nat)
    requires NoDup(out.order) && n <= |out.order|
    requires MidInv(c, out, failed, [], a) && ReportsOk(c, out, ans, failed, [], a.s)
    ensures Fetching(UpdateAll(c, out, ans, failed, a, out.order[..n]).s) == Fetching(a.s)
  {
    hide MidInv, ReportsOk, UpdateOne, Fetching;
    if n > 0 {
      UpdateAllFetch(c, out, ans, failed, a, n - 1);
      UpdateAllInv(c, out, ans, failed, a, n - 1);
      NextInOrder(out.order, n - 1);
      var ids := out.order[..n];
      assert ids[..n - 1] == out.order[..n - 1] && ids[n - 1] == out.order[n - 1];
      FetchStep(c, out, ans, failed, out.order[..n - 1], UpdateAll(c, out, ans, failed, a, out.order[..n - 1]), out.order[n - 1]);
    } else {
      assert out.order[..0] == [];
    }
  }

  lemma LoopLoads(c: Config, e: Engine, ans: Answer)
    requires EngineInv(c, e) && Legal(c, e, Event.Report(ans))
    ensures e.pending.Some? && (DoneOk(e.s) ==> LoadsGoOn(e.s, Settled(Loop(c, e.s, e.pending.value, ans))))
  {
    var out := e.pending.value;
    var r := HandleInvalid(c, e.s, out.num, ans);
    var t := Settled(Loop(c, e.s, out, ans));
    assert AnswerOk(c, e.s, out, ans) && LoadsDisjoint(e.s, ans) && NoDup(out.order);
    R.LoopDelays(c, e, ans);
    hide HandleInvalid, LoadsDisjoint, UpdateAll, MidInv, EngineInv, AnswerOk, ReportsOk, RecoveryOk, Settled, Legal;
    RecoveredMid(c, e, ans);
    ReportsApply(c, e, ans, r);
    RecoveredFetching(e.s, r, out.num);
    assert out.order[..|out.order|] == out.order;
    UpdateAllFetch(c, out, ans, r.failed, Acc(r.s, {}, {}, []), |out.order|);
    N.LoopNotes(c, e.s, out, ans);
    SettledReqs(Loop(c, e.s, out, ans));
    StillFetching(e.s, Loop(c, e.s, out, ans).s, t);
  }

  lemma RecoveredFetching(s: State, r: Recovery, num: map<Id, int>)
    requires RecoveryOk(s, num, r)
    ensures Fetching(r.s) == Fetching(s)
  {
    RecoveredStatuses(s, r, num);
  }

  lemma StillFetching(s: State, t: State, u: State)
    requires Fetching(t) == Fetching(s) && u.reqs == t.reqs && Unfinished(u) <= Unfinished(s) && u.recvDone == s.recvDone
    ensures DoneOk(s) ==> LoadsGoOn(s, u)
  {
  }

  /** `_update_from_kv_xfer_finished`: exactly the reported loads count as arrived. */
  lemma Arrivals(s: State, recv: set<Id>, send: set<Id>)
    requires forall id :: id in recv && id in s.reqs ==> s.reqs[id].status == WaitingForRemoteKvs || IsFinished(s.reqs[id].status)
    requires forall id :: id in send && id in s.reqs ==> IsFinished(s.reqs[id].status)
    ensures var t := TransfersFinished(s, recv, send);
      Fetching(t) == Fetching(s) && Unfinished(t) == Unfinished(s) && t.recvDone == s.recvDone + recv * Fetching(s)
  {
    TransfersView(s, recv, send);
    ValidLoads(s, recv);
  }

  lemma ReportLoads(c: Config, e: Engine, ans: Answer)
    requires EngineInv(c, e) && Legal(c, e, Event.Report(ans)) && DoneOk(e.s)
    ensures var t := Next(c, e, Event.Report(ans)).s;
      && Unfinished(t) <= Unfinished(e.s) && Fetching(t) == Fetching(e.s) * Unfinished(t)
      && t.recvDone == (e.s.recvDone + ans.recv) * Fetching(t)
  {
    hide EngineInv, Legal, AfterFail, Loop, Settled, FailedNow, FinishRequests, TransfersFinished, Next, Fetching, Unfinished;
    ReportStages(c, e, ans);
    LoopLoads(c, e, ans);
    var out := e.pending.value;
    var t, u, failed := Settled(Loop(c, e.s, out, ans)), AfterFail(c, e.s, out, ans), FailedNow(c, e.s, out, ans);
    AfterFailIs(c, e.s, out, ans);
    if failed != {} {
      FinishLoads(t, failed, FinishedError, ans.delay);
      GoOnTwice(e.s, t, u);
    }
    Arrivals(u, ans.recv, ans.send);
  }

  // ---------------------------------------------------------------------------------- steps

  /** A load that has not arrived goes on, untouched; a step takes note of none. */
  ghost predicate OnlyArrivedEnd(s: State, t: State) {
    && (forall id :: id in Fetching(s) && id !in s.recvDone ==> At(t, id) == At(s, id))
    && (forall id :: id in t.recvDone ==> id in s.recvDone && At(t, id) == At(s, id))
  }

  lemma NotRunning(s: State, id: Id)
    requires Partition(s, []) && id in Fetching(s)
    ensures id in Unfinished(s) && id !in s.running
  {
    RunningKnown(s, id);
  }

  lemma FetchingFate(c: Config, env: Env, s: State, id: Id)
    requires Rest(c, s) && EnvOk(env, s) && id in Fetching(s)
    ensures var p := SchedulePass(c, env, s);
      id !in s.recvDone || id in p.s.recvDone ==> id !in p.order && AsBefore(s, p.s, id)
  {
    RestParts(c, s);
    NotRunning(s, id);
    ScheduleFates(c, env, s);
    var p := SchedulePass(c, env, s);
    assert id !in s.recvDone ==> StillBlocked(env, s, id);
    hide Rest, EnvOk, SchedulePass, Partition, Ran, RunningFate, StillBlocked, LoraFull, Undecided, Base, Slots, MustWait, LoadsNow, Woken;
    if p.preempted == [] && s.pause.Unpaused? {
      assert WaitingFate(c, env, s, p, id);
    } else {
      assert NoneAdmitted(s, p);
    }
  }

  lemma PassLoads(c: Config, env: Env, s: State)
    requires Rest(c, s) && EnvOk(env, s) && DoneOk(s)
    ensures OnlyArrivedEnd(s, Schedule(c, env, s)) && DoneOk(Schedule(c, env, s))
  {
    var p := SchedulePass(c, env, s);
    var t := AfterSchedule(p.s, p.order, p.num, p.specs);
    SchedulePassOk(c, env, s);
    PassOkParts(c, s, p);
    StepNotes(c, env, s);
    assert t.recvDone == p.s.recvDone;
    hide Rest, EnvOk, SchedulePass, PassOk, AfterSchedule, Partition, Books, AsBefore, Fetching, DoneOk, OnlyArrivedEnd, At;
    forall id | id in Fetching(s) && (id !in s.recvDone || id in t.recvDone) ensures At(t, id) == At(s, id) {
      FetchingFate(c, env, s, id);
      OnlyScheduled(c, Tokens(c, s), s, p, id);
    }
    AllFetching(s, t);
  }

  lemma AllFetching(s: State, t: State)
    requires DoneOk(s) && t.recvDone <= s.recvDone
    requires forall id :: id in Fetching(s) && (id !in s.recvDone || id in t.recvDone) ==> At(t, id) == At(s, id)
    ensures OnlyArrivedEnd(s, t) && DoneOk(t)
  {
  }

  lemma OnlyScheduled(c: Config, total: int, s: State, p: Pass, id: Id)
    requires Books(c, total, p) && id !in p.order && AsBefore(s, p.s, id)
    ensures At(AfterSchedule(p.s, p.order, p.num, p.specs), id) == At(s, id)
  {
    hide WriteKv;
  }

  lemma StepLoads(c: Config, e: Engine, env: Env)
    requires EngineInv(c, e) && Legal(c, e, Event.Step(env)) && DoneOk(e.s)
    ensures var t := Next(c, e, Event.Step(env)).s; OnlyArrivedEnd(e.s, t) && DoneOk(t)
  {
    AtRest(c, e);
    StepParts(c, e, env);
    hide EngineInv, Legal, Rest, EnvOk, Schedule, SchedulePass, OnlyArrivedEnd, DoneOk;
    PassLoads(c, env, e.s);
  }

  // ----------------------------------------------------------------------------- other events

  lemma {:induction false} ResetLoads(s: State)
    requires Partition(s, [])
    ensures Fetching(PreemptAll(s)) == Fetching(s) && PreemptAll(s).recvDone == s.recvDone
    decreases |s.running|
  {
    if s.running != [] {
      var n := |s.running| - 1;
      var x := s.running[n];
      assert RemoveAt(s.running, n) == s.running[..n];
      RunningKnown(s, x);
      PreemptKeeps(s, n, []);
      PreemptShortens(s);
      var t := Preempt(s.(running := s.running[..n]), x);
      hide Partition;
      assert Fetching(t) == Fetching(s);
      hide Preempt, Fetching;
      ResetLoads(t);
    }
  }

  lemma AddLoads(s: State, id: Id, v: View, late: set<Id>)
    requires DoneOk(s)
    requires if id in s.reqs then !IsFinished(s.reqs[id].status) else !IsFinished(v.status) && v.status != WaitingForRemoteKvs
    ensures var t := AddRequest(s, id, v, late);
      if id in s.reqs then LoadsGoOn(s, t) else Fetching(t) == Fetching(s) && t.recvDone == s.recvDone
  {
    if id in s.reqs && s.reqs[id].status == WaitingForStreamingReq && !v.resumable {
      FinishLoads(s, {id}, FinishedAborted, late);
      hide FinishRequests;
    } else {
      var t := AddRequest(s, id, v, late);
      assert Fetching(t) == Fetching(s);
      if id in s.reqs {
        assert Unfinished(t) == Unfinished(s);
        SameLoads(s, t);
      }
    }
  }

  /** How the loads going on, and those of them that count as arrived, change with each event. */
  ghost predicate LoadsFollow(e: Engine, ev: Event, f: Engine) {
    match ev
    case Step(_) => OnlyArrivedEnd(e.s, f.s)
    case Report(ans) =>
      && Fetching(f.s) == Fetching(e.s) * Unfinished(f.s)
      && f.s.recvDone == (e.s.recvDone + ans.recv) * Fetching(f.s)
    case _ =>
      && Fetching(f.s) == Fetching(e.s) * Unfinished(f.s)
      && f.s.recvDone == e.s.recvDone * Fetching(f.s)
  }

  lemma NextLoads(c: Config, e: Engine, ev: Event)
    requires EngineInv(c, e) && Legal(c, e, ev) && DoneOk(e.s)
    ensures var f := Next(c, e, ev); LoadsFollow(e, ev, f) && DoneOk(f.s)
  {
    match ev {
      case Step(env) =>
        StepLoads(c, e, env);
        hide EngineInv, Legal, Schedule, SchedulePass, OnlyArrivedEnd;
      case Report(ans) =>
        ReportLoads(c, e, ans);
        hide EngineInv, Legal, UpdateFromOutput;
      case Abort(ids, st, late) =>
        FinishLoads(e.s, ids, st, late);
        hide EngineInv, FinishRequests;
      case Add(id, v, late) =>
        hide EngineInv, Legal, AddRequest, LoadsFollow, DoneOk;
        NextAddLoads(c, e, id, v, late);
      case Draft(drafts) =>
        DraftLoads(e.s, drafts);
        hide EngineInv, Legal, UpdateDrafts;
      case Reset(running) =>
        InvParts(c, e);
        hide EngineInv, PreemptAll, Partition, LoadsFollow, DoneOk, Unfinished, Fetching;
        NextResetLoads(c, e, running);
      case SetPause(pause) => hide EngineInv;
    }
  }

  lemma NextAddLoads(c: Config, e: Engine, id: Id, v: View, late: set<Id>)
    requires EngineInv(c, e) && Legal(c, e, Event.Add(id, v, late)) && DoneOk(e.s)
    ensures var f := Next(c, e, Event.Add(id, v, late)); LoadsFollow(e, Event.Add(id, v, late), f) && DoneOk(f.s)
  {
    hide EngineInv, Legal, AddRequest, Unfinished, Fetching, N.Noted;
    AddedStatus(c, e, id, v, late);
    AddLoads(e.s, id, v, late);
    N.AddNotes(c, e, id, v, late);
    LoadsUnfinished(e.s);
  }

  lemma NextResetLoads(c: Config, e: Engine, running: bool)
    requires Partition(e.s, []) && DoneOk(e.s)
    ensures var f := Next(c, e, Event.Reset(running)); LoadsFollow(e, Event.Reset(running), f) && DoneOk(f.s)
  {
    ResetLoads(e.s);
    N.ResetNotes(e.s);
    LoadsUnfinished(e.s);
    hide PreemptAll, Partition;
    var t := PreemptAll(e.s);
    assert Fetching(t.(prev := {})) == Fetching(t) && Unfinished(t.(prev := {})) == Unfinished(t);
    hide Fetching, Unfinished;
  }

  lemma LoadsUnfinished(s: State)
    ensures Fetching(s) <= Unfinished(s)
  {
  }

  lemma DraftLoads(s: State, drafts: map<Id, seq<Token>>)
    requires DoneOk(s)
    ensures LoadsGoOn(s, UpdateDrafts(s, drafts))
  {
    assert Fetching(UpdateDrafts(s, drafts)) == Fetching(s) && Unfinished(UpdateDrafts(s, drafts)) == Unfinished(s);
    SameLoads(s, UpdateDrafts(s, drafts));
  }

  lemma AddedStatus(c: Config, e: Engine, id: Id, v: View, late: set<Id>)
    requires EngineInv(c, e) && Legal(c, e, Event.Add(id, v, late))
    ensures if id in e.s.reqs then !IsFinished(e.s.reqs[id].status)
            else !IsFinished(v.status) && v.status != WaitingForRemoteKvs && id !in e.s.reqs
  {
  }

  // ------------------------------------------------------------------------------ whole runs

  lemma {:induction false} RunDone(c: Config, run: seq<Event>)
    requires LegalRun(c, INITIAL, run)
    ensures DoneOk(After(c, INITIAL, run).s)
  {
    if run != [] {
      var front := run[..|run| - 1];
      RunDone(c, front);
      InitialInv(c);
      hide EngineInv, Legal, Next, DoneOk, LoadsFollow;
      RunKeepsInv(c, INITIAL, front);
      NextLoads(c, After(c, INITIAL, front), run[|run| - 1]);
    }
  }

  /**
   * Whatever comes after a run: a load leaves its waiting place only in a step,
   * and only when it has arrived; exactly the loads that a report names arrive;
   * and otherwise loads end only with their requests.
   */
  lemma LoadsEndWhenReported(c: Config, run: seq<Event>, ev: Event)
    requires LegalRun(c, INITIAL, run) && Legal(c, After(c, INITIAL, run), ev)
    ensures var e := After(c, INITIAL, run);
      DoneOk(e.s) && LoadsFollow(e, ev, Next(c, e, ev))
  {
    hide EngineInv, Legal, Next, DoneOk, LoadsFollow, After, LegalRun;
    InitialInv(c);
    RunKeepsInv(c, INITIAL, run);
    RunDone(c, run);
    NextLoads(c, After(c, INITIAL, run), ev);
  }

  /** Event `k` reported the load of `id`, which has been waiting to be noticed ever since. */
  ghost predicate ReportedAt(c: Config, run: seq<Event>, id: Id, k: int) {
    && 0 <= k < |run| && run[k].Report? && id in run[k].ans.recv
    && forall i :: k < i <= |run| ==> id in Fetching(After(c, INITIAL, run[..i]).s)
  }

  /** A load counts as arrived only if some report named it since it began. */
  lemma {:induction false} ArrivedMeansReported(c: Config, run: seq<Event>, id: Id) returns (k: int)
    requires LegalRun(c, INITIAL, run) && id in After(c, INITIAL, run).s.recvDone
    ensures ReportedAt(c, run, id, k)
  {
    RunDone(c, run);
    hide LegalRun, DoneOk;
    DoneFetches(After(c, INITIAL, run).s);
    if run == [] {
      k := 0;
      assert false;
    } else {
      var n := |run| - 1;
      LastIsLegal(c, run);
      LoadsEndWhenReported(c, run[..n], run[n]);
      if id in After(c, INITIAL, run[..n]).s.recvDone {
        k := ArrivedMeansReported(c, run[..n], id);
      } else {
        NewlyArrived(After(c, INITIAL, run[..n]), run[n], After(c, INITIAL, run), id);
        k := n;
      }
      StillReported(c, run, id, k);
    }
  }

  lemma LastIsLegal(c: Config, run: seq<Event>)
    requires run != [] && LegalRun(c, INITIAL, run)
    ensures var n := |run| - 1;
      && LegalRun(c, INITIAL, run[..n]) && Legal(c, After(c, INITIAL, run[..n]), run[n])
      && After(c, INITIAL, run) == Next(c, After(c, INITIAL, run[..n]), run[n])
  {
  }

  lemma DoneFetches(s: State)
    requires DoneOk(s)
    ensures s.recvDone <= Fetching(s)
  {
  }

  lemma NewlyArrived(e: Engine, ev: Event, f: Engine, id: Id)
    requires LoadsFollow(e, ev, f) && id in f.s.recvDone && id !in e.s.recvDone
    ensures ev.Report? && id in ev.ans.recv
  {
  }

  lemma StillReported(c: Config, run: seq<Event>, id: Id, k: int)
    requires run != [] && id in Fetching(After(c, INITIAL, run).s)
    requires var n := |run| - 1;
      if k == n then run[n].Report? && id in run[n].ans.recv else ReportedAt(c, run[..n], id, k)
    ensures ReportedAt(c, run, id, k)
  {
    hide After, Fetching;
    var n := |run| - 1;
    assert run[..n + 1] == run;
    forall i | k < i <= |run| ensures id in Fetching(After(c, INITIAL, run[..i]).s) {
      if i <= n {
        assert run[..n][..i] == run[..i];
      }
    }
  }
}
