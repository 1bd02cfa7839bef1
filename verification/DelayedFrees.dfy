/** How long a request that has finished stays known, with its blocks: until nobody needs them any more. */
module DelayedFrees {
  import opened Seqs
  import opened Requests
  import opened SchedulerSpec
  import opened QueuePartition
  import opened Frames
  import opened Accounting
  import opened ScheduleStep
  import opened Engine
  import opened EngineStep
  import opened Receiving
  import opened Reporting
  import opened Recovering
  import opened Interventions
  import opened ReportStep
  import opened Delivery
  import opened RequestFates
  import R = Runs

  /** `id` has its blocks iff it had them, and is as it was. */
  ghost predicate Same(s: State, t: State, id: Id) {
    (id in t.reqs <==> id in s.reqs) && At(t, id) == At(s, id) && (id in t.kv <==> id in s.kv)
  }

  /** `id` has ended; if it is kept, its blocks are, and otherwise both are gone. */
  ghost predicate EndedAs(s: State, t: State, id: Id, kept: bool) {
    && (id in t.reqs <==> kept) && IsFinished(At(t, id).status)
    && (id in t.kv <==> kept && id in s.kv)
  }

  lemma FinishKept(s: State, ids: set<Id>, st: Status, delay: set<Id>, id: Id)
    requires IsFinished(st)
    ensures var t := FinishRequests(s, ids, st, delay);
      if id in ids && id in Unfinished(s) then EndedAs(s, t, id, id in delay || R.Loading(s, id)) else Same(s, t, id)
  {
  }

  lemma TransferKept(s: State, recv: set<Id>, send: set<Id>, id: Id)
    ensures var t := TransfersFinished(s, recv, send);
      if (id in recv && At(s, id).status != WaitingForRemoteKvs) || id in send then EndedAs(s, t, id, false) else Same(s, t, id)
  {
  }

  // -------------------------------------------------------------------------------- reports

  /** What the loop makes of a request in flight that ends. */
  ghost predicate EndedWhenDone(s: State, t: State, id: Id, v: View, ends: bool, delayed: bool, done: bool) {
    if done && ends then EndedAs(s, t, id, delayed)
    else if done then id in Unfinished(t)
    else id in t.reqs && t.reqs[id] == v && (id in t.kv <==> id in s.kv)
  }

  lemma EndOne(c: Config, out: Output, ans: Answer, failed: set<Id>, done: seq<Id>, a: Acc, s: State, x: Id, id: Id, v: View)
    requires MidInv(c, out, failed, done, a) && x in out.order && x !in done && id !in failed && !IsFinished(v.status)
    requires var ends := Treatment(Receive(c, v, Drafts(out.specs, id), TokensFor(ans, id), id in ans.rejected)).Finish?;
      EndedWhenDone(s, a.s, id, v, ends, id in ans.delay, id in done)
    ensures var ends := Treatment(Receive(c, v, Drafts(out.specs, id), TokensFor(ans, id), id in ans.rejected)).Finish?;
      EndedWhenDone(s, UpdateOne(c, out, ans, failed, a, x).s, id, v, ends, id in ans.delay, id in done || x == id)
  {
    hide UpdateOne, Receive, Drafts, TokensFor, MidInv, Treatment, Treated;
    if x in failed || x !in a.s.reqs || IsFinished(a.s.reqs[x].status) {
      UpdateOneNothing(c, out, ans, failed, a, x);
    } else {
      BusyRuns(c, out, failed, done, a, x);
      UpdateOneShape(c, out, ans, failed, a, x);
      if x == id {
        TreatedEnds(c, v, Drafts(out.specs, id), TokensFor(ans, id), id in ans.rejected);
      }
    }
  }

  lemma TreatedEnds(c: Config, v: View, d: seq<Token>, gen: seq<Token>, rejected: bool)
    requires v.status == Running
    ensures var r := Receive(c, v, d, gen, rejected);
      Treatment(r).Finish? <==> IsFinished(Treated(r).status)
  {
    ReceiveShape(c, v, d, gen, rejected);
    hide Receive;
  }

  lemma {:induction false} EndAll(c: Config, out: Output, ans: Answer, failed: set<Id>, a: Acc, n: nat, id: Id)
    requires NoDup(out.order) && n <= |out.order| && id !in failed && id in Unfinished(a.s)
    requires MidInv(c, out, failed, [], a) && ReportsOk(c, out, ans, failed, [], a.s)
    ensures var v := a.s.reqs[id];
            var ends := Treatment(Receive(c, v, Drafts(out.specs, id), TokensFor(ans, id), id in ans.rejected)).Finish?;
            var b := UpdateAll(c, out, ans, failed, a, out.order[..n]);
      EndedWhenDone(a.s, b.s, id, v, ends, id in ans.delay, id in out.order[..n])
  {
    hide MidInv, ReportsOk, UpdateOne, Receive, Drafts, TokensFor, Treatment, EndedAs;
    if n > 0 {
      EndAll(c, out, ans, failed, a, n - 1, id);
      UpdateAllInv(c, out, ans, failed, a, n - 1);
      NextInOrder(out.order, n - 1);
      var ids := out.order[..n];
      assert ids[..n - 1] == out.order[..n - 1] && ids[n - 1] == out.order[n - 1];
      hide EndedWhenDone;
      EndOne(c, out, ans, failed, out.order[..n - 1], UpdateAll(c, out, ans, failed, a, out.order[..n - 1]),
             a.s, out.order[n - 1], id, a.s.reqs[id]);
    } else {
      assert out.order[..0] == [];
    }
  }

  /** The loop passes over all others. */
  lemma {:induction false} LoopSame(c: Config, out: Output, ans: Answer, failed: set<Id>, a: Acc, ids: seq<Id>, id: Id)
    requires id in failed || id !in ids || id !in Unfinished(a.s)
    ensures Same(a.s, UpdateAll(c, out, ans, failed, a, ids).s, id)
  {
    hide UpdateOne, At;
    if ids != [] {
      var n := |ids| - 1;
      assert ids == ids[..n] + [ids[n]];
      LoopSame(c, out, ans, failed, a, ids[..n], id);
      var b := UpdateAll(c, out, ans, failed, a, ids[..n]);
      if ids[n] in failed || ids[n] !in b.s.reqs || IsFinished(b.s.reqs[ids[n]].status) {
        UpdateOneNothing(c, out, ans, failed, b, ids[n]);
      } else {
        SameUnfinished(a.s, b.s, id);
        OneSame(c, out, ans, failed, b, ids[n], id);
        SameTwice(a.s, b.s, UpdateOne(c, out, ans, failed, b, ids[n]).s, id);
      }
    }
  }

  lemma SameUnfinished(s: State, t: State, id: Id)
    requires Same(s, t, id)
    ensures id in Unfinished(s) <==> id in Unfinished(t)
  {
  }

  lemma SameTwice(s: State, t: State, u: State, id: Id)
    requires Same(s, t, id) && Same(t, u, id)
    ensures Same(s, u, id)
  {
  }

  lemma OneSame(c: Config, out: Output, ans: Answer, failed: set<Id>, a: Acc, x: Id, id: Id)
    requires x != id && x !in failed && x in Unfinished(a.s)
    ensures Same(a.s, UpdateOne(c, out, ans, failed, a, x).s, id)
  {
    UpdateOneOthers(c, out, ans, failed, a, x);
    OneKv(c, out, ans, failed, a, x, id);
    hide UpdateOne;
  }

  lemma OneKv(c: Config, out: Output, ans: Answer, failed: set<Id>, a: Acc, x: Id, id: Id)
    requires x != id
    ensures id in UpdateOne(c, out, ans, failed, a, x).s.kv <==> id in a.s.kv
  {
    hide Receive, SessionView, Drafts, TokensFor, ReasonOf;
  }

  /** `id` had this status, is known iff it was, and has its blocks iff it had them. */
  ghost predicate SameStatus(s: State, t: State, id: Id) {
    (id in t.reqs <==> id in s.reqs) && At(t, id).status == At(s, id).status && (id in t.kv <==> id in s.kv)
  }

  /** Before the "fail" policy and the transfers: a request in flight has ended or goes on, and all others are where they were. */
  ghost predicate LoopLeaves(e: Engine, ans: Answer, held: set<Id>, t: State, id: Id) {
    if InFlight(e, id) && id !in held then EndedAs(e.s, t, id, id in ans.delay) || id in Unfinished(t)
    else SameStatus(e.s, t, id) && (id !in Unfinished(e.s) ==> Same(e.s, t, id))
  }

  lemma LoopKept(c: Config, e: Engine, ans: Answer, id: Id)
    requires EngineInv(c, e) && Legal(c, e, Event.Report(ans))
    ensures e.pending.Some?
    ensures LoopLeaves(e, ans, HandleInvalid(c, e.s, e.pending.value.num, ans).failed, Settled(Loop(c, e.s, e.pending.value, ans)), id)
  {
    var out := e.pending.value;
    hide HandleInvalid, UpdateAll, EngineInv, Legal, Settled, Loop, LoopLeaves;
    SettledKept(Loop(c, e.s, out, ans), id);
    if InFlight(e, id) && id !in HandleInvalid(c, e.s, out.num, ans).failed {
      FlightEnds(c, e, ans, id);
    } else {
      OthersStay(c, e, ans, id);
    }
    LoopLeft(e, ans, HandleInvalid(c, e.s, out.num, ans).failed, Loop(c, e.s, out, ans).s, Settled(Loop(c, e.s, out, ans)), id);
  }

  lemma LoopLeft(e: Engine, ans: Answer, held: set<Id>, s: State, t: State, id: Id)
    requires t.reqs == s.reqs && t.kv == s.kv
    requires if InFlight(e, id) && id !in held then EndedAs(e.s, s, id, id in ans.delay) || id in Unfinished(s)
             else SameStatus(e.s, s, id) && (id !in Unfinished(e.s) ==> Same(e.s, s, id))
    ensures LoopLeaves(e, ans, held, t, id)
  {
  }

  lemma FlightEnds(c: Config, e: Engine, ans: Answer, id: Id)
    requires EngineInv(c, e) && Legal(c, e, Event.Report(ans)) && InFlight(e, id)
    requires id !in HandleInvalid(c, e.s, e.pending.value.num, ans).failed
    ensures var t := Loop(c, e.s, e.pending.value, ans).s; EndedAs(e.s, t, id, id in ans.delay) || id in Unfinished(t)
  {
    var out := e.pending.value;
    var r := HandleInvalid(c, e.s, out.num, ans);
    assert AnswerOk(c, e.s, out, ans) && LoadsDisjoint(e.s, ans) && NoDup(out.order);
    assert out.order[..|out.order|] == out.order;
    hide HandleInvalid, LoadsDisjoint, UpdateAll, MidInv, EngineInv, AnswerOk, ReportsOk, RecoveryOk, Receive, Treatment, Legal, Same,
         SameStatus;
    RecoveredMid(c, e, ans);
    ReportsApply(c, e, ans, r);
    RecoveredKept(e.s, r, out.num, id);
    InFlightUnchanged(c, e, r, id);
    EndAll(c, out, ans, r.failed, Acc(r.s, {}, {}, []), |out.order|, id);
  }

  lemma OthersStay(c: Config, e: Engine, ans: Answer, id: Id)
    requires EngineInv(c, e) && Legal(c, e, Event.Report(ans))
    requires !InFlight(e, id) || id in HandleInvalid(c, e.s, e.pending.value.num, ans).failed
    ensures var t := Loop(c, e.s, e.pending.value, ans).s;
      SameStatus(e.s, t, id) && (id !in Unfinished(e.s) ==> Same(e.s, t, id))
  {
    var out := e.pending.value;
    var r := HandleInvalid(c, e.s, out.num, ans);
    assert AnswerOk(c, e.s, out, ans) && LoadsDisjoint(e.s, ans);
    hide HandleInvalid, LoadsDisjoint, UpdateAll, MidInv, EngineInv, AnswerOk, RecoveryOk, Legal;
    RecoveredMid(c, e, ans);
    RecoveredKept(e.s, r, out.num, id);
    LoopSame(c, out, ans, r.failed, Acc(r.s, {}, {}, []), out.order, id);
  }

  lemma RecoveredKept(s: State, r: Recovery, num: map<Id, int>, id: Id)
    requires RecoveryOk(s, num, r)
    ensures SameStatus(s, r.s, id) && (id !in Unfinished(s) ==> Same(s, r.s, id)) && (id in Unfinished(s) <==> id in Unfinished(r.s))
    ensures r.s.kv == s.kv
  {
    if id in s.reqs {
      assert RecoveredRequest(s, num, r, id);
    }
  }

  lemma SettledKept(a: Acc, id: Id)
    ensures Settled(a).reqs == a.s.reqs && Settled(a).kv == a.s.kv
  {
    hide Without;
  }

  /** Why a request that ends in `ev` stays known. */
  ghost predicate StillNeeded(e: Engine, ev: Event, id: Id) {
    match ev
    case Report(ans) => (id in ans.delay || R.Loading(e.s, id)) && id !in ans.recv
    case Add(_, _, late) => id in late
    case Abort(_, _, late) => id in late || R.Loading(e.s, id)
    case _ => false
  }

  predicate Reported(ev: Event, id: Id) { ev.Report? && (id in ev.ans.recv || id in ev.ans.send) }

  /**
   * A request that ends is kept, with its blocks, iff somebody still needs
   * them; one that was kept stays as it is until the connector reports it, and
   * then it is gone.
   */
  ghost predicate KeptRight(e: Engine, ev: Event, f: Engine, id: Id) {
    if id in Unfinished(e.s) then id in Unfinished(f.s) || EndedAs(e.s, f.s, id, StillNeeded(e, ev, id))
    else if Reported(ev, id) then EndedAs(e.s, f.s, id, false)
    else Same(e.s, f.s, id)
  }

  lemma ReportKept(c: Config, e: Engine, ans: Answer, id: Id)
    requires EngineInv(c, e) && Legal(c, e, Event.Report(ans)) && id in e.s.reqs
    ensures KeptRight(e, Event.Report(ans), Next(c, e, Event.Report(ans)), id)
  {
    hide EngineInv, Legal, HandleInvalid, FinishRequests, TransfersFinished, Loop, Settled, AfterFail, FailedNow, LoopLeaves;
    LoopKept(c, e, ans, id);
    ReportParts(c, e, ans);
    ReportStages(c, e, ans);
    R.LoopDelays(c, e, ans);
    var out := e.pending.value;
    var t, failed := Settled(Loop(c, e.s, out, ans)), FailedNow(c, e.s, out, ans);
    AfterFailIs(c, e.s, out, ans);
    FailedParts(c, e.s, out, ans);
    FinishKept(t, failed, FinishedError, ans.delay, id);
    var u := AfterFail(c, e.s, out, ans);
    SameAsIs(t, id);
    if InFlight(e, id) {
      InFlightRuns(c, e, id);
    }
    TransferKept(u, ans.recv, ans.send, id);
    LastStages(e, ans, HandleInvalid(c, e.s, out.num, ans).failed, failed, t, u, TransfersFinished(u, ans.recv, ans.send), id);
  }

  lemma InFlightRuns(c: Config, e: Engine, id: Id)
    requires EngineInv(c, e) && InFlight(e, id)
    ensures e.s.reqs[id].status == Running
  {
    assert RequestOk(c, e, id);
  }

  lemma SameAsIs(s: State, id: Id)
    ensures Same(s, s, id)
  {
  }

  lemma LastStages(e: Engine, ans: Answer, held: set<Id>, failed: set<Id>, t: State, u: State, w: State, id: Id)
    requires LoopLeaves(e, ans, held, t, id) && (failed == {} || failed == held) && t.recvDone == e.s.recvDone && id in e.s.reqs
    requires if id in failed && id in Unfinished(t) then EndedAs(t, u, id, id in ans.delay || R.Loading(t, id)) else Same(t, u, id)
    requires if (id in ans.recv && At(u, id).status != WaitingForRemoteKvs) || id in ans.send then EndedAs(u, w, id, false)
             else Same(u, w, id)
    requires id in ans.recv ==> e.s.reqs[id].status == WaitingForRemoteKvs || IsFinished(e.s.reqs[id].status)
    requires id in ans.send ==> IsFinished(e.s.reqs[id].status)
    requires InFlight(e, id) ==> e.s.reqs[id].status == Running
    ensures if id in Unfinished(e.s) then id in Unfinished(w) || EndedAs(e.s, w, id, StillNeeded(e, Event.Report(ans), id))
            else if id in ans.recv || id in ans.send then EndedAs(e.s, w, id, false)
            else Same(e.s, w, id)
  {
  }

  // ---------------------------------------------------------------------------- other events

  lemma StepKept(c: Config, e: Engine, env: Env, id: Id)
    requires EngineInv(c, e) && Legal(c, e, Event.Step(env)) && id in e.s.reqs
    ensures KeptRight(e, Event.Step(env), Next(c, e, Event.Step(env)), id)
  {
    AtRest(c, e);
    StepParts(c, e, env);
    StepNext(c, e, env);
    var p := SchedulePass(c, env, e.s);
    hide SchedulePass, Next, EngineInv, Legal, Rest, EnvOk, PassOk, AfterSchedule;
    SchedulePassOk(c, env, e.s);
    PassOkParts(c, e.s, p);
    hide Partition, Books;
    if id in Unfinished(e.s) {
      FramedStays(c, e.s, p.s, id);
      AdvancedStays(p, id);
    } else {
      FinishedUntouched(c, env, e.s, id);
      FramedStays(c, e.s, p.s, id);
      NotScheduled(c, Tokens(c, e.s), p, id);
    }
  }

  lemma FramedStays(c: Config, s: State, t: State, id: Id)
    requires Framed(c, s, t) && id in s.reqs
    ensures id in t.reqs && (id in Unfinished(t) <==> id in Unfinished(s))
  {
    assert id in t.reqs.Keys && Touched(c, s.reqs[id], t.reqs[id]);
  }

  lemma AdvancedStays(p: Pass, id: Id)
    ensures id in Unfinished(p.s) ==> id in Unfinished(AfterSchedule(p.s, p.order, p.num, p.specs))
  {
    hide WriteKv;
  }

  lemma NotScheduled(c: Config, total: int, p: Pass, id: Id)
    requires Partition(p.s, []) && Books(c, total, p) && id !in Unfinished(p.s)
    ensures Same(p.s, AfterSchedule(p.s, p.order, p.num, p.specs), id)
  {
    RunningKnown(p.s, id);
    assert id !in p.num;
    hide WriteKv;
  }

  lemma {:induction false} ResetKept(s: State, id: Id)
    requires Partition(s, [])
    ensures if id in Unfinished(s) then id in Unfinished(PreemptAll(s)) else Same(s, PreemptAll(s), id)
    decreases |s.running|
  {
    if s.running != [] {
      var n := |s.running| - 1;
      var x := s.running[n];
      assert RemoveAt(s.running, n) == s.running[..n];
      RunningKnown(s, x);
      PreemptKeeps(s, n, []);
      PreemptShortens(s);
      var t := Preempt(s.(running := s.running[..n]), x);
      hide Partition;
      assert if id in Unfinished(s) then id in Unfinished(t) else Same(s, t, id);
      hide Preempt;
      ResetKept(t, id);
    }
  }

  lemma AddKept(s: State, x: Id, v: View, late: set<Id>, id: Id)
    requires id in s.reqs && (if x in s.reqs then !IsFinished(s.reqs[x].status) else !IsFinished(v.status))
    ensures var t := AddRequest(s, x, v, late);
      if id in Unfinished(s) then id in Unfinished(t) || EndedAs(s, t, id, id in late) else Same(s, t, id)
  {
    FinishKept(s, {x}, FinishedAborted, late, id);
    hide FinishRequests;
  }

  lemma DraftKept(s: State, drafts: map<Id, seq<Token>>, id: Id)
    requires id in s.reqs
    ensures var t := UpdateDrafts(s, drafts); if id in Unfinished(s) then id in Unfinished(t) else Same(s, t, id)
  {
  }

  lemma NextKept(c: Config, e: Engine, ev: Event, id: Id)
    requires EngineInv(c, e) && Legal(c, e, ev) && id in e.s.reqs
    ensures KeptRight(e, ev, Next(c, e, ev), id)
  {
    match ev {
      case Step(env) =>
        StepKept(c, e, env, id);
        hide EngineInv, Legal, Schedule, SchedulePass, KeptRight;
      case Report(ans) =>
        ReportKept(c, e, ans, id);
        hide EngineInv, Legal, UpdateFromOutput, KeptRight;
      case Abort(ids, st, late) =>
        FinishKept(e.s, ids, st, late, id);
        hide EngineInv, FinishRequests;
      case Add(x, v, late) =>
        hide EngineInv, AddRequest;
        AddKept(e.s, x, v, late, id);
      case Draft(drafts) =>
        hide EngineInv, Legal;
        DraftKept(e.s, drafts, id);
        hide UpdateDrafts;
      case Reset(running) =>
        InvParts(c, e);
        hide EngineInv, PreemptAll, Partition;
        ResetKept(e.s, id);
      case SetPause(pause) => hide EngineInv;
    }
  }

  /** In every run: who is known, and whose blocks are held, after each event. */
  lemma KeptWhileNeeded(c: Config, run: seq<Event>, ev: Event, id: Id)
    requires LegalRun(c, INITIAL, run) && Legal(c, After(c, INITIAL, run), ev) && id in After(c, INITIAL, run).s.reqs
    ensures var e := After(c, INITIAL, run); KeptRight(e, ev, Next(c, e, ev), id)
  {
    hide EngineInv, LegalRun, After, Legal, Next, KeptRight;
    InitialInv(c);
    RunKeepsInv(c, INITIAL, run);
    NextKept(c, After(c, INITIAL, run), ev, id);
  }
}
