/** A bound on the steps for which a request can be unfinished. */
module Termination {
  import opened Seqs
  import opened Arithmetic
  import opened Requests
  import opened SchedulerSpec
  import opened QueuePartition
  import opened Frames
  import opened Accounting
  import opened Planning
  import opened Admission
  import opened ScheduleStep
  import opened Engine
  import opened EngineStep
  import opened Receiving
  import opened Reporting
  import opened Finishing
  import opened Interventions
  import opened ReportStep
  import opened Delivery
  import opened ArrivalOrder
  import opened Progress
  import opened Holders

  // ---------------------------------------------------------------------- the measure

  /** (max_model_len - num_tokens, num_tokens - num_computed_tokens), as one number. */
  function Todo(c: Config, v: View): int {
    Max(0, c.maxModelLen - |v.all|) * (c.maxModelLen + 1) + Max(0, |v.all| - v.computed)
  }

  function Bound(c: Config): int { (c.maxModelLen + 1) * (c.maxModelLen + 1) }

  lemma TodoBounds(c: Config, v: View)
    requires 0 < |v.all| < c.maxModelLen && v.computed >= 0
    ensures 0 <= Todo(c, v) < Bound(c)
  {
    var m := c.maxModelLen;
    NonNegative(m - |v.all|, m + 1);
    Below(m - |v.all|, m + 1, m + 1);
  }

  /** Generating tokens counts for more than recomputing any number of them. */
  lemma TodoShrinks(c: Config, v: View, w: View)
    requires |v.all| < |w.all| < c.maxModelLen && w.computed >= 0
    ensures |w.all| - w.computed <= 1 ==> Todo(c, w) < Todo(c, v)
  {
    var m := c.maxModelLen;
    Below(m - |w.all|, m - |v.all|, m + 1);
  }

  lemma ComputingShrinks(c: Config, v: View, w: View)
    requires w.all == v.all && v.computed < |v.all| && v.computed < w.computed
    ensures Todo(c, w) < Todo(c, v)
  {
  }

  /** What a report does to the measure of a request in flight that goes on. */
  lemma ReceivingShrinks(c: Config, v: View, n: int, d: seq<Token>, gen: seq<Token>, rejected: bool)
    requires Flying(c, v, n, d) && TokensOk(v, d, gen)
    ensures var r := Receive(c, v, d, gen, rejected);
      !r.stopped ==> if gen == [] then Todo(c, r.v) == Todo(c, v) else Todo(c, r.v) < Todo(c, v)
  {
    var r := Receive(c, v, d, gen, rejected);
    if !r.stopped {
      ReconcileFacts(c, v, n, d, gen);
      ReceiveShape(c, v, d, gen, rejected);
      if gen == [] {
        ExtendNothing(v);
      } else {
        NotLastToken(Reconcile(v, d, gen), gen, c.maxModelLen);
        hide Todo;
        TodoShrinks(c, v, r.v);
      }
    }
  }

  // ----------------------------------------------------------------- places in the line

  /** How many are ahead of `id`. */
  function Place(line: seq<Id>, id: Id): nat {
    if line == [] || line[0] == id then 0 else 1 + Place(line[1..], id)
  }

  lemma {:induction false} PlaceWithout(line: seq<Id>, gone: set<Id>, id: Id)
    requires id in line && id !in gone
    ensures var rest := Without(line, gone);
            && id in rest
            && Place(rest, id) <= Place(line, id)
            && (line[0] in gone ==> Place(rest, id) < Place(line, id))
            && (line[0] !in gone ==> rest[0] == line[0])
  {
    if line[0] != id {
      PlaceWithout(line[1..], gone, id);
      if line[0] !in gone {
        assert Without(line, gone)[1..] == Without(line[1..], gone);
      }
    }
  }

  lemma {:induction false} PlaceAppend(line: seq<Id>, x: Id, id: Id)
    requires id in line
    ensures Place(line + [x], id) == Place(line, id)
  {
    if line[0] != id {
      assert (line + [x])[1..] == line[1..] + [x];
      PlaceAppend(line[1..], x, id);
    }
  }

  /** Steps that `id` may still see: a whole request for each one ahead, and what the first has left. */
  function Remaining(c: Config, s: State, id: Id): int
    requires Line(s) != []
  {
    Place(Line(s), id) * Bound(c) + Todo(c, At(s, Line(s)[0]))
  }

  /** When nobody joins in front, the measure cannot grow: a new head costs less than the one it replaces. */
  lemma {:induction false} RemainingShrinks(c: Config, s: State, t: State, gone: set<Id>, id: Id, drop: int)
    requires Line(t) == Without(Line(s), gone) && id in Line(s) && id !in gone
    requires Line(t) != [] ==> 0 <= Todo(c, At(t, Line(t)[0])) < Bound(c)
    requires 0 <= Todo(c, At(s, Line(s)[0])) && 0 <= drop <= 1
    requires Line(s)[0] !in gone ==> Todo(c, At(t, Line(s)[0])) <= Todo(c, At(s, Line(s)[0])) - drop
    ensures id in Line(t) && Remaining(c, t, id) <= Remaining(c, s, id) - drop
  {
    PlaceWithout(Line(s), gone, id);
    var a, b := Place(Line(t), id), Place(Line(s), id);
    hide Place, Todo, Without, At;
    if Line(s)[0] in gone {
      Below(a, b, Bound(c));
    } else if a < b {
      Below(a, b, Bound(c));
    }
  }

  // ------------------------------------------------------------------ states of interest

  /** What is known of every state that a plain run reaches. */
  ghost predicate Good(c: Config, e: Engine) {
    && EngineInv(c, e) && AllFaithful(e.seen, e.s, e.log)
    && InOrder(e.arrivals, e.s) && Arrived(e) && HoldersRun(e.s)
  }

  ghost predicate CalmEvent(ev: Event) {
    match ev
    case Step(env) => FitsAlone(env)
    case Reset(running) => !running
    case SetPause(pause) => pause.Unpaused?
    case _ => PlainEvent(ev)
  }

  lemma {:induction false} GoodRun(c: Config, run: seq<Event>)
    requires Plain(c) && PlainRun(run) && LegalRun(c, INITIAL, run)
    ensures Good(c, After(c, INITIAL, run))
  {
    hide EngineInv, AllFaithful, InOrder, Arrived, HoldersRun;
    InitialInv(c);
    RunKeepsInv(c, INITIAL, run);
    ExactlyOnceDelivery(c, run);
    ArrivalOrderKept(c, run);
    HoldersAreRunning(c, run);
  }

  lemma CalmIsPlain(ev: Event)
    requires CalmEvent(ev)
    ensures PlainEvent(ev)
  {
  }

  lemma GoodNext(c: Config, e: Engine, ev: Event)
    requires Plain(c) && Good(c, e) && CalmEvent(ev) && Legal(c, e, ev)
    ensures Good(c, Next(c, e, ev))
  {
    CalmIsPlain(ev);
    hide EngineInv, AllFaithful, InOrder, Arrived, HoldersRun, Next, Legal, CalmEvent;
    NextKeepsInv(c, e, ev);
    NextFaith(c, e, ev);
    NextOrder(c, e, ev);
    NextHolders(c, e, ev);
  }

  lemma LineMembers(c: Config, e: Engine, id: Id)
    requires Good(c, e)
    ensures id in Line(e.s) <==> id in Unfinished(e.s)
    ensures id in Line(e.s) ==> 0 <= Todo(c, At(e.s, id)) < Bound(c)
  {
    InvParts(c, e);
    Member(e.s, [], id);
    if id in Unfinished(e.s) {
      assert RequestOk(c, e, id);
      hide EngineInv, Partition, RequestOk;
      TodoBounds(c, At(e.s, id));
    }
  }

  // --------------------------------------------------------------- the step makes progress

  /** Whoever still runs has computed what it had. */
  ghost predicate RunningSame(s: State, p: Pass) {
    forall id {:trigger id in p.s.running} :: id in p.s.running ==> At(p.s, id).computed == At(s, id).computed
  }

  lemma VictimSame(c: Config, s: State, p: Pass)
    requires Partition(p.s, []) && RunningSame(s, p) && p.s.running != []
    ensures RunningSame(s, PreemptVictim(c, p))
  {
    VictimLeaves(c, p);
    PreemptVictimOthers(c, p);
    hide Partition, PreemptVictim, VictimIndex;
  }

  lemma {:induction false} MakeRoomSame(c: Config, env: Env, s: State, p: Pass, id: Id, tokens: int)
    requires Partition(p.s, []) && RunningSame(s, p)
    ensures RunningSame(s, MakeRoom(c, env, p, id, tokens).p)
    decreases |p.s.running|
  {
    hide RunningSame, Partition;
    if SlotAsk(p.s.kv.Keys, id, tokens) in env.refused && p.s.running != [] {
      VictimSame(c, s, p);
      PreemptVictimKeeps(c, p, []);
      VictimCount(c, p);
      hide PreemptVictim, VictimIndex;
      if p.s.running[VictimIndex(c, p.s)] != id {
        MakeRoomSame(c, env, s, PreemptVictim(c, p), id, tokens);
      }
    }
  }

  lemma RunningStepSame(c: Config, env: Env, s: State, p: Pass)
    requires Partition(p.s, []) && RunningSame(s, p) && !RunningDone(p)
    ensures RunningSame(s, RunningStep(c, env, p))
  {
    hide MakeRoom, RunningPlan, Partition;
    var id := p.s.running[p.idx];
    MakeRoomSame(c, env, s, p, id, At(p.s, id).computed + RunningPlan(c, env, p, id).n + c.lookahead);
  }

  lemma {:induction false} RunningLoopSame(c: Config, env: Env, s: State, p: Pass)
    requires Partition(p.s, []) && RunningSame(s, p)
    ensures RunningSame(s, RunningLoop(c, env, p))
    decreases !p.stop, |p.s.running| - p.idx
  {
    if !RunningDone(p) {
      hide RunningSame, RunningStep, RunningDone, Partition;
      RunningStepSame(c, env, s, p);
      RunningStepKeeps(c, env, p);
      RunningStepDecreases(c, env, p);
      RunningLoopSame(c, env, s, RunningStep(c, env, p));
    }
  }

  /** Nobody computed less. */
  ghost predicate NoLess(s: State, p: Pass) {
    forall id {:trigger At(p.s, id)} {:trigger At(s, id)} :: At(p.s, id).computed >= At(s, id).computed
  }

  lemma WaitingStepNoLess(c: Config, env: Env, s: State, p: Pass)
    requires Plain(c) && NoLess(s, p) && Partition(p.s, []) && p.s.skipped == [] && !WaitingDone(c, p)
    ensures NoLess(s, WaitingStep(c, env, p))
  {
    HeadIsDecided(c, env, p);
    ConsideredNoLess(c, env, p, p.s.waiting[0]);
    hide Consider, Partition, Peek;
    var ch := Consider(c, env, p, p.s.waiting[0]);
    PopOnlyQueues(c, p.s, ch.s);
    hide Pop;
  }

  lemma ConsideredNoLess(c: Config, env: Env, p: Pass, id: Id)
    requires Plain(c)
    ensures var ch := Consider(c, env, p, id); ch.Admit? ==> ch.computed >= At(ch.s, id).computed
  {
    hide WaitingPlan, Granted, Promote;
  }

  lemma {:induction false} WaitingLoopNoLess(c: Config, env: Env, s: State, p: Pass, line: seq<Id>)
    requires Plain(c) && NoLess(s, p) && Partition(p.s, p.stepSkipped) && InLine(line, p)
    ensures NoLess(s, WaitingLoop(c, env, p))
    decreases !p.stop, |p.s.waiting| + |p.s.skipped|
  {
    if !WaitingDone(c, p) {
      WaitingStepNoLess(c, env, s, p);
      WaitingStepLine(c, env, p, line);
      WaitingStepKeeps(c, env, p);
      hide WaitingStep, InLine, Partition, NoLess;
      WaitingLoopNoLess(c, env, s, WaitingStep(c, env, p), line);
    }
  }

  lemma QuietNoLess(s: State, p: Pass, q: Pass)
    requires Quiet(s, p) && p.preempted == [] && q.s == p.s
    ensures NoLess(s, q)
  {
  }

  lemma RequeueNoLess(s: State, p: Pass)
    requires NoLess(s, p)
    ensures NoLess(s, Requeue(p))
  {
    hide Reverse;
  }

  lemma StillRunning(c: Config, total: int, s: State, p: Pass, id: Id)
    requires Books(c, total, p) && RunningSame(s, p) && id in p.order
    ensures At(p.s, id).computed >= At(s, id).computed
  {
  }

  lemma ScheduledNoLess(c: Config, env: Env, s: State, id: Id)
    requires Plain(c) && Rest(c, s) && EnvOk(env, s) && s.skipped == []
    requires id in SchedulePass(c, env, s).order
    ensures At(SchedulePass(c, env, s).s, id).computed >= At(s, id).computed
  {
    hide TailPreempted, InLine, Rest, RunningLoop, WaitingLoop, Partition, EnvOk, RunningInv, Quiet, Framed, PrevOk, Start,
         RunningSame, NoLess, Requeue, PassOk, Books, At;
    RestParts(c, s);
    var p := RunningLoop(c, env, Start(c, s));
    FirstLoop(c, env, s);
    FirstLoopParts(c, env, s, p);
    if p.preempted == [] {
      var q := SecondStart(c, p);
      SecondStartFacts(c, p);
      QuietNoLess(s, p, q);
      StartTail(c, s);
      RunningLoopTail(c, env, s, Start(c, s));
      TailLine(s, p);
      LineMade(s, q);
      WaitingLoopNoLess(c, env, s, q, Line(s));
      RequeueNoLess(s, WaitingLoop(c, env, q));
      NoLessAt(s, Requeue(WaitingLoop(c, env, q)), id);
    } else {
      SameAtStart(c, s);
      RunningLoopSame(c, env, s, Start(c, s));
      FirstLoopBooks(c, env, s, p);
      StillRunning(c, Tokens(c, s), s, p, id);
    }
  }

  lemma NoLessAt(s: State, p: Pass, id: Id)
    requires NoLess(s, p)
    ensures At(p.s, id).computed >= At(s, id).computed
  {
  }

  lemma SameAtStart(c: Config, s: State)
    ensures RunningSame(s, Start(c, s))
  {
  }

  lemma FirstLoopBooks(c: Config, env: Env, s: State, p: Pass)
    requires RunningInv(c, env, Tokens(c, s), p)
    ensures Books(c, Tokens(c, s), p)
  {
  }

  lemma FramedAll(c: Config, s: State, t: State, id: Id)
    requires Framed(c, s, t) && id in s.reqs
    ensures id in t.reqs && At(t, id).all == At(s, id).all
  {
    assert id in t.reqs.Keys && Touched(c, s.reqs[id], t.reqs[id]);
  }

  lemma HeadReady(c: Config, e: Engine, id: Id)
    requires Plain(c) && EngineInv(c, e) && e.pending.None? && id in Unfinished(e.s)
    ensures At(e.s, id).computed < |At(e.s, id).all|
  {
    assert RequestOk(c, e, id);
  }

  /** What was scheduled has more computed after `_update_after_schedule`. */
  lemma AdvancedFurther(c: Config, total: int, p: Pass, id: Id)
    requires Books(c, total, p) && AllPlanned(p) && AllReady(c, p.s) && id in p.order
    ensures var t := AfterSchedule(p.s, p.order, p.num, p.specs);
      At(t, id).computed > At(p.s, id).computed && At(t, id).all == At(p.s, id).all
  {
    AfterScheduleViews(c, p, total);
    hide AfterSchedule, Flying, AllPlanned, AllReady;
  }

  lemma StepShrinks(c: Config, e: Engine, env: Env)
    requires Steady(c) && Good(c, e) && Legal(c, e, Event.Step(env)) && FitsAlone(env) && e.s.pause.Unpaused? && Line(e.s) != []
    ensures var t, id := Next(c, e, Event.Step(env)).s, Line(e.s)[0];
      Todo(c, At(t, id)) < Todo(c, At(e.s, id))
    ensures Line(Next(c, e, Event.Step(env)).s) == Line(e.s)
  {
    GoodParts(c, e);
    AtRest(c, e);
    StepParts(c, e, env);
    StepNext(c, e, env);
    NoSkipped(e.arrivals, e.s);
    var p, id := SchedulePass(c, env, e.s), Line(e.s)[0];
    hide SchedulePass, Next, EngineInv, Legal, Rest, EnvOk, PassOk, Books, AfterSchedule, Framed, AllPlanned,
         Partition, AllReady, AllKv, Good, InOrder, Arrived, HoldersRun, FitsAlone, InLine, At, Todo, TailPreempted;
    SchedulePassOk(c, env, e.s);
    PassOkParts(c, e.s, p);
    PassLine(c, env, e.s);
    InLineFacts(Line(e.s), p);
    AfterScheduleQueues(c, p);
    OldestIsScheduled(c, env, e.s);
    ScheduledNoLess(c, env, e.s, id);
    AdvancedFurther(c, Tokens(c, e.s), p, id);
    LineMembers(c, e, id);
    HeadReady(c, e, id);
    FramedAll(c, e.s, p.s, id);
    ComputingShrinks(c, At(e.s, id), At(AfterSchedule(p.s, p.order, p.num, p.specs), id));
  }

  lemma InLineFacts(line: seq<Id>, p: Pass)
    requires InLine(line, p)
    ensures Line(p.s) == line
  {
  }

  lemma GoodParts(c: Config, e: Engine)
    requires Good(c, e)
    ensures EngineInv(c, e) && AllFaithful(e.seen, e.s, e.log) && InOrder(e.arrivals, e.s) && Arrived(e) && HoldersRun(e.s)
  {
  }

  // -------------------------------------------------------------- what a report changes

  /** An unfinished request got its tokens once it was looked at, and is as before otherwise. */
  ghost predicate Followed(c: Config, out: Output, ans: Answer, s: State, t: State, done: seq<Id>, id: Id) {
    id in t.reqs && !IsFinished(t.reqs[id].status) ==>
      && id in s.reqs && !IsFinished(s.reqs[id].status)
      && var r := Receive(c, s.reqs[id], Drafts(out.specs, id), TokensFor(ans, id), id in ans.rejected);
         if id in done then !r.stopped && t.reqs[id] == r.v else t.reqs[id] == s.reqs[id]
  }

  lemma UpdateStepFollowed(c: Config, out: Output, ans: Answer, done: seq<Id>, s: State, a: Acc, x: Id, id: Id)
    requires MidInv(c, out, {}, done, a) && x in out.order && x !in done
    requires id in a.s.reqs ==> !a.s.reqs[id].resumable
    requires Followed(c, out, ans, s, a.s, done, id)
    ensures Followed(c, out, ans, s, UpdateOne(c, out, ans, {}, a, x).s, done + [x], id)
  {
    hide UpdateOne, Receive, MidInv, Drafts, TokensFor, Extend, Reconcile;
    if x !in a.s.reqs || IsFinished(a.s.reqs[x].status) {
      UpdateOneNothing(c, out, ans, {}, a, x);
    } else {
      BusyRuns(c, out, {}, done, a, x);
      UpdateOneText(c, out, ans, {}, a, x);
    }
  }

  lemma {:induction false} UpdateAllFollowed(c: Config, out: Output, ans: Answer, a: Acc, n: nat, id: Id)
    requires NoDup(out.order) && n <= |out.order|
    requires MidInv(c, out, {}, [], a) && ReportsOk(c, out, ans, {}, [], a.s)
    requires forall x :: x in a.s.reqs ==> !a.s.reqs[x].resumable
    ensures var b := UpdateAll(c, out, ans, {}, a, out.order[..n]);
            && Followed(c, out, ans, a.s, b.s, out.order[..n], id)
            && b.s.pause == a.s.pause
            && forall x :: x in b.s.reqs ==> !b.s.reqs[x].resumable
  {
    hide MidInv, ReportsOk, UpdateOne, Followed;
    if n > 0 {
      UpdateAllFollowed(c, out, ans, a, n - 1, id);
      UpdateAllInv(c, out, ans, {}, a, n - 1);
      NextInOrder(out.order, n - 1);
      var ids := out.order[..n];
      assert ids[..n - 1] == out.order[..n - 1] && ids[n - 1] == out.order[n - 1];
      var b := UpdateAll(c, out, ans, {}, a, out.order[..n - 1]);
      UpdateStepFollowed(c, out, ans, out.order[..n - 1], a.s, b, out.order[n - 1], id);
      UpdateOneKeepsPlain(c, out, ans, {}, out.order[..n - 1], b, out.order[n - 1]);
      UpdateOnePause(c, out, ans, {}, b, out.order[n - 1]);
    } else {
      assert out.order[..0] == [];
      NotYet(c, out, ans, a.s, id);
    }
  }

  lemma NotYet(c: Config, out: Output, ans: Answer, s: State, id: Id)
    ensures Followed(c, out, ans, s, s, [], id)
  {
  }

  lemma UpdateOnePause(c: Config, out: Output, ans: Answer, failed: set<Id>, a: Acc, id: Id)
    ensures UpdateOne(c, out, ans, failed, a, id).s.pause == a.s.pause
  {
    hide Receive;
  }

  lemma ReportFollows(c: Config, e: Engine, ans: Answer, id: Id)
    requires Plain(c) && Good(c, e) && Legal(c, e, Event.Report(ans))
    ensures e.pending.Some?
    ensures var t := Next(c, e, Event.Report(ans)).s;
      Followed(c, e.pending.value, ans, e.s, t, e.pending.value.order, id) && t.pause == e.s.pause
  {
    hide EngineInv, UpdateAll, MidInv, ReportsOk, Settled, Next, TransfersFinished, HoldersRun, Legal, Arrived, Good, Followed,
         InOrder, AllFaithful;
    GoodParts(c, e);
    PlainReportShape(c, e, ans);
    var out := e.pending.value;
    var a := Acc(e.s, {}, {}, []);
    SettledAtFirst(e, a);
    assert out.order[..|out.order|] == out.order;
    UpdateAllFollowed(c, out, ans, a, |out.order|, id);
    var b := UpdateAll(c, out, ans, {}, a, out.order);
    TransfersNothing(Settled(b));
    FollowedSettled(c, out, ans, e.s, b, id);
  }

  lemma FollowedSettled(c: Config, out: Output, ans: Answer, s: State, a: Acc, id: Id)
    requires Followed(c, out, ans, s, a.s, out.order, id)
    ensures Followed(c, out, ans, s, Settled(a), out.order, id) && Settled(a).pause == a.s.pause
  {
    hide Receive, Without;
  }

  lemma FlyingAnswered(c: Config, e: Engine, ans: Answer, id: Id)
    requires EngineInv(c, e) && Legal(c, e, Event.Report(ans)) && id in e.pending.value.order && id in Unfinished(e.s)
    ensures var out := e.pending.value;
            var d := Drafts(out.specs, id);
            Flying(c, e.s.reqs[id], Get(out.num, id), d) && TokensOk(e.s.reqs[id], d, TokensFor(ans, id))
  {
    assert RequestOk(c, e, id) && InFlight(e, id);
  }

  lemma ReportShrinks(c: Config, e: Engine, ans: Answer, id: Id)
    requires Plain(c) && Good(c, e) && Legal(c, e, Event.Report(ans))
    ensures var t := Next(c, e, Event.Report(ans)).s;
            && (id in Unfinished(t) ==> id in Unfinished(e.s) && Todo(c, At(t, id)) <= Todo(c, At(e.s, id)))
            && t.pause == e.s.pause
  {
    hide EngineInv, Next, Legal, Good, Todo, Receive, Drafts, TokensFor, Flying, TokensOk, Get;
    GoodParts(c, e);
    ReportFollows(c, e, ans, id);
    var t, out := Next(c, e, Event.Report(ans)).s, e.pending.value;
    if id in Unfinished(t) && id in out.order {
      FlyingAnswered(c, e, ans, id);
      ReceivingShrinks(c, e.s.reqs[id], Get(out.num, id), Drafts(out.specs, id), TokensFor(ans, id), id in ans.rejected);
    }
  }

  // --------------------------------------------------------------------- every event

  /** With the same arrivals, fewer unfinished requests and no more to do for the first. */
  lemma SameArrivals(c: Config, e: Engine, f: Engine, id: Id, drop: int)
    requires Good(c, e) && Good(c, f) && f.arrivals == e.arrivals && 0 <= drop <= 1
    requires Unfinished(f.s) <= Unfinished(e.s) && id in Unfinished(f.s)
    requires Line(e.s) != [] && Line(e.s)[0] in Unfinished(f.s) ==>
      Todo(c, At(f.s, Line(e.s)[0])) <= Todo(c, At(e.s, Line(e.s)[0])) - drop
    ensures Line(e.s) != [] && Line(f.s) != [] && Remaining(c, f.s, id) <= Remaining(c, e.s, id) - drop
  {
    hide EngineInv, AllFaithful, Arrived, HoldersRun, Todo, At, Place, Good, Remaining, Unfinished, Line, Bound;
    GoodParts(c, e);
    GoodParts(c, f);
    LineMembers(c, e, id);
    LineMembers(c, f, id);
    var head := Line(e.s)[0];
    LineMembers(c, e, head);
    if Line(f.s) != [] {
      LineMembers(c, f, Line(f.s)[0]);
    }
    var gone := Unfinished(e.s) - Unfinished(f.s);
    assert Unfinished(f.s) == Unfinished(e.s) - gone;
    OnlyFewer(e.arrivals, Unfinished(e.s), gone);
    RemainingShrinks(c, e.s, f.s, gone, id, drop);
  }

  lemma AbortShrinks(c: Config, s: State, ids: set<Id>, st: Status, late: set<Id>)
    requires IsFinished(st)
    ensures var t := FinishRequests(s, ids, st, late);
            && Unfinished(t) <= Unfinished(s) && t.pause == s.pause
            && forall id :: id in Unfinished(t) ==> At(t, id) == At(s, id)
  {
    FinishViews(s, ids, st, late);
    hide FinishRequests, WithStatus, DelayedFree;
  }

  lemma DraftsSame(c: Config, s: State, drafts: map<Id, seq<Token>>)
    ensures var t := UpdateDrafts(s, drafts);
            && Unfinished(t) == Unfinished(s) && t.pause == s.pause
            && forall id :: id in Unfinished(t) ==> Todo(c, At(t, id)) == Todo(c, At(s, id))
  {
    DraftViews(s, drafts);
    UnfinishedByStatus(s, UpdateDrafts(s, drafts));
    hide UpdateDrafts, WithDrafts;
  }

  lemma AddAppends(c: Config, e: Engine, f: Engine, id: Id, x: Id, v: View)
    requires Good(c, e) && id in Unfinished(e.s) && x !in e.s.reqs && v.status == Waiting
    requires f.s == Enqueue(Put(e.s, x, v), x)
    ensures Line(e.s) != [] && Line(f.s) != [] && Remaining(c, f.s, id) == Remaining(c, e.s, id) && f.s.pause == e.s.pause
  {
    LineMembers(c, e, id);
    LineMembers(c, e, Line(e.s)[0]);
    PlaceAppend(Line(e.s), x, id);
    assert Line(f.s) == Line(e.s) + [x];
    hide Good, Todo, Place;
  }

  ghost function Cost(ev: Event): int { if ev.Step? then 1 else 0 }

  lemma EventShrinks(c: Config, e: Engine, ev: Event, id: Id)
    requires Steady(c) && Good(c, e) && e.s.pause.Unpaused? && CalmEvent(ev) && Legal(c, e, ev)
    requires id in Unfinished(e.s) && id in Unfinished(Next(c, e, ev).s)
    ensures var f := Next(c, e, ev);
            && f.s.pause.Unpaused? && Line(e.s) != [] && Line(f.s) != []
            && Remaining(c, f.s, id) <= Remaining(c, e.s, id) - Cost(ev)
  {
    hide Good, Remaining, Unfinished, Todo, At, Place, Line, Legal, Next, FitsAlone;
    GoodNext(c, e, ev);
    LineMembers(c, e, id);
    match ev {
      case Step(env) =>
        StepShrinks(c, e, env);
        StepSame(c, e, env);
        SameArrivals(c, e, Next(c, e, ev), id, 1);
      case Report(ans) =>
        ReportSame(c, e, ans);
        ReportFewer(c, e, ans);
        ReportShrinks(c, e, ans, Line(e.s)[0]);
        SameArrivals(c, e, Next(c, e, ev), id, 0);
      case _ => OtherEventShrinks(c, e, ev, id);
    }
  }

  lemma OtherEventShrinks(c: Config, e: Engine, ev: Event, id: Id)
    requires Steady(c) && Good(c, e) && Good(c, Next(c, e, ev)) && e.s.pause.Unpaused? && CalmEvent(ev) && Legal(c, e, ev)
    requires id in Unfinished(e.s) && id in Unfinished(Next(c, e, ev).s) && !ev.Step? && !ev.Report? && Line(e.s) != []
    ensures var f := Next(c, e, ev);
      f.s.pause.Unpaused? && Line(f.s) != [] && Remaining(c, f.s, id) <= Remaining(c, e.s, id)
  {
    hide Good, Remaining, Unfinished, Todo, At, Place, Line, FinishRequests, NewRequest;
    match ev {
      case Draft(drafts) =>
        DraftsSame(c, e.s, drafts);
        SameArrivals(c, e, Next(c, e, ev), id, 0);
      case Add(x, v, late) =>
        GoodParts(c, e);
        NewId(c, e, x, v, late);
        AddAppends(c, e, Next(c, e, ev), id, x, v);
      case Abort(ids, st, late) =>
        AbortShrinks(c, e.s, ids, st, late);
        SameArrivals(c, e, Next(c, e, ev), id, 0);
      case Reset(running) =>
      case SetPause(pause) =>
        PausedSame(c, e, pause, id);
      case _ =>
    }
  }

  lemma PausedSame(c: Config, e: Engine, pause: Pause, id: Id)
    requires Line(e.s) != []
    ensures var s := e.s.(pause := pause); Line(s) == Line(e.s) && Remaining(c, s, id) == Remaining(c, e.s, id)
  {
  }

  lemma NewId(c: Config, e: Engine, x: Id, v: View, late: set<Id>)
    requires Arrived(e) && CalmEvent(Event.Add(x, v, late)) && Legal(c, e, Event.Add(x, v, late))
    ensures x !in e.s.reqs && v.status == Waiting
  {
  }

  lemma ReportSame(c: Config, e: Engine, ans: Answer)
    ensures Next(c, e, Event.Report(ans)).arrivals == e.arrivals
  {
    hide UpdateFromOutput;
  }

  lemma ReportFewer(c: Config, e: Engine, ans: Answer)
    requires Plain(c) && Good(c, e) && Legal(c, e, Event.Report(ans))
    ensures Unfinished(Next(c, e, Event.Report(ans)).s) <= Unfinished(e.s)
    ensures Next(c, e, Event.Report(ans)).s.pause == e.s.pause
  {
    var t := Next(c, e, Event.Report(ans)).s;
    ReportShrinks(c, e, ans, 0);
    forall id | id in Unfinished(t) ensures id in Unfinished(e.s) {
      ReportShrinks(c, e, ans, id);
    }
  }

  lemma StepSame(c: Config, e: Engine, env: Env)
    requires Steady(c) && Good(c, e) && Legal(c, e, Event.Step(env))
    ensures var f := Next(c, e, Event.Step(env));
      Unfinished(f.s) == Unfinished(e.s) && f.arrivals == e.arrivals && f.s.pause == e.s.pause
  {
    hide SchedulePass, Next, EngineInv, Legal, Rest, EnvOk, PassOk, Books, AfterSchedule, Framed, AllPlanned, Unfinished,
         Partition, AllReady, AllKv, Good, InOrder, Arrived, HoldersRun;
    GoodParts(c, e);
    StepParts(c, e, env);
    AtRest(c, e);
    StepNext(c, e, env);
    var p := SchedulePass(c, env, e.s);
    SchedulePassOk(c, env, e.s);
    PassOkParts(c, e.s, p);
    FramedUnfinished(c, e.s, p.s);
    FramedPause(c, e.s, p.s);
    AfterScheduleViews(c, p, Tokens(c, e.s));
    UnfinishedByStatus(p.s, AfterSchedule(p.s, p.order, p.num, p.specs));
    AfterSchedulePause(p);
  }

  lemma FramedPause(c: Config, s: State, t: State)
    requires Framed(c, s, t)
    ensures t.pause == s.pause
  {
  }

  lemma AfterSchedulePause(p: Pass)
    ensures AfterSchedule(p.s, p.order, p.num, p.specs).pause == p.s.pause
  {
  }

  // ---------------------------------------------------------------------- whole runs

  ghost predicate CalmRun(run: seq<Event>) {
    forall k :: 0 <= k < |run| ==> CalmEvent(run[k])
  }

  ghost function Steps(run: seq<Event>): int {
    if run == [] then 0 else Steps(run[..|run| - 1]) + Cost(run[|run| - 1])
  }

  /** A request that is gone does not come back. */
  lemma StaysFinished(c: Config, e: Engine, ev: Event, id: Id)
    requires Steady(c) && Good(c, e) && CalmEvent(ev) && Legal(c, e, ev) && id in e.seen
    ensures id in Unfinished(Next(c, e, ev).s) ==> id in Unfinished(e.s)
    ensures id in Next(c, e, ev).seen
  {
    hide Good, Unfinished;
    match ev {
      case Step(env) => hide Next; StepSame(c, e, env); StepSeen(c, e, env);
      case Report(ans) => ReportFewer(c, e, ans); hide UpdateFromOutput;
      case Draft(drafts) => DraftsSame(c, e.s, drafts);
      case Add(x, v, late) =>
        GoodParts(c, e);
        NewId(c, e, x, v, late);
        OnlyNew(e.s, x, v, id);
      case Abort(ids, st, late) => AbortShrinks(c, e.s, ids, st, late); hide FinishRequests;
      case Reset(running) =>
      case SetPause(pause) => PauseUnfinished(e.s, pause);
    }
  }

  lemma StepSeen(c: Config, e: Engine, env: Env)
    ensures Next(c, e, Event.Step(env)).seen == e.seen
  {
    hide SchedulePass, Schedule;
  }

  lemma PauseUnfinished(s: State, pause: Pause)
    ensures Unfinished(s.(pause := pause)) == Unfinished(s)
  {
  }

  lemma OnlyNew(s: State, x: Id, v: View, id: Id)
    ensures id in Unfinished(Enqueue(Put(s, x, v), x)) && id != x ==> id in Unfinished(s)
  {
  }

  lemma {:induction false} RunShrinks(c: Config, e: Engine, run: seq<Event>, id: Id)
    requires Steady(c) && Good(c, e) && e.s.pause.Unpaused? && CalmRun(run) && LegalRun(c, e, run) && id in Unfinished(e.s)
    ensures var f := After(c, e, run);
            && Good(c, f) && id in f.seen
            && (id in Unfinished(f.s) ==>
                  f.s.pause.Unpaused? && Line(e.s) != [] && Line(f.s) != []
                  && Remaining(c, f.s, id) + Steps(run) <= Remaining(c, e.s, id))
  {
    hide Good, Remaining, Unfinished, Legal, Next, Line;
    LineMembers(c, e, id);
    SeenNow(c, e, id);
    if run != [] {
      var front, ev := run[..|run| - 1], run[|run| - 1];
      assert CalmRun(front) && CalmEvent(ev);
      RunShrinks(c, e, front, id);
      var f := After(c, e, front);
      hide CalmEvent, Cost;
      GoodNext(c, f, ev);
      StaysFinished(c, f, ev, id);
      if id in Unfinished(Next(c, f, ev).s) {
        EventShrinks(c, f, ev, id);
      }
    }
  }

  lemma SeenNow(c: Config, e: Engine, id: Id)
    requires Good(c, e) && id in Unfinished(e.s)
    ensures id in e.seen && Line(e.s) != []
  {
    LineMembers(c, e, id);
  }

  /**
   * From any reachable state: a request with `k` requests ahead of it has
   * finished after fewer than (k + 1) * (max_model_len + 1)^2 steps, whatever
   * else arrives, is aborted or gets preempted meanwhile.
   */
  lemma {:induction false} NobodyStarves(c: Config, before: seq<Event>, run: seq<Event>, id: Id)
    requires Steady(c) && PlainRun(before) && LegalRun(c, INITIAL, before)
    requires var e := After(c, INITIAL, before);
      && e.s.pause.Unpaused? && id in Unfinished(e.s) && CalmRun(run) && LegalRun(c, e, run)
      && Steps(run) >= (Place(Line(e.s), id) + 1) * Bound(c)
    ensures id !in Unfinished(After(c, After(c, INITIAL, before), run).s)
  {
    hide Good, Unfinished, Line, LegalRun, After, Todo, Place, Steps, Bound;
    var e := After(c, INITIAL, before);
    GoodRun(c, before);
    RunShrinks(c, e, run, id);
    var f := After(c, e, run);
    if id in Unfinished(f.s) {
      RemainingBounds(c, e, id);
      RemainingBounds(c, f, id);
    }
  }

  lemma {:induction false} RemainingBounds(c: Config, e: Engine, id: Id)
    requires Good(c, e) && Line(e.s) != []
    ensures 0 <= Remaining(c, e.s, id) < (Place(Line(e.s), id) + 1) * Bound(c)
  {
    hide Good, Todo, Place;
    LineMembers(c, e, Line(e.s)[0]);
    NonNegative(Place(Line(e.s), id), Bound(c));
  }
}
