/**
 * With FCFS, and nobody blocked, streaming or held back by LoRA limits, the
 * running requests followed by the waiting ones are the unfinished requests in
 * the order in which they arrived.
 */
module ArrivalOrder {
  import opened Seqs
  import opened Requests
  import opened SchedulerSpec
  import opened QueuePartition
  import opened Frames
  import opened Accounting
  import opened Planning
  import opened Admission
  import opened ScheduleStep
  import opened Engine
  import opened EngineStep
  import opened Receiving
  import opened Reporting
  import opened Recovering
  import opened Finishing
  import opened Interventions
  import opened ReportStep
  import opened Delivery

  /** The elements of `s` that are in `keep`, in order. */
  function Only<T(==)>(s: seq<T>, keep: set<T>): seq<T> {
    if s == [] then []
    else Only(s[..|s| - 1], keep) + (if s[|s| - 1] in keep then [s[|s| - 1]] else [])
  }

  lemma {:induction false} OnlyMembers<T>(s: seq<T>, keep: set<T>)
    ensures forall x :: x in Only(s, keep) <==> x in s && x in keep
  {
    if s != [] {
      OnlyMembers(s[..|s| - 1], keep);
      assert s == s[..|s| - 1] + [s[|s| - 1]];
    }
  }

  lemma {:induction false} OnlySame<T>(s: seq<T>, a: set<T>, b: set<T>)
    requires forall x :: x in s ==> (x in a <==> x in b)
    ensures Only(s, a) == Only(s, b)
  {
    if s != [] {
      OnlySame(s[..|s| - 1], a, b);
    }
  }

  lemma {:induction false} OnlyFewer<T>(s: seq<T>, keep: set<T>, gone: set<T>)
    ensures Only(s, keep - gone) == Without(Only(s, keep), gone)
  {
    if s != [] {
      var n := |s| - 1;
      OnlyFewer(s[..n], keep, gone);
      var tail := if s[n] in keep then [s[n]] else [];
      WithoutConcat(Only(s[..n], keep), tail, gone);
    }
  }

  /** `a` comes before `b` in `s`. */
  ghost predicate Earlier<T(!new)>(s: seq<T>, a: T, b: T) {
    exists i, j :: 0 <= i < j < |s| && s[i] == a && s[j] == b
  }

  lemma {:induction false} OnlyKeepsOrder<T(!new)>(s: seq<T>, keep: set<T>, i: nat, j: nat)
    requires i < j < |Only(s, keep)|
    ensures Earlier(s, Only(s, keep)[i], Only(s, keep)[j])
  {
    var n := |s| - 1;
    var front := Only(s[..n], keep);
    if j < |front| {
      OnlyKeepsOrder(s[..n], keep, i, j);
      var k, l :| 0 <= k < l < n && s[..n][k] == front[i] && s[..n][l] == front[j];
      assert s[k] == front[i] && s[l] == front[j];
    } else {
      OnlyMembers(s[..n], keep);
      assert front[i] in s[..n];
      var k :| 0 <= k < n && s[..n][k] == front[i];
      assert s[k] == front[i] && s[n] == Only(s, keep)[j];
    }
  }

  // ----------------------------------------------------------------------- first loop

  lemma {:induction false} ReverseSnoc<T>(s: seq<T>, x: T)
    ensures Reverse(s + [x]) == [x] + Reverse(s)
  {
    if s == [] {
      assert s + [x] == [x];
      assert Reverse([x][1..]) == [];
    } else {
      assert (s + [x])[1..] == s[1..] + [x];
      ReverseSnoc(s[1..], x);
    }
  }

  /** The victims are the tail of what was running, last first, and now wait in front of everybody else. */
  ghost predicate TailPreempted(s: State, p: Pass) {
    && s.running == p.s.running + Reverse(p.preempted)
    && p.s.waiting == Reverse(p.preempted) + s.waiting
    && p.s.skipped == s.skipped
  }

  lemma VictimIsLast(c: Config, s: State, p: Pass)
    requires !c.priority && TailPreempted(s, p) && p.s.running != []
    ensures TailPreempted(s, PreemptVictim(c, p))
  {
    var n := |p.s.running| - 1;
    var id := p.s.running[n];
    var q := PreemptVictim(c, p);
    assert RemoveAt(p.s.running, n) == p.s.running[..n];
    ReverseSnoc(p.preempted, id);
    assert q.s.running + ([id] + Reverse(p.preempted)) == p.s.running + Reverse(p.preempted);
    assert [id] + (Reverse(p.preempted) + s.waiting) == ([id] + Reverse(p.preempted)) + s.waiting;
  }

  lemma {:induction false} MakeRoomTail(c: Config, env: Env, s: State, p: Pass, id: Id, tokens: int)
    requires !c.priority && TailPreempted(s, p)
    ensures TailPreempted(s, MakeRoom(c, env, p, id, tokens).p)
    decreases |p.s.running|
  {
    hide TailPreempted;
    if SlotAsk(p.s.kv.Keys, id, tokens) in env.refused && p.s.running != [] {
      VictimIsLast(c, s, p);
      VictimCount(c, p);
      hide PreemptVictim, VictimIndex;
      if p.s.running[VictimIndex(c, p.s)] != id {
        MakeRoomTail(c, env, s, PreemptVictim(c, p), id, tokens);
      }
    }
  }

  lemma RunningStepTail(c: Config, env: Env, s: State, p: Pass)
    requires !c.priority && TailPreempted(s, p) && !RunningDone(p)
    ensures TailPreempted(s, RunningStep(c, env, p))
  {
    hide MakeRoom, RunningPlan, Reverse;
    var id := p.s.running[p.idx];
    MakeRoomTail(c, env, s, p, id, At(p.s, id).computed + RunningPlan(c, env, p, id).n + c.lookahead);
  }

  lemma {:induction false} RunningLoopTail(c: Config, env: Env, s: State, p: Pass)
    requires !c.priority && TailPreempted(s, p)
    ensures TailPreempted(s, RunningLoop(c, env, p))
    decreases !p.stop, |p.s.running| - p.idx
  {
    if !RunningDone(p) {
      hide TailPreempted, RunningStep, RunningDone;
      RunningStepTail(c, env, s, p);
      RunningStepDecreases(c, env, p);
      RunningLoopTail(c, env, s, RunningStep(c, env, p));
    }
  }

  lemma StartTail(c: Config, s: State)
    ensures TailPreempted(s, Start(c, s))
  {
  }

  // ---------------------------------------------------------------------- second loop

  /** The line of unfinished requests: those running, then those waiting. */
  function Line(s: State): seq<Id> { s.running + s.waiting }

  ghost predicate InLine(line: seq<Id>, p: Pass) {
    Line(p.s) == line && p.s.skipped == [] && p.stepSkipped == []
  }

  predicate Plain(c: Config) { !c.priority && !c.lora && !c.connector }

  /** Nobody is passed over. */
  lemma HeadIsDecided(c: Config, env: Env, p: Pass)
    requires Plain(c) && Partition(p.s, []) && p.s.skipped == [] && p.s.waiting != []
    ensures var id := Peek(c, p.s);
            var ch := Consider(c, env, p, id);
            id == p.s.waiting[0] && ch.s == p.s && (ch.Halt? || ch.Admit?)
  {
    var id := p.s.waiting[0];
    assert id in p.s.waiting;
    hide WaitingPlan, Granted, Partition;
  }

  lemma AdmitFirst(c: Config, p: Pass, line: seq<Id>, ch: Choice)
    requires Plain(c) && InLine(line, p) && p.s.waiting != [] && ch.s == p.s && ch.Admit?
    ensures InLine(line, Apply(c, p, p.s.waiting[0], ch))
  {
    hide StartKv, Pop;
    FrontPops(c, p.s);
    FrontMoves(p.s.running, p.s.waiting);
  }

  lemma FrontPops(c: Config, s: State)
    requires !c.priority && s.skipped == [] && s.waiting != []
    ensures Pop(c, s, s) == s.(waiting := s.waiting[1..])
  {
    assert RemoveAt(s.waiting, 0) == s.waiting[1..];
  }

  lemma FrontMoves<T>(a: seq<T>, b: seq<T>)
    requires b != []
    ensures (a + [b[0]]) + b[1..] == a + b
  {
  }

  lemma WaitingStepLine(c: Config, env: Env, p: Pass, line: seq<Id>)
    requires Plain(c) && InLine(line, p) && Partition(p.s, p.stepSkipped) && !WaitingDone(c, p)
    ensures InLine(line, WaitingStep(c, env, p))
  {
    HeadIsDecided(c, env, p);
    hide Consider, Partition, Peek;
    var ch := Consider(c, env, p, p.s.waiting[0]);
    if ch.Admit? {
      hide Apply;
      AdmitFirst(c, p, line, ch);
    }
  }

  lemma {:induction false} WaitingLoopLine(c: Config, env: Env, p: Pass, line: seq<Id>)
    requires Plain(c) && InLine(line, p) && Partition(p.s, p.stepSkipped)
    ensures InLine(line, WaitingLoop(c, env, p))
    decreases !p.stop, |p.s.waiting| + |p.s.skipped|
  {
    if !WaitingDone(c, p) {
      WaitingStepLine(c, env, p, line);
      WaitingStepKeeps(c, env, p);
      hide WaitingStep, InLine, Partition;
      WaitingLoopLine(c, env, WaitingStep(c, env, p), line);
    }
  }

  lemma RequeueLine(p: Pass, line: seq<Id>)
    requires InLine(line, p)
    ensures InLine(line, Requeue(p))
  {
    ReverseNothing(p.stepSkipped);
  }

  lemma {:induction false} ReverseNothing<T>(s: seq<T>)
    requires s == []
    ensures Reverse(s) == []
  {
  }

  lemma TailLine(s: State, p: Pass)
    requires TailPreempted(s, p)
    ensures Line(p.s) == Line(s) && p.s.skipped == s.skipped
  {
    assert p.s.running + (Reverse(p.preempted) + s.waiting) == (p.s.running + Reverse(p.preempted)) + s.waiting;
  }

  /** `schedule` keeps the line; its victims are the latest arrivals that were running. */
  lemma PassLine(c: Config, env: Env, s: State)
    requires Plain(c) && Rest(c, s) && EnvOk(env, s) && s.skipped == []
    ensures var p := SchedulePass(c, env, s);
            && InLine(Line(s), p)
            && (p.preempted != [] ==> TailPreempted(s, p))
  {
    hide TailPreempted, InLine, Rest, RunningLoop, WaitingLoop, Requeue, Partition, EnvOk, RunningInv, Quiet, Framed, PrevOk, Start;
    var p := RunningLoop(c, env, Start(c, s));
    StartTail(c, s);
    RunningLoopTail(c, env, s, Start(c, s));
    TailLine(s, p);
    FirstLoop(c, env, s);
    FirstLoopParts(c, env, s, p);
    LineMade(s, p);
    if p.preempted == [] {
      var q := SecondStart(c, p);
      SecondStartFacts(c, p);
      LineMade(s, q);
      WaitingLoopLine(c, env, q, Line(s));
      RequeueLine(WaitingLoop(c, env, q), Line(s));
      WaitingKeepsVictims(c, env, q);
    }
  }

  lemma LineMade(s: State, p: Pass)
    requires Line(p.s) == Line(s) && p.s.skipped == s.skipped == [] && p.stepSkipped == []
    ensures InLine(Line(s), p)
  {
  }

  lemma FirstLoopParts(c: Config, env: Env, s: State, p: Pass)
    requires RunningInv(c, env, Tokens(c, s), p)
    ensures Partition(p.s, []) && p.stepSkipped == []
    ensures SecondStart(c, p).stepSkipped == []
  {
  }

  lemma {:induction false} WaitingKeepsVictims(c: Config, env: Env, p: Pass)
    ensures WaitingLoop(c, env, p).preempted == p.preempted
    ensures Requeue(WaitingLoop(c, env, p)).preempted == p.preempted
    decreases !p.stop, |p.s.waiting| + |p.s.skipped|
  {
    if !WaitingDone(c, p) {
      StepKeepsVictims(c, env, p);
      hide WaitingStep;
      WaitingKeepsVictims(c, env, WaitingStep(c, env, p));
    }
  }

  lemma StepKeepsVictims(c: Config, env: Env, p: Pass)
    requires !WaitingDone(c, p)
    ensures WaitingStep(c, env, p).preempted == p.preempted
  {
    hide Consider, Pop, Peek, StartKv;
  }

  // ------------------------------------------------------------------------ whole runs

  ghost predicate PlainEvent(ev: Event) {
    ev.Add? ==> ev.v.status == Waiting && !ev.v.resumable
  }

  ghost predicate PlainRun(run: seq<Event>) {
    forall k :: 0 <= k < |run| ==> PlainEvent(run[k])
  }

  ghost predicate InOrder(arrivals: seq<Id>, s: State) {
    s.skipped == [] && Line(s) == Only(arrivals, Unfinished(s))
  }

  ghost predicate Arrived(e: Engine) {
    && NoDup(e.arrivals) && (forall id :: id in e.arrivals <==> id in e.seen)
    && (forall id :: id in e.s.reqs ==> id in e.seen && !e.s.reqs[id].resumable)
    && (forall id :: id in e.seen ==> !e.seen[id].resumable)
  }

  lemma SameOrder(arrivals: seq<Id>, s: State, t: State)
    requires InOrder(arrivals, s) && Unfinished(t) == Unfinished(s) && Line(t) == Line(s) && t.skipped == s.skipped
    ensures InOrder(arrivals, t)
  {
  }

  /** Requests `gone` leave the line. */
  lemma {:induction false} FewerInOrder(arrivals: seq<Id>, s: State, t: State, gone: set<Id>)
    requires InOrder(arrivals, s) && Unfinished(t) == Unfinished(s) - gone && t.skipped == s.skipped
    requires Line(t) == Without(Line(s), gone)
    ensures InOrder(arrivals, t)
  {
    OnlyFewer(arrivals, Unfinished(s), gone);
  }

  lemma StepOrder(c: Config, e: Engine, env: Env)
    requires Plain(c) && EngineInv(c, e) && Legal(c, e, Event.Step(env)) && InOrder(e.arrivals, e.s)
    ensures InOrder(e.arrivals, Next(c, e, Event.Step(env)).s)
  {
    AtRest(c, e);
    StepParts(c, e, env);
    StepNext(c, e, env);
    var p := SchedulePass(c, env, e.s);
    hide SchedulePass, Next, EngineInv, Legal, Rest, EnvOk, PassOk, Books, AfterSchedule, Framed, TailPreempted, AllPlanned,
         Partition, AllReady, AllKv;
    SchedulePassOk(c, env, e.s);
    PassOkParts(c, e.s, p);
    PassLine(c, env, e.s);
    FramedUnfinished(c, e.s, p.s);
    AfterScheduleQueues(c, p);
    AfterScheduleViews(c, p, Tokens(c, e.s));
    UnfinishedByStatus(p.s, AfterSchedule(p.s, p.order, p.num, p.specs));
    SameOrder(e.arrivals, e.s, AfterSchedule(p.s, p.order, p.num, p.specs));
  }

  lemma FramedUnfinished(c: Config, s: State, t: State)
    requires Framed(c, s, t)
    ensures Unfinished(t) == Unfinished(s)
  {
    forall id | id in s.reqs ensures IsFinished(t.reqs[id].status) <==> IsFinished(s.reqs[id].status) {
      assert Touched(c, s.reqs[id], t.reqs[id]);
    }
    assert forall id :: id in t.reqs <==> id in s.reqs.Keys;
  }

  lemma UnfinishedByStatus(s: State, t: State)
    requires SameStatuses(s, t)
    ensures Unfinished(t) == Unfinished(s)
  {
  }

  lemma FinishOrder(arrivals: seq<Id>, s: State, ids: set<Id>, st: Status, delay: set<Id>)
    requires InOrder(arrivals, s) && Partition(s, []) && IsFinished(st)
    ensures InOrder(arrivals, FinishRequests(s, ids, st, delay))
  {
    hide FinishRequests, WithStatus, Finishable, DelayedFree, Unfinished, Partition;
    var valid := Finishable(s, ids);
    var t := FinishRequests(s, ids, st, delay);
    FinishViews(s, ids, st, delay);
    FinishLeavesQueues(s, ids, st, delay);
    assert t.skipped == [];
    hide Without;
    WithoutConcat(s.running, s.waiting, valid);
    FewerInOrder(arrivals, s, t, valid);
  }

  lemma {:induction false} ResetOrder(arrivals: seq<Id>, s: State)
    requires InOrder(arrivals, s) && Partition(s, [])
    ensures InOrder(arrivals, PreemptAll(s))
    decreases |s.running|
  {
    if s.running != [] {
      var n := |s.running| - 1;
      var id := s.running[n];
      var t := Preempt(s.(running := s.running[..n]), id);
      assert RemoveAt(s.running, n) == s.running[..n];
      RunningKnown(s, id);
      PreemptKeeps(s, n, []);
      PreemptShortens(s);
      assert s.running[..n] + ([id] + s.waiting) == s.running + s.waiting;
      hide Partition;
      assert Unfinished(t) == Unfinished(s);
      SameOrder(arrivals, s, t);
      hide Preempt;
      ResetOrder(arrivals, t);
    }
  }

  lemma NewInOrder(c: Config, e: Engine, id: Id, v: View)
    requires InOrder(e.arrivals, e.s) && Arrived(e) && id !in e.seen && v.status == Waiting
    ensures InOrder(e.arrivals + [id], Enqueue(Put(e.s, id, v), id))
  {
    var t := Enqueue(Put(e.s, id, v), id);
    var arrivals := e.arrivals + [id];
    assert Unfinished(t) == Unfinished(e.s) + {id};
    assert arrivals[..|e.arrivals|] == e.arrivals;
    OnlySame(e.arrivals, Unfinished(e.s), Unfinished(t));
    assert Line(t) == Line(e.s) + [id];
  }

  /** A request that stops leaves the line; the others keep their places. */
  lemma UpdateStepOrder(
      c: Config, out: Output, ans: Answer, failed: set<Id>, done: seq<Id>, a: Acc, id: Id, arrivals: seq<Id>)
    requires InOrder(arrivals, Settled(a)) && id in out.order && id !in done
    requires MidInv(c, out, failed, done, a) && ReportsOk(c, out, ans, failed, done, a.s)
    requires id in a.s.reqs ==> !a.s.reqs[id].resumable
    ensures var b := UpdateOne(c, out, ans, failed, a, id); InOrder(arrivals, Settled(b))
  {
    hide InOrder, UpdateOne, Receive, MidInv;
    var b := UpdateOne(c, out, ans, failed, a, id);
    if id in failed || id !in a.s.reqs || IsFinished(a.s.reqs[id].status) {
      UpdateOneNothing(c, out, ans, failed, a, id);
    } else {
      BusyRuns(c, out, failed, done, a, id);
      CurrentFacts(c, out, ans, failed, done, a, id);
      UpdateStep(c, out, ans, failed, done, a, id);
      var v, d, gen := a.s.reqs[id], Drafts(out.specs, id), TokensFor(ans, id);
      var r := Receive(c, v, d, gen, id in ans.rejected);
      ReceiveShape(c, v, d, gen, id in ans.rejected);
      UpdateOneShape(c, out, ans, failed, a, id);
      MidParts(c, out, failed, done, a);
      StoppedInOrder(arrivals, a, b, id, r);
    }
  }

  lemma StoppedInOrder(arrivals: seq<Id>, a: Acc, b: Acc, id: Id, r: Appended)
    requires InOrder(arrivals, Settled(a)) && Partition(Settled(a), []) && id in Settled(a).running
    requires id in a.s.reqs && !IsFinished(a.s.reqs[id].status)
    requires !r.v.resumable && (r.stopped ==> IsFinished(r.v.status)) && (!r.stopped ==> r.v.status == a.s.reqs[id].status)
    requires b.stoppedRunning == (if r.stopped then a.stoppedRunning + {id} else a.stoppedRunning)
    requires b.s.running == a.s.running && b.s.waiting == a.s.waiting && b.s.skipped == a.s.skipped
    requires b.s.reqs == a.s.reqs[id := r.v] || (r.stopped && b.s.reqs == a.s.reqs - {id})
    ensures InOrder(arrivals, Settled(b))
  {
    var s, t := Settled(a), Settled(b);
    if r.stopped {
      SettledLater(a, b, id);
      assert Unfinished(t) == Unfinished(s) - {id};
      LeavesRunning(s, id);
      WithoutConcat(s.running, s.waiting, {id});
      hide Partition, Without, Unfinished;
      FewerInOrder(arrivals, s, t, {id});
    } else {
      assert Unfinished(t) == Unfinished(s);
      SameOrder(arrivals, s, t);
    }
  }

  lemma LeavesRunning(s: State, id: Id)
    requires Partition(s, []) && id in s.running
    ensures Without(s.waiting, {id}) == s.waiting
  {
    Member(s, [], id);
    assert multiset(s.running)[id] + multiset(s.waiting)[id] <= Queued(s, [])[id];
    assert id !in multiset(s.waiting);
    WithoutNothing(s.waiting, {id});
  }

  lemma {:induction false} UpdateAllOrder(
      c: Config, out: Output, ans: Answer, failed: set<Id>, a: Acc, n: nat, arrivals: seq<Id>)
    requires NoDup(out.order) && n <= |out.order| && InOrder(arrivals, Settled(a))
    requires MidInv(c, out, failed, [], a) && ReportsOk(c, out, ans, failed, [], a.s)
    requires forall id :: id in a.s.reqs ==> !a.s.reqs[id].resumable
    ensures var b := UpdateAll(c, out, ans, failed, a, out.order[..n]);
      InOrder(arrivals, Settled(b)) && forall id :: id in b.s.reqs ==> !b.s.reqs[id].resumable
  {
    hide MidInv, ReportsOk, UpdateOne, InOrder, Settled;
    if n > 0 {
      UpdateAllOrder(c, out, ans, failed, a, n - 1, arrivals);
      UpdateAllInv(c, out, ans, failed, a, n - 1);
      NextInOrder(out.order, n - 1);
      var ids := out.order[..n];
      assert ids[..n - 1] == out.order[..n - 1] && ids[n - 1] == out.order[n - 1];
      var b := UpdateAll(c, out, ans, failed, a, out.order[..n - 1]);
      UpdateStepOrder(c, out, ans, failed, out.order[..n - 1], b, out.order[n - 1], arrivals);
      UpdateOneKeepsPlain(c, out, ans, failed, out.order[..n - 1], b, out.order[n - 1]);
    } else {
      assert out.order[..0] == [];
    }
  }

  lemma UpdateOneKeepsPlain(c: Config, out: Output, ans: Answer, failed: set<Id>, done: seq<Id>, a: Acc, id: Id)
    requires id in out.order && id !in done && MidInv(c, out, failed, done, a)
    requires forall x :: x in a.s.reqs ==> !a.s.reqs[x].resumable
    ensures forall x :: x in UpdateOne(c, out, ans, failed, a, id).s.reqs ==>
      !UpdateOne(c, out, ans, failed, a, id).s.reqs[x].resumable
  {
    hide UpdateOne, MidInv, Receive;
    if id in failed || id !in a.s.reqs || IsFinished(a.s.reqs[id].status) {
      UpdateOneNothing(c, out, ans, failed, a, id);
    } else {
      BusyRuns(c, out, failed, done, a, id);
      UpdateOneText(c, out, ans, failed, a, id);
    }
  }

  lemma NothingTransferred(s: State)
    ensures Unfinished(TransfersFinished(s, {}, {})) == Unfinished(s)
    ensures var t := TransfersFinished(s, {}, {}); t.running == s.running && t.waiting == s.waiting && t.skipped == s.skipped
  {
  }

  lemma ReportOrder(c: Config, e: Engine, ans: Answer)
    requires Plain(c) && EngineInv(c, e) && Legal(c, e, Event.Report(ans)) && InOrder(e.arrivals, e.s) && Arrived(e)
    ensures InOrder(e.arrivals, Next(c, e, Event.Report(ans)).s)
  {
    hide EngineInv, UpdateAll, MidInv, ReportsOk, InOrder, Settled, RecoveryOk, AnswerOk, Loop, AfterFail, FailedNow, Next,
         HandleInvalid, TransfersFinished, Arrived, LoadsDisjoint, Unfinished;
    ReportStages(c, e, ans);
    var out := e.pending.value;
    LegalReport(c, e, ans);
    NoFailures(c, e.s, out, ans);
    RecoveredMid(c, e, ans);
    ReportsApply(c, e, ans, Recovery(e.s, {}));
    var a := Acc(e.s, {}, {}, []);
    SettledAtFirst(e, a);
    assert out.order[..|out.order|] == out.order;
    UpdateAllOrder(c, out, ans, {}, a, |out.order|, e.arrivals);
    PlainLoop(c, e.s, out, ans);
    NothingTransferred(AfterFail(c, e.s, out, ans));
    SameOrder(e.arrivals, AfterFail(c, e.s, out, ans), TransfersFinished(AfterFail(c, e.s, out, ans), {}, {}));
  }

  lemma SettledAtFirst(e: Engine, a: Acc)
    requires a == Acc(e.s, {}, {}, []) && Arrived(e)
    ensures Settled(a) == e.s
    ensures forall id :: id in a.s.reqs ==> !a.s.reqs[id].resumable
  {
    WithoutNothing(e.s.running, {});
  }

  lemma NextOrder(c: Config, e: Engine, ev: Event)
    requires Plain(c) && PlainEvent(ev) && EngineInv(c, e) && Legal(c, e, ev)
    requires AllFaithful(e.seen, e.s, e.log) && InOrder(e.arrivals, e.s) && Arrived(e)
    ensures var f := Next(c, e, ev); InOrder(f.arrivals, f.s) && Arrived(f)
  {
    InvParts(c, e);
    hide EngineInv, AllFaithful, Partition, RequestOk, PrevOk, LoadsOk;
    NextFaith(c, e, ev);
    NextArrived(c, e, ev);
    hide Arrived;
    match ev {
      case Step(env) => hide Next, Legal, InOrder; StepOrder(c, e, env);
      case Report(ans) => hide Next, Legal, InOrder; ReportOrder(c, e, ans);
      case Draft(drafts) =>
        DraftViews(e.s, drafts);
        UnfinishedByStatus(e.s, UpdateDrafts(e.s, drafts));
        SameOrder(e.arrivals, e.s, UpdateDrafts(e.s, drafts));
      case Add(id, v, late) => AddOrder(c, e, id, v, late);
      case Abort(ids, st, late) => hide FinishRequests, InOrder; FinishOrder(e.arrivals, e.s, ids, st, late);
      case Reset(running) =>
        hide PreemptAll;
        ResetOrder(e.arrivals, e.s);
        assert Unfinished(PreemptAll(e.s).(prev := {})) == Unfinished(PreemptAll(e.s));
      case SetPause(pause) =>
        assert Unfinished(e.s.(pause := pause)) == Unfinished(e.s);
    }
  }

  lemma AddOrder(c: Config, e: Engine, id: Id, v: View, late: set<Id>)
    requires PlainEvent(Event.Add(id, v, late)) && Legal(c, e, Event.Add(id, v, late)) && InOrder(e.arrivals, e.s) && Arrived(e)
    ensures var f := Next(c, e, Event.Add(id, v, late)); InOrder(f.arrivals, f.s)
  {
    assert id !in e.s.reqs;
    hide Enqueue, Arrived, InOrder, NewRequest;
    NewInOrder(c, e, id, v);
  }

  lemma NextArrived(c: Config, e: Engine, ev: Event)
    requires PlainEvent(ev) && Legal(c, e, ev) && Arrived(e)
    requires var f := Next(c, e, ev); AllFaithful(f.seen, f.s, f.log)
    ensures Arrived(Next(c, e, ev))
  {
    NextSeen(c, e, ev);
    hide Next, Legal, AllFaithful, Arrived, NewRequest;
    FaithfulPlain(Next(c, e, ev));
    StillArrived(e, Next(c, e, ev), ev);
  }

  lemma StillArrived(e: Engine, f: Engine, ev: Event)
    requires Arrived(e)
    requires (f.seen == e.seen && f.arrivals == e.arrivals)
          || (ev.Add? && ev.id !in e.seen && f.seen == e.seen[ev.id := ev.v] && f.arrivals == e.arrivals + [ev.id] && !ev.v.resumable)
    requires forall id :: id in f.s.reqs ==> id in f.seen && (!f.seen[id].resumable ==> !f.s.reqs[id].resumable)
    ensures Arrived(f)
  {
    if f.arrivals != e.arrivals {
      assert forall x :: x in e.arrivals + [ev.id] <==> x in e.arrivals || x == ev.id;
    }
  }

  lemma FaithfulPlain(e: Engine)
    requires AllFaithful(e.seen, e.s, e.log)
    ensures forall id :: id in e.s.reqs ==> id in e.seen && (!e.seen[id].resumable ==> !e.s.reqs[id].resumable)
  {
    forall id | id in e.s.reqs && !e.seen[id].resumable ensures !e.s.reqs[id].resumable {
      assert Faithful(e.seen[id], e.s, e.log, id);
    }
  }

  lemma NextSeen(c: Config, e: Engine, ev: Event)
    requires PlainEvent(ev) && Legal(c, e, ev) && Arrived(e)
    ensures var f := Next(c, e, ev);
      || (f.seen == e.seen && f.arrivals == e.arrivals)
      || (ev.Add? && ev.id !in e.seen && f.seen == e.seen[ev.id := ev.v] && f.arrivals == e.arrivals + [ev.id] && !ev.v.resumable)
  {
    hide Schedule, SchedulePass, UpdateFromOutput, UpdateDrafts, FinishRequests, AddRequest, ResetPrefixCache;
  }

  /** Whatever happens in between, running and then waiting requests are in order of arrival. */
  lemma {:induction false} ArrivalOrderKept(c: Config, run: seq<Event>)
    requires Plain(c) && PlainRun(run) && LegalRun(c, INITIAL, run)
    ensures var e := After(c, INITIAL, run); InOrder(e.arrivals, e.s) && Arrived(e)
  {
    if run != [] {
      var front := run[..|run| - 1];
      assert PlainRun(front) && PlainEvent(run[|run| - 1]);
      ArrivalOrderKept(c, front);
      InitialInv(c);
      hide EngineInv, Legal, Next, AllFaithful, InOrder, Arrived;
      RunKeepsInv(c, INITIAL, front);
      ExactlyOnceDelivery(c, front);
      NextOrder(c, After(c, INITIAL, front), run[|run| - 1]);
    } else {
      assert Unfinished(EMPTY) == {};
    }
  }

  /**
   * Every request preempted by `schedule` arrived after every request that is
   * still running afterwards.
   */
  lemma {:induction false} VictimsArrivedLast(c: Config, run: seq<Event>, env: Env, victim: Id, other: Id)
    requires Plain(c) && PlainRun(run) && LegalRun(c, INITIAL, run)
    requires var e := After(c, INITIAL, run);
      && Legal(c, e, Event.Step(env))
      && victim in SchedulePass(c, env, e.s).preempted && other in Schedule(c, env, e.s).running
    ensures Earlier(After(c, INITIAL, run).arrivals, other, victim)
  {
    hide SchedulePass, EngineInv, LegalRun, Rest, EnvOk, After, Partition, InOrder, TailPreempted, Arrived, AfterSchedule, Earlier;
    var e := After(c, INITIAL, run);
    InitialInv(c);
    ArrivalOrderKept(c, run);
    RunKeepsInv(c, INITIAL, run);
    AtRest(c, e);
    StepParts(c, e, env);
    var p := SchedulePass(c, env, e.s);
    NoSkipped(e.arrivals, e.s);
    PassLine(c, env, e.s);
    AfterScheduleQueues(c, p);
    LaterInLine(e.arrivals, e.s, p, victim, other);
  }

  lemma NoSkipped(arrivals: seq<Id>, s: State)
    requires InOrder(arrivals, s)
    ensures s.skipped == []
  {
  }

  lemma LaterInLine(arrivals: seq<Id>, s: State, p: Pass, victim: Id, other: Id)
    requires InOrder(arrivals, s) && TailPreempted(s, p) && victim in p.preempted && other in p.s.running
    ensures Earlier(arrivals, other, victim)
  {
    var line := Only(arrivals, Unfinished(s));
    TailLine(s, p);
    ReverseHas(p.preempted, victim);
    hide Reverse, Only, Unfinished, Earlier;
    var i :| 0 <= i < |p.s.running| && p.s.running[i] == other;
    var j :| 0 <= j < |Reverse(p.preempted)| && Reverse(p.preempted)[j] == victim;
    assert line[i] == other && line[|p.s.running| + j] == victim;
    OnlyKeepsOrder(arrivals, Unfinished(s), i, |p.s.running| + j);
  }

  lemma {:induction false} ReverseHas(s: seq<Id>, x: Id)
    requires x in s
    ensures x in Reverse(s)
  {
    ReverseCounts(s);
    assert x in multiset(Reverse(s));
  }
}
