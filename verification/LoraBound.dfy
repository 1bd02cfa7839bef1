/** The running requests never use more than `max_loras` distinct LoRAs. */
module LoraBound {
  import opened Seqs
  import opened Requests
  import opened SchedulerSpec
  import opened QueuePartition
  import opened Frames
  import opened Accounting
  import opened Planning
  import opened Admission
  import opened ScheduleStep
  import opened Engine
  import opened EngineStep
  import opened Receiving
  import opened Reporting
  import opened Recovering
  import opened Interventions
  import opened ReportStep

  ghost function RunningLoras(s: State): set<nat> { LorasOf(s, s.running) }

  ghost predicate LorasFit(c: Config, s: State) {
    c.lora ==> |RunningLoras(s)| <= c.maxLoras
  }

  lemma SubsetSize<T>(a: set<T>, b: set<T>)
    requires a <= b
    ensures |a| <= |b|
  {
    assert b == a + (b - a);
  }

  lemma FewerLoras(c: Config, s: State, t: State)
    requires LorasFit(c, s)
    requires forall id {:trigger id in t.running} :: id in t.running ==> id in s.running && At(t, id).lora == At(s, id).lora
    ensures LorasFit(c, t)
  {
    assert RunningLoras(t) <= RunningLoras(s);
    SubsetSize(RunningLoras(t), RunningLoras(s));
  }

  // -------------------------------------------------------------------- the first loop

  /** Until somebody is preempted, everything before `req_index` has been scheduled. */
  ghost predicate AllBefore(p: Pass) {
    && (p.stop ==> p.preempted != [])
    && (p.preempted == [] ==> p.idx >= 0 && forall i :: 0 <= i < p.idx && i < |p.s.running| ==> p.s.running[i] in p.order)
  }

  lemma WantsSomething(c: Config, env: Env, p: Pass)
    requires !c.mamba && env.encoder == map[] && Partition(p.s, []) && AllReady(c, p.s) && !RunningDone(p)
    ensures RunningPlan(c, env, p, p.s.running[p.idx]).n > 0
  {
    RunningHead(c, p);
    hide Partition, AllReady;
  }

  lemma AfterRoomBefore(p: Pass, room: Room, plan: EncoderPlan)
    requires AllBefore(p) && !RunningDone(p)
    requires room.ok && |room.p.preempted| == |p.preempted| ==> room.p == p
    requires !room.ok ==> |room.p.preempted| > |p.preempted|
    requires |room.p.preempted| >= |p.preempted|
    ensures AllBefore(AfterRoom(room, p.s.running[p.idx], plan))
  {
  }

  lemma RunningStepBefore(c: Config, env: Env, p: Pass)
    requires !c.mamba && env.encoder == map[] && Partition(p.s, []) && AllReady(c, p.s)
    requires AllBefore(p) && !RunningDone(p)
    ensures AllBefore(RunningStep(c, env, p))
  {
    WantsSomething(c, env, p);
    hide MakeRoom, RunningPlan, AllReady, Partition, AfterRoom, AllBefore;
    var id := p.s.running[p.idx];
    var plan := RunningPlan(c, env, p, id);
    var tokens := At(p.s, id).computed + plan.n + c.lookahead;
    MakeRoomQuiet(c, env, p, id, tokens);
    AfterRoomBefore(p, MakeRoom(c, env, p, id, tokens), plan);
  }

  lemma {:induction false} RunningLoopBefore(c: Config, env: Env, total: int, p: Pass)
    requires !c.mamba && env.encoder == map[] && RunningInv(c, env, total, p) && AllBefore(p)
    ensures var q := RunningLoop(c, env, p); AllBefore(q) && RunningDone(q)
    decreases !p.stop, |p.s.running| - p.idx
  {
    if !RunningDone(p) {
      hide RunningStep, RunningDone, AllBefore, RunningInv;
      RunningInvParts(c, env, total, p);
      RunningStepBefore(c, env, p);
      RunningStepInv(c, env, total, p);
      RunningStepDecreases(c, env, p);
      RunningLoopBefore(c, env, total, RunningStep(c, env, p));
    }
  }

  lemma RunningInvParts(c: Config, env: Env, total: int, p: Pass)
    requires RunningInv(c, env, total, p)
    ensures Partition(p.s, []) && AllReady(c, p.s)
  {
  }

  /** The running requests lose nobody but victims, and no LoRA changes. */
  lemma LoopLoras(c: Config, s: State, p: Pass)
    requires LorasFit(c, s) && Framed(c, s, p.s) && Partition(p.s, []) && Partition(s, [])
    requires forall id {:trigger id in p.s.running} :: id in p.s.running ==> id in s.running
    ensures LorasFit(c, p.s)
  {
    forall id | id in p.s.running ensures At(p.s, id).lora == At(s, id).lora {
      Member(s, [], id);
      assert id in s.reqs && Touched(c, s.reqs[id], p.s.reqs[id]);
    }
    hide Partition, Framed;
    FewerLoras(c, s, p.s);
  }

  // ------------------------------------------------------------------- the second loop

  /** `scheduled_loras` covers the running requests and stays within the limit. */
  ghost predicate Covered(c: Config, p: Pass) {
    c.lora ==> RunningLoras(p.s) <= p.loras && |p.loras| <= c.maxLoras
  }

  lemma AdmittedLora(c: Config, env: Env, p: Pass, id: Id)
    requires c.lora && |p.loras| <= c.maxLoras
    ensures var ch := Consider(c, env, p, id);
            var lora := At(ch.s, id).lora;
            ch.Admit? && lora != 0 ==> |p.loras + {lora}| <= c.maxLoras
  {
    hide Promote, WaitingPlan, Granted;
  }

  lemma SameLoras(c: Config, p: Pass, s: State)
    requires Framed(c, p.s, s) && Partition(p.s, p.stepSkipped) && s.running == p.s.running
    ensures RunningLoras(s) == RunningLoras(p.s)
  {
    forall id | id in p.s.running ensures At(s, id).lora == At(p.s, id).lora {
      Member(p.s, p.stepSkipped, id);
      assert id in p.s.reqs && Touched(c, p.s.reqs[id], s.reqs[id]);
    }
  }

  lemma ApplyLoras(c: Config, p: Pass, ch: Choice)
    requires Fits(c, p, ch) && Covered(c, p) && RunningLoras(ch.s) == RunningLoras(p.s)
    requires c.lora && ch.Admit? && At(ch.s, Peek(c, p.s)).lora != 0 ==> |p.loras + {At(ch.s, Peek(c, p.s)).lora}| <= c.maxLoras
    ensures Covered(c, Apply(c, p, Peek(c, p.s), ch))
  {
    var id := Peek(c, p.s);
    if ch.Admit? {
      AdmitLorasShape(c, p, ch);
    } else if !ch.Halt? {
      PopOnlyQueues(c, p.s, ch.s);
    }
    hide Pop, Peek, StartKv, Partition, Fits;
  }

  lemma AdmitLorasShape(c: Config, p: Pass, ch: Choice)
    requires Fits(c, p, ch) && ch.Admit?
    ensures var id := Peek(c, p.s);
            var q := Apply(c, p, id, ch);
            && RunningLoras(q.s) <= RunningLoras(ch.s) + (if At(ch.s, id).lora != 0 then {At(ch.s, id).lora} else {})
            && q.loras == (if c.lora && At(ch.s, id).lora != 0 then p.loras + {At(ch.s, id).lora} else p.loras)
  {
    PopOnlyQueues(c, p.s, ch.s);
    hide Pop, Peek, StartKv, Partition, Fits;
  }

  lemma WaitingStepLoras(c: Config, env: Env, p: Pass)
    requires Partition(p.s, p.stepSkipped) && Covered(c, p) && !WaitingDone(c, p)
    ensures Covered(c, WaitingStep(c, env, p))
  {
    ConsiderFits(c, env, p);
    HeadIsQueued(c, p.s, p.stepSkipped);
    hide Consider, Partition, Apply, Peek, Framed;
    var id := Peek(c, p.s);
    ConsiderFramed(c, env, p, id);
    var ch := Consider(c, env, p, id);
    if c.lora {
      AdmittedLora(c, env, p, id);
    }
    SameLoras(c, p, ch.s);
    ApplyLoras(c, p, ch);
  }

  lemma {:induction false} WaitingLoopLoras(c: Config, env: Env, p: Pass)
    requires Partition(p.s, p.stepSkipped) && Covered(c, p)
    ensures Covered(c, WaitingLoop(c, env, p))
    decreases !p.stop, |p.s.waiting| + |p.s.skipped|
  {
    if !WaitingDone(c, p) {
      WaitingStepLoras(c, env, p);
      WaitingStepKeeps(c, env, p);
      hide WaitingStep, Partition, Covered;
      WaitingLoopLoras(c, env, WaitingStep(c, env, p));
    }
  }

  // --------------------------------------------------------------------- one whole pass

  /**
   * When the second loop is entered with budget left, every running request
   * has been scheduled in this step, so `scheduled_loras` covers them all.
   */
  lemma EveryoneScheduled(c: Config, p: Pass)
    requires AllBefore(p) && RunningDone(p) && p.preempted == [] && p.budget > 0
    ensures forall id :: id in p.s.running ==> id in p.order
  {
  }

  lemma AllCovered(c: Config, total: int, p: Pass)
    requires Books(c, total, p) && LorasFit(c, p.s)
    requires forall id :: id in p.s.running ==> id in p.order
    ensures Covered(c, SecondStart(c, p))
  {
    if c.lora {
      assert LorasOf(p.s, p.order) == RunningLoras(p.s);
    }
  }

  lemma {:induction false} NoBudget(c: Config, env: Env, p: Pass)
    requires p.budget <= 0
    ensures WaitingLoop(c, env, p) == p
  {
  }

  lemma RequeueLoras(c: Config, p: Pass)
    requires LorasFit(c, p.s)
    ensures LorasFit(c, Requeue(p).s)
  {
    hide Reverse;
    FewerLoras(c, p.s, Requeue(p).s);
  }

  lemma CoveredFit(c: Config, p: Pass)
    requires Covered(c, p)
    ensures LorasFit(c, p.s)
  {
    if c.lora {
      SubsetSize(RunningLoras(p.s), p.loras);
    }
  }

  /** After the first loop the assertion on `scheduled_loras` holds. */
  lemma {:induction false} FirstLoopFits(c: Config, env: Env, s: State)
    requires Rest(c, s) && EnvOk(env, s) && LorasFit(c, s)
    ensures var p := RunningLoop(c, env, Start(c, s));
            LorasFit(c, p.s) && (c.lora ==> |LorasOf(p.s, p.order)| <= c.maxLoras)
  {
    hide Rest, EnvOk, RunningLoop, LorasFit, RunningInv, Quiet, Framed, Partition, PrevOk;
    RestParts(c, s);
    var p := RunningLoop(c, env, Start(c, s));
    FirstLoop(c, env, s);
    RunningInvParts(c, env, Tokens(c, s), p);
    RunningLoopOnlyRemoves(c, env, Start(c, s));
    LoopLoras(c, s, p);
    ScheduledLoras(c, env, Tokens(c, s), p);
  }

  lemma ScheduledLoras(c: Config, env: Env, total: int, p: Pass)
    requires RunningInv(c, env, total, p) && LorasFit(c, p.s)
    ensures c.lora ==> |LorasOf(p.s, p.order)| <= c.maxLoras
  {
    assert Books(c, total, p);
    assert LorasOf(p.s, p.order) <= RunningLoras(p.s);
    SubsetSize(LorasOf(p.s, p.order), RunningLoras(p.s));
  }

  lemma StartBefore(c: Config, s: State)
    ensures AllBefore(Start(c, s))
  {
  }

  lemma PassLoras(c: Config, env: Env, s: State)
    requires !c.mamba && env.encoder == map[] && Rest(c, s) && EnvOk(env, s) && LorasFit(c, s)
    ensures LorasFit(c, SchedulePass(c, env, s).s)
  {
    hide Rest, EnvOk, RunningLoop, WaitingLoop, LorasFit, RunningInv, Quiet, Framed, PrevOk, AllBefore, Covered, Requeue,
         Partition, RunningDone, Start;
    FirstLoopFits(c, env, s);
    var p := RunningLoop(c, env, Start(c, s));
    var q := SecondStart(c, p);
    StartBefore(c, s);
    StartAgain(c, env, s);
    RunningLoopBefore(c, env, Tokens(c, s), Start(c, s));
    FirstLoop(c, env, s);
    RunningInvBooks(c, env, Tokens(c, s), p);
    SecondStartFacts(c, p);
    if p.preempted == [] {
      if p.budget > 0 {
        EveryoneScheduled(c, p);
        AllCovered(c, Tokens(c, s), p);
        WaitingLoopLoras(c, env, q);
        CoveredFit(c, WaitingLoop(c, env, q));
      } else {
        NoBudget(c, env, q);
        SameFit(c, p.s, q.s);
      }
      RequeueLoras(c, WaitingLoop(c, env, q));
    }
  }

  lemma SameFit(c: Config, s: State, t: State)
    requires LorasFit(c, s) && s == t
    ensures LorasFit(c, t)
  {
  }

  lemma StartAgain(c: Config, env: Env, s: State)
    requires Rest(c, s) && EnvOk(env, s)
    ensures RunningInv(c, env, Tokens(c, s), Start(c, s))
  {
    StartInv(c, env, s);
  }

  lemma RunningInvBooks(c: Config, env: Env, total: int, p: Pass)
    requires RunningInv(c, env, total, p)
    ensures Partition(p.s, []) && Books(c, total, p)
    ensures Partition(SecondStart(c, p).s, SecondStart(c, p).stepSkipped)
    ensures SecondStart(c, p).budget == p.budget
  {
  }

  lemma AdvancedLoras(c: Config, p: Pass)
    requires LorasFit(c, p.s)
    ensures LorasFit(c, AfterSchedule(p.s, p.order, p.num, p.specs))
  {
    hide WriteKv, LorasFit;
    FewerLoras(c, p.s, AfterSchedule(p.s, p.order, p.num, p.specs));
  }

  lemma StepLoras(c: Config, e: Engine, env: Env)
    requires !c.mamba && env.encoder == map[] && EngineInv(c, e) && Legal(c, e, Event.Step(env)) && LorasFit(c, e.s)
    ensures LorasFit(c, Next(c, e, Event.Step(env)).s)
  {
    hide EngineInv, Legal, Rest, EnvOk, SchedulePass, AfterSchedule, LorasFit, Next;
    StepParts(c, e, env);
    AtRest(c, e);
    StepNext(c, e, env);
    PassLoras(c, env, e.s);
    AdvancedLoras(c, SchedulePass(c, env, e.s));
  }

  // ----------------------------------------------------------------------- other events

  /** `running` only loses requests, and no LoRA changes. */
  ghost predicate LorasKept(s: State, t: State) {
    forall id {:trigger id in t.running} :: id in t.running ==> id in s.running && At(t, id).lora == At(s, id).lora
  }

  ghost predicate SameLora(s: State, t: State) {
    forall x {:trigger x in t.reqs} :: x in t.reqs ==> x in s.reqs && At(t, x).lora == At(s, x).lora
  }

  lemma StoppedLoras(s: State, id: Id)
    requires id in s.reqs
    ensures HandleStopped(s, id).s.running == s.running && SameLora(s, HandleStopped(s, id).s)
  {
  }

  lemma ReceivedLora(c: Config, v: View, d: seq<Token>, gen: seq<Token>, rejected: bool)
    ensures Receive(c, v, d, gen, rejected).v.lora == v.lora
  {
    ReceiveShape(c, v, d, gen, rejected);
    hide Receive;
  }

  lemma UpdateOneLoras(c: Config, out: Output, ans: Answer, failed: set<Id>, a: Acc, id: Id)
    ensures var b := UpdateOne(c, out, ans, failed, a, id);
            && b.s.running == a.s.running && a.stoppedRunning <= b.stoppedRunning
            && SameLora(a.s, b.s)
  {
    hide Receive, Drafts, TokensFor, HandleStopped;
    if id in failed || id !in a.s.reqs || IsFinished(a.s.reqs[id].status) {
      UpdateOneNothing(c, out, ans, failed, a, id);
    } else {
      var r := Receive(c, a.s.reqs[id], Drafts(out.specs, id), TokensFor(ans, id), id in ans.rejected);
      ReceivedLora(c, a.s.reqs[id], Drafts(out.specs, id), TokensFor(ans, id), id in ans.rejected);
      StoppedLoras(Put(a.s, id, r.v), id);
    }
  }

  lemma {:induction false} UpdateAllLoras(c: Config, out: Output, ans: Answer, failed: set<Id>, a: Acc, ids: seq<Id>)
    ensures var b := UpdateAll(c, out, ans, failed, a, ids);
            && b.s.running == a.s.running && a.stoppedRunning <= b.stoppedRunning
            && SameLora(a.s, b.s)
  {
    hide UpdateOne;
    if ids != [] {
      var n := |ids| - 1;
      UpdateAllLoras(c, out, ans, failed, a, ids[..n]);
      UpdateOneLoras(c, out, ans, failed, UpdateAll(c, out, ans, failed, a, ids[..n]), ids[n]);
    }
  }

  lemma RecoveredLoras(s: State, r: Recovery, num: map<Id, int>)
    requires RecoveryOk(s, num, r)
    ensures r.s.running == s.running && SameLora(s, r.s)
  {
    forall id | id in s.reqs ensures r.s.reqs[id].lora == s.reqs[id].lora {
      assert RecoveredRequest(s, num, r, id);
    }
  }

  lemma SettledLoras(s: State, a: Acc)
    requires a.s.running == s.running && SameLora(s, a.s)
    requires Partition(Settled(a), [])
    ensures LorasKept(s, Settled(a))
  {
    WithoutCounts(a.s.running, a.stoppedRunning);
    forall id | id in Settled(a).running ensures id in s.running && At(Settled(a), id).lora == At(s, id).lora {
      Member(Settled(a), [], id);
    }
  }

  lemma FinishLoras(s: State, ids: set<Id>, st: Status, delay: set<Id>)
    requires Partition(FinishRequests(s, ids, st, delay), [])
    ensures LorasKept(s, FinishRequests(s, ids, st, delay))
  {
    var t := FinishRequests(s, ids, st, delay);
    WithoutCounts(s.running, WithStatus(s, Finishable(s, ids), Running));
    forall id | id in t.running ensures id in s.running && At(t, id).lora == At(s, id).lora {
      Member(t, [], id);
    }
  }

  lemma TransferLoras(s: State, recv: set<Id>, send: set<Id>)
    requires Partition(TransfersFinished(s, recv, send), [])
    ensures LorasKept(s, TransfersFinished(s, recv, send))
  {
    var t := TransfersFinished(s, recv, send);
    forall id | id in t.running ensures id in s.running && At(t, id).lora == At(s, id).lora {
      Member(t, [], id);
    }
  }

  lemma KeptTwice(s: State, t: State, u: State)
    requires LorasKept(s, t) && LorasKept(t, u)
    ensures LorasKept(s, u)
  {
  }

  lemma LoopKeepsLoras(c: Config, e: Engine, ans: Answer)
    requires EngineInv(c, e) && Legal(c, e, Event.Report(ans))
    ensures e.pending.Some? && LorasKept(e.s, Settled(Loop(c, e.s, e.pending.value, ans)))
  {
    hide EngineInv, Legal, HandleInvalid, UpdateAll, MidInv, AnswerOk, LoadsDisjoint, RecoveryOk, Settled, Partition, LorasKept;
    LegalReport(c, e, ans);
    var out := e.pending.value;
    var r := HandleInvalid(c, e.s, out.num, ans);
    RecoveredMid(c, e, ans);
    RecoveredLoras(e.s, r, out.num);
    UpdateAllLoras(c, out, ans, r.failed, Acc(r.s, {}, {}, []), out.order);
    LoopOk(c, e, ans);
    MidParts(c, out, r.failed, out.order, Loop(c, e.s, out, ans));
    SettledLoras(e.s, Loop(c, e.s, out, ans));
  }

  lemma ReportLoras(c: Config, e: Engine, ans: Answer)
    requires EngineInv(c, e) && Legal(c, e, Event.Report(ans))
    ensures LorasKept(e.s, Next(c, e, Event.Report(ans)).s)
  {
    hide EngineInv, Legal, Loop, Settled, AfterFail, FailedNow, FinishRequests, TransfersFinished, Partition, LorasKept, Next;
    LoopKeepsLoras(c, e, ans);
    ReportStages(c, e, ans);
    ReportKeepsInv(c, e, ans);
    var out := e.pending.value;
    var s, u := Settled(Loop(c, e.s, out, ans)), AfterFail(c, e.s, out, ans);
    AfterFailIs(c, e.s, out, ans);
    InvQueues(c, e.(s := u, pending := None));
    InvQueues(c, Next(c, e, Event.Report(ans)));
    if FailedNow(c, e.s, out, ans) != {} {
      FinishLoras(s, FailedNow(c, e.s, out, ans), FinishedError, ans.delay);
      KeptTwice(e.s, s, u);
    }
    TransferLoras(u, ans.recv, ans.send);
    KeptTwice(e.s, u, TransfersFinished(u, ans.recv, ans.send));
  }

  lemma {:induction false} ResetEmpties(s: State)
    ensures PreemptAll(s).running == []
    decreases |s.running|
  {
    if s.running != [] {
      var n := |s.running| - 1;
      PreemptShortens(s);
      hide Preempt;
      ResetEmpties(Preempt(s.(running := s.running[..n]), s.running[n]));
    }
  }

  lemma AddLoras(c: Config, e: Engine, id: Id, v: View, late: set<Id>)
    requires EngineInv(c, e) && Legal(c, e, Event.Add(id, v, late))
    ensures LorasKept(e.s, Next(c, e, Event.Add(id, v, late)).s)
  {
    hide EngineInv, Partition, Legal, FinishRequests, Enqueue, Session, LorasKept;
    AddKeepsInv(c, e, id, v, late);
    InvQueues(c, Next(c, e, Event.Add(id, v, late)));
    InvQueues(c, e);
    if id !in e.s.reqs {
      NewLoras(e.s, id, v);
    } else if e.s.reqs[id].status != WaitingForStreamingReq {
      QueuedLoras(e.s, id, UpdateOf(v));
    } else if v.resumable {
      SessionLoras(e.s, id, UpdateOf(v).value);
    } else {
      FinishLoras(e.s, {id}, FinishedAborted, late);
    }
  }

  lemma NewLoras(s: State, id: Id, v: View)
    requires Partition(s, []) && id !in s.reqs
    ensures LorasKept(s, Enqueue(Put(s, id, v), id))
  {
    FinishedInNoQueue(s, id);
    hide Partition;
  }

  lemma QueuedLoras(s: State, id: Id, u: Option<Update>)
    requires id in s.reqs
    ensures LorasKept(s, Put(s, id, s.reqs[id].(queue := s.reqs[id].queue + [u])))
  {
  }

  lemma SessionLoras(s: State, id: Id, u: Update)
    requires id in s.reqs
    ensures LorasKept(s, Session(s, id, u))
  {
  }

  lemma NextLoras(c: Config, e: Engine, ev: Event)
    requires !c.mamba && (ev.Step? ==> ev.env.encoder == map[]) && EngineInv(c, e) && Legal(c, e, ev) && LorasFit(c, e.s)
    ensures LorasFit(c, Next(c, e, ev).s)
  {
    hide EngineInv, LorasFit, Partition;
    if ev.Step? {
      hide Next;
      StepLoras(c, e, ev.env);
    } else {
      OtherLoras(c, e, ev);
      FewerLoras(c, e.s, Next(c, e, ev).s);
    }
  }

  lemma OtherLoras(c: Config, e: Engine, ev: Event)
    requires !ev.Step? && EngineInv(c, e) && Legal(c, e, ev)
    ensures LorasKept(e.s, Next(c, e, ev).s)
  {
    hide EngineInv, Partition, FinishRequests, PreemptAll, Legal;
    match ev {
      case Report(ans) => ReportLoras(c, e, ans);
      case Draft(drafts) => DraftViews(e.s, drafts); hide UpdateDrafts;
      case Add(id, v, late) => AddLoras(c, e, id, v, late);
      case Abort(ids, st, late) =>
        NextKeepsInv(c, e, ev);
        InvQueues(c, Next(c, e, ev));
        FinishLoras(e.s, ids, st, late);
      case Reset(running) => ResetEmpties(e.s);
      case SetPause(pause) =>
      case _ =>
    }
  }

  ghost predicate NoEncoder(run: seq<Event>) {
    forall k :: 0 <= k < |run| && run[k].Step? ==> run[k].env.encoder == map[]
  }

  /** Over every run without encoder limits or Mamba splits. */
  lemma {:induction false} LorasNeverExceed(c: Config, run: seq<Event>)
    requires !c.mamba && NoEncoder(run) && LegalRun(c, INITIAL, run)
    ensures LorasFit(c, After(c, INITIAL, run).s)
  {
    if run != [] {
      var front := run[..|run| - 1];
      assert NoEncoder(front);
      LorasNeverExceed(c, front);
      hide EngineInv, Legal, Next, LorasFit;
      InitialInv(c);
      RunKeepsInv(c, INITIAL, front);
      NextLoras(c, After(c, INITIAL, front), run[|run| - 1]);
    } else {
      assert RunningLoras(EMPTY) == {};
    }
  }

  /** So the assertion after the first loop holds in every step of every such run. */
  lemma {:induction false} LoraAssertionHolds(c: Config, run: seq<Event>, env: Env)
    requires !c.mamba && NoEncoder(run) && LegalRun(c, INITIAL, run) && c.lora
    requires Legal(c, After(c, INITIAL, run), Event.Step(env))
    ensures var p := RunningLoop(c, env, Start(c, After(c, INITIAL, run).s)); |LorasOf(p.s, p.order)| <= c.maxLoras
  {
    hide EngineInv, Legal, LorasFit, Rest, EnvOk, RunningLoop, LegalRun, After, LorasOf;
    InitialInv(c);
    RunKeepsInv(c, INITIAL, run);
    LorasNeverExceed(c, run);
    StepParts(c, After(c, INITIAL, run), env);
    AtRest(c, After(c, INITIAL, run));
    FirstLoopFits(c, env, After(c, INITIAL, run).s);
  }

  // ------------------------------------------------------------- nobody is passed over

  ghost predicate AllScheduled(p: Pass) {
    forall id :: id in p.s.running ==> id in p.order
  }

  lemma WaitingStepScheduled(c: Config, env: Env, p: Pass)
    requires AllScheduled(p) && Partition(p.s, p.stepSkipped) && !WaitingDone(c, p)
    ensures AllScheduled(WaitingStep(c, env, p))
  {
    ConsiderFits(c, env, p);
    hide Peek, Consider, Partition, Pop, StartKv;
    var ch := Consider(c, env, p, Peek(c, p.s));
    PopOnlyQueues(c, p.s, ch.s);
  }

  lemma {:induction false} WaitingLoopScheduled(c: Config, env: Env, p: Pass)
    requires AllScheduled(p) && Partition(p.s, p.stepSkipped)
    ensures AllScheduled(WaitingLoop(c, env, p))
    decreases !p.stop, |p.s.waiting| + |p.s.skipped|
  {
    hide AllScheduled, Partition, WaitingStep;
    if !WaitingDone(c, p) {
      WaitingStepScheduled(c, env, p);
      WaitingStepKeeps(c, env, p);
      WaitingLoopScheduled(c, env, WaitingStep(c, env, p));
    }
  }

  /**
   * In every step of every run: when waiting requests are considered, every
   * running request has been scheduled in this step, and that stays so.
   */
  lemma {:induction false} NobodyPassedOver(c: Config, run: seq<Event>, env: Env)
    requires !c.mamba && env.encoder == map[] && LegalRun(c, INITIAL, run)
    requires Legal(c, After(c, INITIAL, run), Event.Step(env))
    ensures var s := After(c, INITIAL, run).s;
            var p := RunningLoop(c, env, Start(c, s));
            p.preempted == [] && p.budget > 0 ==>
              AllScheduled(p) && AllScheduled(WaitingLoop(c, env, SecondStart(c, p)))
  {
    hide EngineInv, Legal, Rest, EnvOk, RunningLoop, LegalRun, After, LorasOf, RunningInv, Quiet, Framed, PrevOk, AllBefore, Partition,
         RunningDone, WaitingLoop, Start;
    InitialInv(c);
    RunKeepsInv(c, INITIAL, run);
    var e := After(c, INITIAL, run);
    StepParts(c, e, env);
    AtRest(c, e);
    StartBefore(c, e.s);
    StartAgain(c, env, e.s);
    RunningLoopBefore(c, env, Tokens(c, e.s), Start(c, e.s));
    FirstLoop(c, env, e.s);
    var p := RunningLoop(c, env, Start(c, e.s));
    if p.preempted == [] && p.budget > 0 {
      EveryoneScheduled(c, p);
      NothingAside(c, env, Tokens(c, e.s), p);
      WaitingLoopScheduled(c, env, SecondStart(c, p));
    }
  }

  lemma NothingAside(c: Config, env: Env, total: int, p: Pass)
    requires RunningInv(c, env, total, p)
    ensures Partition(SecondStart(c, p).s, SecondStart(c, p).stepSkipped)
  {
    hide LorasOf;
  }
}
