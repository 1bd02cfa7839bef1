/**
 * Nobody starves: under FCFS each step schedules the oldest unfinished request,
 * and the steps a request can still be unfinished for are bounded.
 */
module Progress {
  import opened Seqs
  import opened Requests
  import opened SchedulerSpec
  import opened QueuePartition
  import opened Frames
  import opened Accounting
  import opened ScheduleStep
  import opened ArrivalOrder

  /** Chunked prefill and room for at least one token and one request. */
  predicate Steady(c: Config) { Plain(c) && c.chunked && !c.mamba && c.maxScheduled > 0 && c.maxRunning > 0 }

  /** Every request fits alone: slots are refused only while somebody else holds blocks. */
  ghost predicate FitsAlone(env: Env) {
    && (forall ask :: ask in env.refused ==> ask.holders - {ask.id} != {})
    && env.encoder == map[]
  }

  /** Only running requests hold blocks. */
  ghost predicate HoldersRun(s: State) {
    forall id :: id in s.kv ==> id in s.running
  }

  // -------------------------------------------------------------- the first loop

  lemma SomebodyElse(ids: set<Id>, id: Id)
    requires ids - {id} != {}
    ensures exists x :: x in ids && x != id
  {
    var x :| x in ids - {id};
  }

  lemma VictimHolders(c: Config, p: Pass)
    requires !c.priority && HoldersRun(p.s) && p.s.running != []
    ensures HoldersRun(PreemptVictim(c, p).s)
  {
    var n := |p.s.running| - 1;
    assert RemoveAt(p.s.running, n) == p.s.running[..n];
    assert p.s.running == p.s.running[..n] + [p.s.running[n]];
  }

  /** The first running request is never turned away. */
  lemma {:induction false} FirstGetsRoom(c: Config, env: Env, p: Pass, tokens: int)
    requires !c.priority && FitsAlone(env) && HoldersRun(p.s) && p.s.running != [] && NoDup(p.s.running)
    ensures var r := MakeRoom(c, env, p, p.s.running[0], tokens);
            && r.ok && r.p.order == p.order && r.p.s.running != [] && r.p.s.running[0] == p.s.running[0]
    decreases |p.s.running|
  {
    var id := p.s.running[0];
    var ask := SlotAsk(p.s.kv.Keys, id, tokens);
    if ask in env.refused {
      SomebodyElse(p.s.kv.Keys, id);
      var n := |p.s.running| - 1;
      var q := PreemptVictim(c, p);
      VictimHolders(c, p);
      assert RemoveAt(p.s.running, n) == p.s.running[..n];
      FirstGetsRoom(c, env, q, tokens);
    }
  }

  lemma {:induction false} MakeRoomKeepsOrder(c: Config, env: Env, p: Pass, id: Id, tokens: int)
    requires !c.priority
    ensures MakeRoom(c, env, p, id, tokens).p.order == p.order
    decreases |p.s.running|
  {
    if SlotAsk(p.s.kv.Keys, id, tokens) in env.refused && p.s.running != [] {
      if p.s.running[VictimIndex(c, p.s)] != id {
        MakeRoomKeepsOrder(c, env, PreemptVictim(c, p), id, tokens);
      }
    }
  }

  lemma RunningStepGrows(c: Config, env: Env, p: Pass, id: Id)
    requires !c.priority && !RunningDone(p) && id in p.order
    ensures id in RunningStep(c, env, p).order
  {
    var x := p.s.running[p.idx];
    MakeRoomKeepsOrder(c, env, p, x, At(p.s, x).computed + RunningPlan(c, env, p, x).n + c.lookahead);
    hide MakeRoom, RunningPlan;
  }

  lemma {:induction false} RunningLoopGrows(c: Config, env: Env, p: Pass, id: Id)
    requires !c.priority && id in p.order
    ensures id in RunningLoop(c, env, p).order
    decreases !p.stop, |p.s.running| - p.idx
  {
    if !RunningDone(p) {
      hide RunningStep, RunningDone;
      RunningStepGrows(c, env, p, id);
      RunningStepDecreases(c, env, p);
      RunningLoopGrows(c, env, RunningStep(c, env, p), id);
    }
  }

  lemma {:induction false} FirstIsScheduled(c: Config, env: Env, s: State)
    requires Steady(c) && Rest(c, s) && FitsAlone(env) && HoldersRun(s) && s.pause.Unpaused? && s.running != []
    ensures s.running[0] in RunningLoop(c, env, Start(c, s)).order
  {
    hide MakeRoom, RunningPlan, FitsAlone, HoldersRun, Rest, Partition;
    var p := Start(c, s);
    var id := s.running[0];
    var plan := RunningPlan(c, env, p, id);
    FirstWantsSomething(c, env, s);
    FirstGetsRoom(c, env, p, At(s, id).computed + plan.n + c.lookahead);
    assert id in RunningStep(c, env, p).order;
    hide RunningStep;
    RunningLoopGrows(c, env, RunningStep(c, env, p), id);
  }

  lemma FirstWantsSomething(c: Config, env: Env, s: State)
    requires Steady(c) && Rest(c, s) && FitsAlone(env) && s.pause.Unpaused? && s.running != []
    ensures RunningPlan(c, env, Start(c, s), s.running[0]).n > 0
    ensures NoDup(s.running)
  {
    RunningKnown(s, s.running[0]);
    RunningNoDup(s, []);
    assert Ready(c, s.reqs[s.running[0]]);
  }

  // ------------------------------------------------------------- the second loop

  lemma WaitingStepGrows(c: Config, env: Env, p: Pass, id: Id)
    requires !WaitingDone(c, p) && id in p.order
    ensures id in WaitingStep(c, env, p).order
  {
    hide Consider, Pop, Peek, StartKv;
  }

  lemma {:induction false} WaitingLoopGrows(c: Config, env: Env, p: Pass, id: Id)
    requires id in p.order
    ensures id in WaitingLoop(c, env, p).order
    decreases !p.stop, |p.s.waiting| + |p.s.skipped|
  {
    if !WaitingDone(c, p) {
      WaitingStepGrows(c, env, p, id);
      hide WaitingStep;
      WaitingLoopGrows(c, env, WaitingStep(c, env, p), id);
    }
  }

  /** With nobody running, the head of `waiting` is admitted. */
  lemma HeadIsAdmitted(c: Config, env: Env, p: Pass)
    requires Steady(c) && Partition(p.s, []) && AllReady(c, p.s) && EnvOk(env, p.s) && FitsAlone(env) && HoldersRun(p.s)
    requires p.s.running == [] && p.s.skipped == [] && p.s.waiting != [] && p.budget > 0
    ensures var id := p.s.waiting[0];
            var ch := Consider(c, env, p, id);
            Peek(c, p.s) == id && ch.Admit?
  {
    var id := p.s.waiting[0];
    HeadIsDecided(c, env, p);
    Member(p.s, [], id);
    assert Ready(c, p.s.reqs[id]);
    assert p.s.kv.Keys == {};
    hide Partition;
    if Consider(c, env, p, id).Halt? {
      assert At(p.s, id).status in {Waiting, Preempted};
    }
  }

  lemma AdmitEnters(c: Config, env: Env, p: Pass, id: Id)
    requires p.s.waiting != [] || p.s.skipped != []
    requires id == Peek(c, p.s) && Consider(c, env, p, id).Admit? && !WaitingDone(c, p)
    ensures id in WaitingStep(c, env, p).order
  {
    hide Consider, Pop, Peek, StartKv;
  }

  lemma HeadIsScheduled(c: Config, env: Env, s: State)
    requires Steady(c) && Rest(c, s) && EnvOk(env, s) && FitsAlone(env) && HoldersRun(s) && s.pause.Unpaused?
    requires s.running == [] && s.skipped == [] && s.waiting != []
    ensures s.waiting[0] in SchedulePass(c, env, s).order
  {
    RestParts(c, s);
    var p := Start(c, s);
    var q := SecondStart(c, p);
    assert RunningLoop(c, env, p) == p;
    assert q.s == s && q.budget > 0 && !WaitingDone(c, q);
    hide Consider, Peek, WaitingStep, Rest, Partition, AllReady, EnvOk, FitsAlone, HoldersRun;
    HeadIsAdmitted(c, env, q);
    AdmitEnters(c, env, q, s.waiting[0]);
    hide WaitingDone;
    WaitingLoopGrows(c, env, WaitingStep(c, env, q), s.waiting[0]);
  }

  /** Each step schedules the oldest unfinished request. */
  lemma OldestIsScheduled(c: Config, env: Env, s: State)
    requires Steady(c) && Rest(c, s) && EnvOk(env, s) && FitsAlone(env) && HoldersRun(s) && s.pause.Unpaused?
    requires s.skipped == [] && Line(s) != []
    ensures Line(s)[0] in SchedulePass(c, env, s).order
  {
    hide Rest, FitsAlone, HoldersRun, Steady, EnvOk, Start, RunningLoop, WaitingLoop;
    if s.running != [] {
      FirstIsScheduled(c, env, s);
      var p := RunningLoop(c, env, Start(c, s));
      if p.preempted == [] {
        WaitingLoopGrows(c, env, SecondStart(c, p), s.running[0]);
      }
    } else {
      HeadIsScheduled(c, env, s);
    }
  }
}
