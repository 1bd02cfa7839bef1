/**
 * A running request that has come to the last position of the model without
 * being stopped is never scheduled again, whatever the other components answer.
 */
module StandStill {
  import opened Seqs
  import opened Requests
  import opened SchedulerSpec
  import opened QueuePartition
  import opened Frames
  import opened Accounting
  import opened ScheduleStep
  import A = ArrivalOrder

  /** No encoder inputs are scheduled, and no tokens added, for a window of no tokens. */
  ghost predicate NothingForNothing(env: Env) {
    forall ask :: ask in env.encoder && ask.n == 0 ==> env.encoder[ask].n == 0
  }

  /** At the last position of the model, with something left to compute. */
  predicate AtTheEnd(c: Config, v: View) {
    v.computed == c.maxModelLen - 1 < |v.all| + |v.spec|
  }

  /** Request `id` has not been scheduled, and as long as it runs it is `v`. */
  ghost predicate Idle(p: Pass, id: Id, v: View) {
    id !in p.order && id !in p.num && (id in p.s.running ==> At(p.s, id) == v)
  }

  lemma NothingPlanned(c: Config, env: Env, p: Pass, id: Id)
    requires NothingForNothing(env) && AtTheEnd(c, At(p.s, id)) && p.budget > 0
    ensures RunningPlan(c, env, p, id).n == 0
  {
    var v := At(p.s, id);
    assert RunningWant(c, v, p.budget) == 0;
    if c.mamba && c.blockSize > 0 {
      M.SplitBounds(M.Prefill(|v.prompt|, |v.all|, c.blockSize, c.eagle), v.computed, 0);
    }
    hide M.Split;
  }

  /**
   * Beyond the last position the plan is negative: the request is scheduled
   * with a negative count, and the token budget grows.
   */
  lemma BeyondTheEnd(c: Config, env: Env, p: Pass, id: Id)
    requires !RunningDone(p) && p.s.running[p.idx] == id && !c.mamba && !At(p.s, id).enc
    requires var v := At(p.s, id); c.maxModelLen - 1 < v.computed < |v.all| + |v.spec|
    requires SlotAsk(p.s.kv.Keys, id, c.maxModelLen - 1 + c.lookahead) !in env.refused
    ensures var q, n := RunningStep(c, env, p), c.maxModelLen - 1 - At(p.s, id).computed;
      && n < 0 && q.order == p.order + [id] && q.num == p.num[id := n] && q.budget == p.budget - n
      && q.idx == p.idx + 1 && q.s.running == p.s.running && q.preempted == p.preempted
      && q.s.waiting == p.s.waiting && q.s.skipped == p.s.skipped
  {
    var v := At(p.s, id);
    var plan := RunningPlan(c, env, p, id);
    assert plan.n == c.maxModelLen - 1 - v.computed;
    assert MakeRoom(c, env, p, id, v.computed + plan.n + c.lookahead) == Room(p, true);
    hide RunningPlan, MakeRoom;
  }

  lemma VictimIdle(c: Config, p: Pass, id: Id, v: View)
    requires Partition(p.s, []) && p.s.running != [] && Idle(p, id, v)
    ensures Idle(PreemptVictim(c, p), id, v) && PreemptVictim(c, p).stepSkipped == p.stepSkipped
  {
    VictimLeaves(c, p);
    RemoveFewer(p.order, p.s.running[VictimIndex(c, p.s)]);
    hide Partition, VictimIndex, Remove;
  }

  lemma {:induction false} MakeRoomIdle(c: Config, env: Env, p: Pass, asker: Id, tokens: int, id: Id, v: View)
    requires Partition(p.s, []) && Idle(p, id, v)
    ensures var q := MakeRoom(c, env, p, asker, tokens).p; Idle(q, id, v) && q.stepSkipped == p.stepSkipped
    decreases |p.s.running|
  {
    hide Partition, Idle;
    if SlotAsk(p.s.kv.Keys, asker, tokens) in env.refused && p.s.running != [] {
      var q := PreemptVictim(c, p);
      VictimIdle(c, p, id, v);
      PreemptVictimKeeps(c, p, []);
      VictimCount(c, p);
      hide PreemptVictim, VictimIndex;
      if p.s.running[VictimIndex(c, p.s)] != asker {
        MakeRoomIdle(c, env, q, asker, tokens, id, v);
      }
    }
  }

  lemma AfterRoomIdle(room: Room, asker: Id, plan: EncoderPlan, id: Id, v: View)
    requires Idle(room.p, id, v) && asker != id
    ensures Idle(AfterRoom(room, asker, plan), id, v) && AfterRoom(room, asker, plan).stepSkipped == room.p.stepSkipped
  {
    hide DraftsFor;
  }

  lemma RunningStepIdle(c: Config, env: Env, p: Pass, id: Id, v: View)
    requires NothingForNothing(env) && AtTheEnd(c, v)
    requires Partition(p.s, []) && Idle(p, id, v) && !RunningDone(p)
    ensures Idle(RunningStep(c, env, p), id, v) && RunningStep(c, env, p).stepSkipped == p.stepSkipped
  {
    hide Partition, MakeRoom, RunningPlan, AfterRoom, NothingForNothing;
    var asker := p.s.running[p.idx];
    if asker == id {
      NothingPlanned(c, env, p, id);
    } else {
      var plan := RunningPlan(c, env, p, asker);
      var tokens := At(p.s, asker).computed + plan.n + c.lookahead;
      MakeRoomIdle(c, env, p, asker, tokens, id, v);
      AfterRoomIdle(MakeRoom(c, env, p, asker, tokens), asker, plan, id, v);
    }
  }

  lemma {:induction false} RunningLoopIdle(c: Config, env: Env, p: Pass, id: Id, v: View)
    requires NothingForNothing(env) && AtTheEnd(c, v) && Partition(p.s, []) && Idle(p, id, v)
    ensures var q := RunningLoop(c, env, p); Idle(q, id, v) && Partition(q.s, []) && q.stepSkipped == p.stepSkipped
    decreases !p.stop, |p.s.running| - p.idx
  {
    if !RunningDone(p) {
      RunningStepDecreases(c, env, p);
      hide Partition, Idle, AtTheEnd, NothingForNothing, RunningStep, RunningDone;
      RunningStepIdle(c, env, p, id, v);
      RunningStepKeeps(c, env, p);
      RunningLoopIdle(c, env, RunningStep(c, env, p), id, v);
    }
  }

  // The second loop only looks at requests that do not run.

  lemma WaitingStepIdle(c: Config, env: Env, p: Pass, id: Id, v: View)
    requires Partition(p.s, p.stepSkipped) && !WaitingDone(c, p) && Idle(p, id, v) && id in p.s.running
    ensures var q := WaitingStep(c, env, p); Idle(q, id, v) && id in q.s.running
  {
    hide Partition, Peek, WaitingStep;
    HeadIsQueued(c, p.s, p.stepSkipped);
    WaitingStepOthers(c, env, p, id);
  }

  lemma {:induction false} WaitingLoopIdle(c: Config, env: Env, p: Pass, id: Id, v: View)
    requires Partition(p.s, p.stepSkipped) && Idle(p, id, v) && id in p.s.running
    ensures var q := WaitingLoop(c, env, p); Idle(q, id, v) && id in q.s.running
    decreases !p.stop, |p.s.waiting| + |p.s.skipped|
  {
    hide Idle, Partition, WaitingStep;
    if !WaitingDone(c, p) {
      WaitingStepIdle(c, env, p, id, v);
      WaitingStepKeeps(c, env, p);
      WaitingLoopIdle(c, env, WaitingStep(c, env, p), id, v);
    }
  }

  lemma QuietRunning(s: State, p: Pass)
    requires Quiet(s, p)
    ensures p.preempted == [] ==> p.s.running == s.running
  {
  }

  lemma StartIdle(c: Config, s: State, id: Id)
    ensures var p := Start(c, s); p.s == s && Idle(p, id, At(s, id)) && Quiet(s, p) && p.stepSkipped == []
  {
  }

  lemma RequeueIdle(p: Pass, id: Id, v: View)
    requires Idle(p, id, v) && id in p.s.running
    ensures Idle(Requeue(p), id, v) && id in Requeue(p).s.running
  {
    hide Reverse;
  }

  lemma PassIdle(c: Config, env: Env, s: State, id: Id)
    requires NothingForNothing(env) && AtTheEnd(c, At(s, id)) && Partition(s, []) && id in s.running
    ensures var p := SchedulePass(c, env, s);
      Idle(p, id, At(s, id)) && (p.preempted == [] ==> id in p.s.running)
  {
    hide Partition, Idle, Quiet, AtTheEnd, NothingForNothing, RunningLoop, WaitingLoop, Requeue, LorasOf, Start;
    var v := At(s, id);
    StartIdle(c, s, id);
    RunningLoopIdle(c, env, Start(c, s), id, v);
    RunningLoopQuiet(c, env, s, Start(c, s));
    var p := RunningLoop(c, env, Start(c, s));
    QuietRunning(s, p);
    var q := p.(stop := false, loras := if c.lora then LorasOf(p.s, p.order) else {});
    A.WaitingKeepsVictims(c, env, q);
    if p.preempted == [] && s.pause.Unpaused? {
      SameIdle(p, q, id, v);
      WaitingLoopIdle(c, env, q, id, v);
      RequeueIdle(WaitingLoop(c, env, q), id, v);
    }
  }

  lemma SameIdle(p: Pass, q: Pass, id: Id, v: View)
    requires Idle(p, id, v) && q.order == p.order && q.num == p.num && q.s == p.s
    ensures Idle(q, id, v)
  {
  }

  lemma IdleAdvance(p: Pass, id: Id, v: View)
    requires Idle(p, id, v)
    ensures var t := AfterSchedule(p.s, p.order, p.num, p.specs);
      t.running == p.s.running && (id in p.s.running ==> At(t, id) == v)
  {
  }

  /**
   * In any step, a running request at the last position of the model gets no
   * tokens; unless somebody is preempted it is still running afterwards, as it was.
   */
  lemma StandsStill(c: Config, env: Env, s: State, id: Id)
    requires Partition(s, []) && id in s.running && AtTheEnd(c, At(s, id)) && NothingForNothing(env)
    ensures var p, t := SchedulePass(c, env, s), Schedule(c, env, s);
      && id !in p.order && id !in p.num
      && (p.preempted == [] ==> id in t.running && At(t, id) == At(s, id))
  {
    hide Partition, AtTheEnd, NothingForNothing, SchedulePass, AfterSchedule;
    PassIdle(c, env, s, id);
    IdleAdvance(SchedulePass(c, env, s), id, At(s, id));
  }
}
