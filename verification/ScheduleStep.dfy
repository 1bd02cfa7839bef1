/** One whole call of `schedule`. */
module ScheduleStep {
  import opened Seqs
  import opened Requests
  import opened SchedulerSpec
  import opened QueuePartition
  import opened Frames
  import opened Accounting
  import opened Planning
  import opened Admission

  /** Between two steps, with no output in flight. */
  ghost predicate Rest(c: Config, s: State) {
    Partition(s, []) && AllReady(c, s) && AllKv(s) && PrevOk(s) && |s.running| <= c.maxRunning
  }

  // --------------------------------------------------- the first loop without victims

  ghost predicate OnlyDrafts(s: State, t: State) {
    && t == s.(reqs := t.reqs) && t.reqs.Keys == s.reqs.Keys
    && forall id {:trigger t.reqs[id]} {:trigger s.reqs[id]} :: id in s.reqs ==>
         t.reqs[id] == s.reqs[id].(spec := t.reqs[id].spec)
  }

  /** As long as nobody was preempted, only draft lists changed; `running` never grows. */
  ghost predicate Quiet(s: State, p: Pass) {
    && (p.preempted == [] ==> OnlyDrafts(s, p.s))
    && |p.s.running| <= |s.running|
  }

  lemma {:induction false} MakeRoomQuiet(c: Config, env: Env, p: Pass, id: Id, tokens: int)
    ensures var r := MakeRoom(c, env, p, id, tokens);
            && |p.preempted| <= |r.p.preempted|
            && |r.p.s.running| <= |p.s.running|
            && (r.ok && |r.p.preempted| == |p.preempted| ==> r.p == p)
            && (!r.ok && p.s.running != [] ==> |r.p.preempted| > |p.preempted|)
    decreases |p.s.running|
  {
    if SlotAsk(p.s.kv.Keys, id, tokens) in env.refused && p.s.running != [] {
      var q := PreemptVictim(c, p);
      VictimCount(c, p);
      hide PreemptVictim, VictimIndex;
      if p.s.running[VictimIndex(c, p.s)] != id {
        MakeRoomQuiet(c, env, q, id, tokens);
      }
    }
  }

  lemma AfterRoomQuiet(s: State, room: Room, id: Id, plan: EncoderPlan)
    requires Quiet(s, room.p) && (room.ok ==> id in room.p.s.reqs)
    ensures Quiet(s, AfterRoom(room, id, plan))
  {
  }

  lemma QuietRoom(s: State, p: Pass, room: Room)
    requires Quiet(s, p) && |p.preempted| <= |room.p.preempted| && |room.p.s.running| <= |p.s.running|
    requires |room.p.preempted| == |p.preempted| ==> room.p == p
    ensures Quiet(s, room.p)
  {
  }

  lemma RunningStepQuiet(c: Config, env: Env, s: State, p: Pass)
    requires Partition(p.s, []) && Quiet(s, p) && !RunningDone(p)
    ensures Quiet(s, RunningStep(c, env, p))
  {
    hide RunningPlan, MakeRoom, AfterRoom, Partition, Quiet;
    var id := p.s.running[p.idx];
    var plan := RunningPlan(c, env, p, id);
    var tokens := At(p.s, id).computed + plan.n + c.lookahead;
    var room := MakeRoom(c, env, p, id, tokens);
    MakeRoomQuiet(c, env, p, id, tokens);
    QuietRoom(s, p, room);
    MakeRoomKeeps(c, env, p, id, tokens, []);
    MakeRoomKeepsAsker(c, env, p, id, tokens, []);
    RunningKnown(room.p.s, id);
    AfterRoomQuiet(s, room, id, plan);
    PassedOverQuiet(s, p);
  }

  lemma PassedOverQuiet(s: State, p: Pass)
    requires Quiet(s, p)
    ensures Quiet(s, p.(idx := p.idx + 1))
  {
  }

  lemma RunningKnown(s: State, id: Id)
    requires Partition(s, [])
    ensures id in s.running ==> id in s.reqs && s.reqs[id].status == Running
  {
    Member(s, [], id);
  }

  lemma {:induction false} RunningLoopQuiet(c: Config, env: Env, s: State, p: Pass)
    requires Partition(p.s, []) && Quiet(s, p)
    ensures Quiet(s, RunningLoop(c, env, p))
    decreases !p.stop, |p.s.running| - p.idx
  {
    if !RunningDone(p) {
      RunningStepQuiet(c, env, s, p);
      RunningStepKeeps(c, env, p);
      RunningStepDecreases(c, env, p);
      hide Quiet, Partition, RunningStep, RunningDone;
      RunningLoopQuiet(c, env, s, RunningStep(c, env, p));
    }
  }

  lemma QuietPrev(s: State, p: Pass)
    requires Quiet(s, p) && PrevOk(s)
    ensures p.preempted == [] ==> PrevOk(p.s) && p.s.prev == s.prev
  {
    if p.preempted == [] {
      forall id | id in p.s.prev && id in p.s.reqs ensures NotResumable(p.s.reqs[id]) {
        assert NotResumable(s.reqs[id]);
      }
    }
  }

  // The first loop takes nobody into `running`.

  lemma {:induction false} MakeRoomOnlyRemoves(c: Config, env: Env, p: Pass, id: Id, tokens: int)
    ensures forall x :: x in MakeRoom(c, env, p, id, tokens).p.s.running ==> x in p.s.running
    decreases |p.s.running|
  {
    if SlotAsk(p.s.kv.Keys, id, tokens) in env.refused && p.s.running != [] {
      VictimGone(c, p);
      VictimCount(c, p);
      hide PreemptVictim, VictimIndex;
      if p.s.running[VictimIndex(c, p.s)] != id {
        MakeRoomOnlyRemoves(c, env, PreemptVictim(c, p), id, tokens);
      }
    }
  }

  lemma VictimGone(c: Config, p: Pass)
    requires p.s.running != []
    ensures forall x :: x in PreemptVictim(c, p).s.running ==> x in p.s.running
  {
    RemoveAtCounts(p.s.running, VictimIndex(c, p.s));
    hide VictimIndex;
  }

  lemma RunningStepOnlyRemoves(c: Config, env: Env, p: Pass)
    requires !RunningDone(p)
    ensures forall x :: x in RunningStep(c, env, p).s.running ==> x in p.s.running
  {
    hide MakeRoom, RunningPlan;
    var id := p.s.running[p.idx];
    MakeRoomOnlyRemoves(c, env, p, id, At(p.s, id).computed + RunningPlan(c, env, p, id).n + c.lookahead);
  }

  lemma {:induction false} RunningLoopOnlyRemoves(c: Config, env: Env, p: Pass)
    ensures forall x :: x in RunningLoop(c, env, p).s.running ==> x in p.s.running
    decreases !p.stop, |p.s.running| - p.idx
  {
    if !RunningDone(p) {
      hide RunningStep, RunningDone;
      RunningStepOnlyRemoves(c, env, p);
      RunningStepDecreases(c, env, p);
      RunningLoopOnlyRemoves(c, env, RunningStep(c, env, p));
    }
  }

  // ------------------------------------------------------------------ both loops

  function Tokens(c: Config, s: State): int { if s.pause.PausedAll? then 0 else c.maxScheduled }

  lemma StartInv(c: Config, env: Env, s: State)
    requires Rest(c, s) && EnvOk(env, s)
    ensures RunningInv(c, env, Tokens(c, s), Start(c, s)) && Quiet(s, Start(c, s))
  {
  }

  /** What holds when both loops are done. */
  ghost predicate PassOk(c: Config, s: State, p: Pass) {
    && Partition(p.s, []) && Books(c, Tokens(c, s), p) && Sound(c, p)
    && Framed(c, s, p.s)
    && |p.s.running| <= c.maxRunning && !p.invalid
    && (forall id :: id in p.resumed ==> id !in s.prev && id in p.order)
  }

  lemma {:induction false} FirstLoop(c: Config, env: Env, s: State)
    requires Rest(c, s) && EnvOk(env, s)
    ensures var p := RunningLoop(c, env, Start(c, s));
            && RunningInv(c, env, Tokens(c, s), p) && Quiet(s, p) && Framed(c, s, p.s)
            && (p.preempted == [] ==> PrevOk(p.s) && p.s.prev == s.prev)
  {
    StartInv(c, env, s);
    RestParts(c, s);
    hide Rest, RunningInv, Quiet, Partition, EnvOk, RunningLoop, Framed, PrevOk;
    RunningLoopInv(c, env, Tokens(c, s), Start(c, s));
    RunningLoopQuiet(c, env, s, Start(c, s));
    RunningLoopFramed(c, env, Start(c, s));
    QuietPrev(s, RunningLoop(c, env, Start(c, s)));
  }

  lemma RestParts(c: Config, s: State)
    requires Rest(c, s)
    ensures Partition(s, []) && AllReady(c, s) && AllKv(s) && PrevOk(s) && |s.running| <= c.maxRunning
    ensures Start(c, s).s == s
  {
  }

  ghost function SecondStart(c: Config, p: Pass): Pass {
    p.(stop := false, loras := if c.lora then LorasOf(p.s, p.order) else {})
  }

  lemma HandOver(c: Config, env: Env, s: State, p: Pass)
    requires RunningInv(c, env, Tokens(c, s), p) && Quiet(s, p) && |s.running| <= c.maxRunning
    requires p.preempted == [] && PrevOk(p.s)
    ensures WaitingInv(c, env, Tokens(c, s), SecondStart(c, p))
  {
    hide LorasOf, PrevOk, EnvOk, Partition;
  }

  lemma RequeueOk(c: Config, s: State, p: Pass)
    requires Partition(p.s, p.stepSkipped) && Books(c, Tokens(c, s), p) && Sound(c, p) && Framed(c, s, p.s)
    requires ResumedOk(p) && p.s.prev == s.prev && |p.s.running| <= c.maxRunning && !p.invalid
    ensures PassOk(c, s, Requeue(p))
  {
    RequeueKeeps(p);
    var q := Requeue(p);
    RequeueBooks(c, Tokens(c, s), p);
    assert AllReady(c, p.s) && AllKv(p.s) && AllPlanned(p);
    hide Partition, Books, Framed, AllReady, AllKv, AllPlanned;
    RequeueSound(c, p);
    RequeueFramed(c, s, p);
  }

  lemma RequeueKeeps(p: Pass)
    requires Partition(p.s, p.stepSkipped)
    ensures Partition(Requeue(p).s, [])
  {
    var q := Requeue(p);
    ReverseCounts(p.stepSkipped);
    assert multiset(q.s.skipped) == multiset(Reverse(p.stepSkipped)) + multiset(p.s.skipped);
    assert Unfinished(q.s) == Unfinished(p.s);
    assert Queued(q.s, []) == Queued(p.s, p.stepSkipped);
    RequeueStatuses(p);
  }

  lemma RequeueStatuses(p: Pass)
    requires StatusesAgree(p.s, p.stepSkipped)
    ensures StatusesAgree(Requeue(p).s, [])
  {
    ReverseCounts(p.stepSkipped);
    hide Reverse;
  }

  lemma RequeueBooks(c: Config, total: int, p: Pass)
    requires Books(c, total, p)
    ensures Books(c, total, Requeue(p))
  {
    hide Reverse;
  }

  lemma RequeueSound(c: Config, p: Pass)
    requires AllReady(c, p.s) && AllKv(p.s) && AllPlanned(p)
    ensures Sound(c, Requeue(p))
  {
    hide Reverse;
    SoundElsewhere(c, p, p.s, Requeue(p));
  }

  lemma RequeueFramed(c: Config, s: State, p: Pass)
    requires Framed(c, s, p.s)
    ensures Framed(c, s, Requeue(p).s)
  {
    hide Reverse;
  }

  lemma WaitingInvAll(c: Config, env: Env, total: int, p: Pass)
    requires WaitingInv(c, env, total, p)
    ensures Partition(p.s, p.stepSkipped) && Books(c, total, p) && Sound(c, p) && ResumedOk(p)
    ensures |p.s.running| <= c.maxRunning && !p.invalid
  {
  }

  lemma PrevFixedStep(c: Config, env: Env, p: Pass)
    requires !WaitingDone(c, p) && Partition(p.s, p.stepSkipped)
    ensures WaitingStep(c, env, p).s.prev == p.s.prev
  {
    ConsiderFits(c, env, p);
    var ch := Consider(c, env, p, Peek(c, p.s));
    PopOnlyQueues(c, p.s, ch.s);
    ConsiderPrev(c, env, p, Peek(c, p.s));
    hide Consider, Peek, Pop, StartKv, Partition;
  }

  lemma ConsiderPrev(c: Config, env: Env, p: Pass, id: Id)
    ensures Consider(c, env, p, id).s.prev == p.s.prev
  {
    hide WaitingPlan, Granted;
  }

  lemma {:induction false} PrevFixed(c: Config, env: Env, p: Pass)
    requires Partition(p.s, p.stepSkipped)
    ensures WaitingLoop(c, env, p).s.prev == p.s.prev
    decreases !p.stop, |p.s.waiting| + |p.s.skipped|
  {
    if !WaitingDone(c, p) {
      PrevFixedStep(c, env, p);
      WaitingStepKeeps(c, env, p);
      hide WaitingStep, Partition;
      PrevFixed(c, env, WaitingStep(c, env, p));
    }
  }

  lemma {:induction false} SecondLoop(c: Config, env: Env, s: State, p: Pass)
    requires WaitingInv(c, env, Tokens(c, s), p) && Framed(c, s, p.s) && p.s.prev == s.prev
    ensures PassOk(c, s, Requeue(WaitingLoop(c, env, p)))
  {
    WaitingInvAll(c, env, Tokens(c, s), p);
    hide WaitingInv, PassOk, Requeue, WaitingLoop, Framed, Partition, Books, Sound, ResumedOk;
    var q := WaitingLoop(c, env, p);
    WaitingLoopInv(c, env, Tokens(c, s), p);
    WaitingInvAll(c, env, Tokens(c, s), q);
    WaitingLoopFramed(c, env, p);
    FramedTransitive(c, s, p.s, q.s);
    PrevFixed(c, env, p);
    RequeueOk(c, s, q);
  }

  lemma NoSecondLoop(c: Config, env: Env, s: State, p: Pass)
    requires RunningInv(c, env, Tokens(c, s), p) && Quiet(s, p) && Framed(c, s, p.s) && |s.running| <= c.maxRunning
    ensures PassOk(c, s, p)
  {
  }

  /** Every call of `schedule` from a state at rest ends with the books balanced. */
  lemma SchedulePassOk(c: Config, env: Env, s: State)
    requires Rest(c, s) && EnvOk(env, s)
    ensures PassOk(c, s, SchedulePass(c, env, s))
  {
    FirstLoop(c, env, s);
    var p := RunningLoop(c, env, Start(c, s));
    var q := SecondStart(c, p);
    RestParts(c, s);
    SecondStartFacts(c, p);
    hide Rest, RunningInv, Quiet, EnvOk, RunningLoop, WaitingLoop, Framed, PrevOk, PassOk, Requeue, Partition, WaitingInv, Start;
    if p.preempted == [] {
      HandOver(c, env, s, p);
      FramedSame(c, s, p.s, q.s);
      SecondLoop(c, env, s, q);
    }
    NoSecondLoop(c, env, s, p);
  }

  lemma SecondStartFacts(c: Config, p: Pass)
    ensures SecondStart(c, p).s == p.s
  {
  }

  lemma FramedSame(c: Config, s: State, t: State, u: State)
    requires Framed(c, s, t) && t == u
    ensures Framed(c, s, u)
  {
  }
}
