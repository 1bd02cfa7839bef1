/** Under PRIORITY nobody is preempted for a less urgent request. */
module PriorityOrder {
  import opened Requests
  import opened SchedulerSpec
  import opened Urgency
  import opened QueuePartition
  import opened Frames
  import opened Accounting
  import opened ScheduleStep
  import opened Engine
  import opened EngineStep
  import opened ReportStep
  import A = ArrivalOrder

  /** Priorities and arrival times are those of `s`. */
  ghost predicate SameUrgency(s: State, t: State) {
    forall id {:trigger t.reqs[id]} {:trigger s.reqs[id]} :: id in s.reqs ==>
      id in t.reqs && t.reqs[id].priority == s.reqs[id].priority && t.reqs[id].arrival == s.reqs[id].arrival
  }

  /** No victim is more urgent than a request still running, and all are requests of `s`. */
  ghost predicate Fair(s: State, p: Pass) {
    && (forall id {:trigger id in p.s.running} :: id in p.s.running ==> id in s.reqs)
    && (forall victim {:trigger victim in p.preempted} :: victim in p.preempted ==> victim in s.reqs)
    && forall victim, other {:trigger victim in p.preempted, other in p.s.running} ::
         victim in p.preempted && other in p.s.running ==> !MoreUrgent(At(s, victim), At(s, other))
  }

  lemma FramedUrgency(c: Config, s: State, t: State)
    requires Framed(c, s, t)
    ensures SameUrgency(s, t)
  {
    forall id | id in s.reqs
      ensures id in t.reqs && t.reqs[id].priority == s.reqs[id].priority && t.reqs[id].arrival == s.reqs[id].arrival
    {
      assert Touched(c, s.reqs[id], t.reqs[id]);
    }
  }

  /** The next victim is the least urgent of all that run. */
  lemma VictimIsFair(c: Config, s: State, p: Pass)
    requires c.priority && Partition(p.s, []) && SameUrgency(s, p.s) && Fair(s, p) && p.s.running != []
    ensures Fair(s, PreemptVictim(c, p))
  {
    hide Partition, PreemptVictim, VictimIndex, MoreUrgent, SameUrgency;
    var victim := p.s.running[VictimIndex(c, p.s)];
    assert victim in p.s.running && victim in s.reqs;
    forall other | other in p.s.running ensures !MoreUrgent(At(s, victim), At(s, other)) {
      LeastOfRunning(c, p.s, other);
      AlikeUrgent(s, p.s, victim, other);
    }
    VictimLeaves(c, p);
    PreemptVictimShape(c, p);
  }

  lemma LeastOfRunning(c: Config, s: State, other: Id)
    requires c.priority && other in s.running
    ensures !MoreUrgent(At(s, s.running[VictimIndex(c, s)]), At(s, other))
  {
    LeastUrgentIsFirst(s, s.running);
    hide LeastUrgent, MoreUrgent;
  }

  lemma AlikeUrgent(s: State, t: State, a: Id, b: Id)
    requires SameUrgency(s, t) && a in s.reqs && b in s.reqs
    ensures MoreUrgent(At(s, a), At(s, b)) == MoreUrgent(At(t, a), At(t, b))
  {
  }

  lemma {:induction false} MakeRoomFair(c: Config, env: Env, s: State, p: Pass, id: Id, tokens: int)
    requires c.priority && Partition(p.s, []) && SameUrgency(s, p.s) && Fair(s, p)
    ensures Fair(s, MakeRoom(c, env, p, id, tokens).p)
    decreases |p.s.running|
  {
    hide Partition, SameUrgency, Fair, Framed;
    if SlotAsk(p.s.kv.Keys, id, tokens) in env.refused && p.s.running != [] {
      var q := PreemptVictim(c, p);
      VictimIsFair(c, s, p);
      PreemptVictimKeeps(c, p, []);
      PreemptVictimFramed(c, p, []);
      FramedUrgency(c, p.s, q.s);
      UrgencyTwice(s, p.s, q.s);
      VictimCount(c, p);
      hide PreemptVictim, VictimIndex;
      if p.s.running[VictimIndex(c, p.s)] != id {
        MakeRoomFair(c, env, s, q, id, tokens);
      }
    }
  }

  lemma UrgencyTwice(s: State, t: State, u: State)
    requires SameUrgency(s, t) && SameUrgency(t, u)
    ensures SameUrgency(s, u)
  {
  }

  lemma RunningStepFair(c: Config, env: Env, s: State, p: Pass)
    requires c.priority && Partition(p.s, []) && SameUrgency(s, p.s) && Fair(s, p) && !RunningDone(p)
    ensures Fair(s, RunningStep(c, env, p))
  {
    hide MakeRoom, RunningPlan, Partition, SameUrgency;
    var id := p.s.running[p.idx];
    MakeRoomFair(c, env, s, p, id, At(p.s, id).computed + RunningPlan(c, env, p, id).n + c.lookahead);
  }

  lemma {:induction false} RunningLoopFair(c: Config, env: Env, s: State, p: Pass)
    requires c.priority && Partition(p.s, []) && SameUrgency(s, p.s) && Fair(s, p)
    ensures Fair(s, RunningLoop(c, env, p))
    decreases !p.stop, |p.s.running| - p.idx
  {
    if !RunningDone(p) {
      RunningStepDecreases(c, env, p);
      hide Partition, SameUrgency, Fair, Framed, RunningStep, RunningDone;
      var q := RunningStep(c, env, p);
      RunningStepFair(c, env, s, p);
      RunningStepKeeps(c, env, p);
      RunningStepFramed(c, env, p);
      FramedUrgency(c, p.s, q.s);
      UrgencyTwice(s, p.s, q.s);
      RunningLoopFair(c, env, s, q);
    }
  }

  lemma StartFair(c: Config, s: State)
    requires Partition(s, [])
    ensures Fair(s, Start(c, s)) && SameUrgency(s, Start(c, s).s)
  {
    forall id | id in s.running ensures id in s.reqs {
      Member(s, [], id);
    }
    hide Partition;
  }

  /** After a preemption the second loop is skipped, so the first loop decides. */
  lemma PassFair(c: Config, env: Env, s: State)
    requires c.priority && Rest(c, s)
    ensures var p := SchedulePass(c, env, s); p.preempted != [] ==> Fair(s, p)
  {
    RestParts(c, s);
    hide Rest, Partition, Fair, SameUrgency, RunningLoop, WaitingLoop, Requeue, LorasOf, Start;
    StartFair(c, s);
    RunningLoopFair(c, env, s, Start(c, s));
    var p := RunningLoop(c, env, Start(c, s));
    A.WaitingKeepsVictims(c, env, p.(stop := false, loras := if c.lora then LorasOf(p.s, p.order) else {}));
  }

  /**
   * In every step of every run under PRIORITY, no preempted request is more
   * urgent than one that is still running after the step.
   */
  lemma VictimsLeastUrgent(c: Config, run: seq<Event>, env: Env, victim: Id, other: Id)
    requires c.priority && LegalRun(c, INITIAL, run)
    requires var e := After(c, INITIAL, run);
      && Legal(c, e, Event.Step(env))
      && victim in SchedulePass(c, env, e.s).preempted && other in Schedule(c, env, e.s).running
    ensures var s := After(c, INITIAL, run).s;
            var v, w := At(s, victim), At(s, other);
      v.priority > w.priority || (v.priority == w.priority && v.arrival >= w.arrival)
  {
    hide EngineInv, LegalRun, After, SchedulePass, Legal, Rest, EnvOk;
    InitialInv(c);
    RunKeepsInv(c, INITIAL, run);
    var e := After(c, INITIAL, run);
    StepParts(c, e, env);
    AtRest(c, e);
    PassFair(c, env, e.s);
  }
}
