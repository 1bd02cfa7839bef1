/**
 * Token and encoder budgets, and what is scheduled for whom, inside one call of
 * `schedule`: nothing is lost when a request scheduled earlier in the step is
 * preempted, and nobody is scheduled twice.
 */
module Accounting {
  import opened Seqs
  import opened Requests
  import opened SchedulerSpec
  import opened QueuePartition
  import opened Frames

  // ------------------------------------------------------ what must hold at rest

  /** A request between two steps. */
  ghost predicate Ready(c: Config, v: View) {
    !IsFinished(v.status) ==>
      && v.all == v.prompt + v.output
      && 0 <= v.computed <= |v.all| && v.all != []
      && (v.resumable ==> v.spec == [])
      && (v.status == WaitingForStreamingReq ==>
            v.resumable && 0 < v.computed && |v.prompt| <= v.computed < |v.all| && v.queue == [])
      && (v.status != WaitingForStreamingReq ==> |v.all| < c.maxModelLen)
      && (v.status != WaitingForRemoteKvs ==> v.computed < |v.all|)
  }

  ghost predicate AllReady(c: Config, s: State) {
    && (forall id :: id in s.reqs ==> Ready(c, s.reqs[id]))
    && (forall id :: id in s.recvFailed ==>
          id in s.reqs && s.reqs[id].status == WaitingForRemoteKvs && s.reqs[id].computed < |s.reqs[id].all|)
  }

  ghost predicate PlanOk(ask: EncoderAsk, plan: EncoderPlan) {
    ask.n >= 0 && ask.budget >= 0 ==>
      0 <= plan.n <= ask.n && 0 <= plan.budget == ask.budget - Total(plan.embeds)
  }

  /**
   * What the other components guarantee: a local or synchronous cache hit is a proper
   * prefix, an asynchronous load is never empty, and an encoder plan stays
   * within what it was asked (see EncoderInputs.Plan).
   */
  ghost predicate EnvOk(env: Env, s: State) {
    && (forall id :: id in s.reqs ==>
          var r := RemoteHit(env, id);
          && Hit(env, id) < |s.reqs[id].all|
          && Hit(env, id) + r.tokens <= |s.reqs[id].all|
          && (r.isAsync ==> r.tokens > 0)
          && (!r.isAsync ==> Hit(env, id) + r.tokens < |s.reqs[id].all|))
    && (forall ask :: ask in env.encoder ==> PlanOk(ask, env.encoder[ask]))
  }

  lemma EnvFramed(c: Config, env: Env, s: State, t: State)
    requires EnvOk(env, s) && Framed(c, s, t)
    ensures EnvOk(env, t)
  {
    forall id | id in t.reqs ensures |t.reqs[id].all| == |s.reqs[id].all| {
      assert Touched(c, s.reqs[id], t.reqs[id]);
    }
  }

  // ------------------------------------------------------------------ the books

  /** Budgets and bookkeeping at any loop head. */
  ghost predicate Books(c: Config, total: int, p: Pass) {
    && p.budget >= 0 && p.encBudget >= 0
    && p.budget + Sum(p.order, p.num) == total
    && p.encBudget + Sum(p.order, p.encs) <= c.maxEncoder
    && NoDup(p.order)
    && (forall id :: id in p.num <==> id in p.order)
    && (forall id :: id in p.num ==> p.num[id] > 0)
    && (forall id :: id in p.encs ==> id in p.order && p.encs[id] >= 0)
    && (forall id :: id in p.specs ==> id in p.order)
    && (forall id :: id in p.order ==> id in p.s.running && id !in p.preempted)
  }

  /** In the first loop everything scheduled lies before `req_index`. */
  ghost predicate Behind(p: Pass) {
    p.idx >= 0 && forall id :: id in p.order ==> id in Take(p.s.running, p.idx)
  }

  /** While room is made for `id`. */
  ghost predicate Asking(c: Config, p: Pass, id: Id) {
    && id in p.s.running && id !in p.order
    && p.idx >= 0 && id in Take(p.s.running, p.idx + 1)
    && (!c.priority ==> 0 <= p.idx < |p.s.running| && p.s.running[p.idx] == id)
  }

  ghost predicate VictimsMarked(p: Pass) {
    forall id :: id in p.preempted ==> id !in p.s.running
  }

  lemma UnscheduleBooks(c: Config, total: int, p: Pass, id: Id)
    requires Books(c, total, p) && id in p.order
    ensures var q := Unschedule(p, id);
            && Books(c, total, q)
            && id !in q.order
            && (forall x :: x in q.order <==> x in p.order && x != id)
  {
    SumRemove(p.order, p.num, id);
    SumRemove(p.order, p.encs, id);
  }

  lemma VictimLeaves(c: Config, p: Pass)
    requires Partition(p.s, []) && p.s.running != []
    ensures var k := VictimIndex(c, p.s);
            var t := PreemptVictim(c, p).s;
            && t.running == RemoveAt(p.s.running, k)
            && (forall x :: x in t.running <==> x in p.s.running && x != p.s.running[k])
  {
    var k := VictimIndex(c, p.s);
    RunningNoDup(p.s, []);
    var r := RemoveAt(p.s.running, k);
    forall x ensures x in r <==> x in p.s.running && x != p.s.running[k] {
      if x in p.s.running && x != p.s.running[k] {
        var i :| 0 <= i < |p.s.running| && p.s.running[i] == x;
        assert r[if i < k then i else i - 1] == x;
      }
      if x in r {
        var i :| 0 <= i < |r| && r[i] == x;
        assert p.s.running[if i < k then i else i + 1] == x;
      }
    }
  }

  /** Without PRIORITY, the victim comes after everything scheduled so far. */
  lemma VictimNotScheduled(c: Config, p: Pass, id: Id)
    requires Partition(p.s, []) && Behind(p) && Asking(c, p, id) && !c.priority
    ensures p.s.running[VictimIndex(c, p.s)] !in p.order
  {
    RunningNoDup(p.s, []);
    LastNotInPrefix(p.s.running, p.idx);
  }

  lemma BooksWithoutVictim(c: Config, total: int, p: Pass, t: State, victim: Id)
    requires Books(c, total, p) && VictimsMarked(p) && victim !in p.order
    requires forall x :: x in t.running <==> x in p.s.running && x != victim
    ensures var q := p.(s := t, preempted := p.preempted + [victim]);
      Books(c, total, q) && VictimsMarked(q)
  {
  }

  /** `req_index` keeps pointing behind everything scheduled, with and without the repair. */
  lemma BehindWithoutVictim(p: Pass, k: nat, order: seq<Id>, idx: int, asker: Id)
    requires Behind(p) && k < |p.s.running| && NoDup(p.s.running)
    requires forall x :: x in order <==> x in p.order && x != p.s.running[k]
    requires idx == if p.s.running[k] in p.order then p.idx - 1 else p.idx
    ensures idx >= 0 && forall x :: x in order ==> x in Take(RemoveAt(p.s.running, k), idx)
    ensures asker in Take(p.s.running, p.idx + 1) && asker != p.s.running[k] ==>
      asker in Take(RemoveAt(p.s.running, k), idx + 1)
  {
    if p.s.running[k] in p.order {
      PrefixPosition(p.s.running, k, p.idx);
    }
    forall x | x in order ensures x in Take(RemoveAt(p.s.running, k), idx) {
      StillInPrefix(p.s.running, k, x, p.idx);
    }
    if asker in Take(p.s.running, p.idx + 1) && asker != p.s.running[k] {
      StillInPrefix(p.s.running, k, asker, p.idx + 1);
    }
  }

  lemma PreemptVictimShape(c: Config, p: Pass)
    requires p.s.running != []
    ensures var k := VictimIndex(c, p.s);
            var victim := p.s.running[k];
            var b := if c.priority && victim in p.order then Unschedule(p, victim) else p;
            PreemptVictim(c, p) == b.(s := PreemptVictim(c, p).s, preempted := b.preempted + [victim])
  {
    hide VictimIndex, Preempt;
  }

  lemma VictimCount(c: Config, p: Pass)
    requires p.s.running != []
    ensures |PreemptVictim(c, p).preempted| == |p.preempted| + 1
    ensures |PreemptVictim(c, p).s.running| == |p.s.running| - 1
  {
    hide VictimIndex;
  }

  lemma PreemptVictimBooks(c: Config, total: int, p: Pass, id: Id)
    requires Partition(p.s, []) && Books(c, total, p) && Behind(p) && Asking(c, p, id) && VictimsMarked(p)
    ensures var q := PreemptVictim(c, p); Books(c, total, q) && VictimsMarked(q)
  {
    var victim := p.s.running[VictimIndex(c, p.s)];
    if !c.priority {
      VictimNotScheduled(c, p, id);
    }
    var b := if c.priority && victim in p.order then Unschedule(p, victim) else p;
    if victim in p.order {
      UnscheduleBooks(c, total, p, victim);
    }
    assert Books(c, total, b) && VictimsMarked(b) && victim !in b.order;
    VictimLeaves(c, p);
    PreemptVictimShape(c, p);
    hide Partition, Books, PreemptVictim, VictimsMarked, Behind, Asking, VictimIndex;
    BooksWithoutVictim(c, total, b, PreemptVictim(c, p).s, victim);
  }

  lemma PreemptVictimBehind(c: Config, total: int, p: Pass, id: Id)
    requires Partition(p.s, []) && Books(c, total, p) && Behind(p) && Asking(c, p, id)
    ensures Behind(PreemptVictim(c, p))
    ensures p.s.running[VictimIndex(c, p.s)] != id ==> Asking(c, PreemptVictim(c, p), id)
  {
    hide Partition, Books, PreemptVictim, VictimIndex, Take;
    if !c.priority && p.s.running[VictimIndex(c, p.s)] != id {
      VictimNotScheduled(c, p, id);
      AskerBeforeVictim(c, p, id);
    }
    var k := VictimIndex(c, p.s);
    RunningNoDup(p.s, []);
    var q := PreemptVictim(c, p);
    VictimTakenBack(c, total, p, id);
    VictimLeaves(c, p);
    BehindWithoutVictim(p, k, q.order, q.idx, id);
  }

  /** Without PRIORITY the victim is the last one, so the asker keeps its position. */
  lemma AskerBeforeVictim(c: Config, p: Pass, id: Id)
    requires !c.priority && Asking(c, p, id) && p.s.running[VictimIndex(c, p.s)] != id
    ensures p.idx < |PreemptVictim(c, p).s.running| && PreemptVictim(c, p).s.running[p.idx] == id
  {
    var n := |p.s.running| - 1;
    assert RemoveAt(p.s.running, n) == p.s.running[..n];
  }

  lemma VictimTakenBack(c: Config, total: int, p: Pass, id: Id)
    requires Partition(p.s, []) && Books(c, total, p) && Behind(p) && Asking(c, p, id)
    ensures var q := PreemptVictim(c, p);
            var victim := p.s.running[VictimIndex(c, p.s)];
            && (forall x :: x in q.order <==> x in p.order && x != victim)
            && q.idx == if victim in p.order then p.idx - 1 else p.idx
  {
    var victim := p.s.running[VictimIndex(c, p.s)];
    if !c.priority {
      VictimNotScheduled(c, p, id);
    }
    if victim in p.order {
      UnscheduleBooks(c, total, p, victim);
    }
    PreemptVictimShape(c, p);
    hide Partition, Books, PreemptVictim, VictimIndex, Take, Behind, Asking;
  }

  lemma {:induction false} MakeRoomBooks(c: Config, env: Env, total: int, p: Pass, id: Id, tokens: int)
    requires Partition(p.s, []) && Books(c, total, p) && Behind(p) && Asking(c, p, id) && VictimsMarked(p)
    ensures var r := MakeRoom(c, env, p, id, tokens);
            && Books(c, total, r.p) && Behind(r.p) && VictimsMarked(r.p)
            && (r.ok ==> Asking(c, r.p, id))
            && r.p.budget >= p.budget && r.p.encBudget >= p.encBudget
    decreases |p.s.running|
  {
    if SlotAsk(p.s.kv.Keys, id, tokens) in env.refused {
      var q := PreemptVictim(c, p);
      PreemptVictimBooks(c, total, p, id);
      PreemptVictimBehind(c, total, p, id);
      PreemptVictimKeeps(c, p, []);
      RefundsOnly(c, total, p);
      if p.s.running[VictimIndex(c, p.s)] != id {
        hide Partition, PreemptVictim, VictimIndex, Books, Behind, VictimsMarked;
        MakeRoomBooks(c, env, total, q, id, tokens);
      }
    }
  }

  lemma RefundsOnly(c: Config, total: int, p: Pass)
    requires Books(c, total, p) && p.s.running != []
    ensures PreemptVictim(c, p).budget >= p.budget && PreemptVictim(c, p).encBudget >= p.encBudget
  {
    PreemptVictimShape(c, p);
  }

  // -------------------------------------------------------------------- readiness

  lemma PreemptReady(c: Config, p: Pass)
    requires AllReady(c, p.s) && Partition(p.s, []) && p.s.running != []
    ensures AllReady(c, PreemptVictim(c, p).s)
  {
    Member(p.s, [], p.s.running[VictimIndex(c, p.s)]);
  }

  /** Asking for room does not touch the asker while it is still running. */
  lemma {:induction false} AskerUntouched(c: Config, env: Env, p: Pass, id: Id, tokens: int)
    requires Partition(p.s, []) && id in p.s.running
    ensures var r := MakeRoom(c, env, p, id, tokens); r.ok ==> At(r.p.s, id) == At(p.s, id)
    decreases |p.s.running|
  {
    if SlotAsk(p.s.kv.Keys, id, tokens) in env.refused {
      var q := PreemptVictim(c, p);
      if p.s.running[VictimIndex(c, p.s)] != id {
        VictimLeaves(c, p);
        PreemptVictimKeeps(c, p, []);
        assert At(q.s, id) == At(p.s, id);
        hide Partition, PreemptVictim, VictimIndex, At;
        AskerUntouched(c, env, q, id, tokens);
      }
    }
  }

  /** The number of tokens planned for a running request. */
  lemma RunningPlanFacts(c: Config, env: Env, p: Pass, id: Id)
    requires id in p.s.reqs && Ready(c, p.s.reqs[id]) && p.s.reqs[id].status == Running
    requires EnvOk(env, p.s) && p.budget > 0 && p.encBudget >= 0
    ensures var v := p.s.reqs[id];
            var plan := RunningPlan(c, env, p, id);
            && 0 <= plan.n <= p.budget
            && v.computed + plan.n <= |v.all| + |v.spec|
            && v.computed + plan.n < c.maxModelLen
            && 0 <= plan.budget == p.encBudget - Total(plan.embeds)
            && Total(plan.embeds) >= 0
  {
    var v := p.s.reqs[id];
    var n := RunningWant(c, v, p.budget);
    assert 0 <= n <= p.budget;
    var plan := EncoderFor(env, v, id, v.computed, n, p.encBudget);
    assert 0 <= plan.n <= n;
    AlignedBounds(c, v, v.computed, plan.n);
    TotalNonNegative(plan.embeds);
  }

  lemma AlignedBounds(c: Config, v: View, computed: int, n: nat)
    ensures 0 <= Aligned(c, v, computed, n) <= n
  {
    if c.mamba && c.blockSize > 0 {
      M.SplitBounds(M.Prefill(|v.prompt|, |v.all|, c.blockSize, c.eagle), computed, n);
    }
  }

  lemma {:induction false} TotalNonNegative(s: seq<nat>)
    ensures Total(s) >= 0
  {
    if s != [] {
      TotalNonNegative(s[..|s| - 1]);
    }
  }

  /** Entering `id` into the books; the encoder budget may have been refunded since `before`. */
  lemma EnterBooks(c: Config, total: int, p: Pass, q: Pass, id: Id, plan: EncoderPlan, before: int)
    requires Books(c, total, p) && id !in p.order && id in q.s.running
    requires 0 < plan.n <= p.budget
    requires 0 <= before <= p.encBudget && 0 <= plan.budget == before - Total(plan.embeds) && Total(plan.embeds) >= 0
    requires q.budget == p.budget - plan.n && q.order == p.order + [id] && q.num == p.num[id := plan.n]
    requires q.encs == if plan.embeds != [] then p.encs[id := Total(plan.embeds)] else p.encs
    requires q.encBudget == if plan.embeds != [] then plan.budget else p.encBudget
    requires forall x :: x in q.specs ==> x in p.specs || x == id
    requires q.preempted == p.preempted && id !in p.preempted
    requires forall x :: x in p.s.running ==> x in q.s.running
    ensures Books(c, total, q)
  {
    SumAppend(p.order, p.num, id, plan.n);
    EncoderSum(p, q, id, plan);
    hide Sum;
  }

  lemma EncoderSum(p: Pass, q: Pass, id: Id, plan: EncoderPlan)
    requires id !in p.order && q.order == p.order + [id] && (forall x :: x in p.encs ==> x in p.order)
    requires q.encs == if plan.embeds != [] then p.encs[id := Total(plan.embeds)] else p.encs
    ensures Sum(q.order, q.encs) == Sum(p.order, p.encs) + (if plan.embeds != [] then Total(plan.embeds) else 0)
  {
    if plan.embeds != [] {
      SumAppend(p.order, p.encs, id, Total(plan.embeds));
    } else {
      assert q.order[..|p.order|] == p.order;
    }
  }

  lemma ScheduleRunningBooks(c: Config, total: int, p: Pass, id: Id, plan: EncoderPlan, before: int)
    requires Books(c, total, p) && VictimsMarked(p) && Asking(c, p, id)
    requires 0 < plan.n <= p.budget
    requires 0 <= before <= p.encBudget && 0 <= plan.budget == before - Total(plan.embeds) && Total(plan.embeds) >= 0
    ensures var q := ScheduleRunning(p, id, plan); Books(c, total, q) && VictimsMarked(q)
  {
    EnterBooks(c, total, p, ScheduleRunning(p, id, plan), id, plan, before);
  }

  lemma ScheduleRunningBehind(c: Config, p: Pass, id: Id, plan: EncoderPlan)
    requires Behind(p) && Asking(c, p, id)
    ensures Behind(ScheduleRunning(p, id, plan))
  {
    var q := ScheduleRunning(p, id, plan);
    forall x | x in q.order ensures x in Take(q.s.running, q.idx) {
      if x != id {
        assert x in p.order;
      }
    }
  }

  lemma AfterRoomBooks(c: Config, total: int, room: Room, id: Id, plan: EncoderPlan, before: int)
    requires Books(c, total, room.p) && Behind(room.p) && VictimsMarked(room.p)
    requires room.ok ==> Asking(c, room.p, id)
    requires 0 < plan.n <= room.p.budget
    requires 0 <= before <= room.p.encBudget
    requires 0 <= plan.budget == before - Total(plan.embeds) && Total(plan.embeds) >= 0
    ensures var q := AfterRoom(room, id, plan); Books(c, total, q) && Behind(q) && VictimsMarked(q)
  {
    if room.ok {
      ScheduleRunningBooks(c, total, room.p, id, plan, before);
      ScheduleRunningBehind(c, room.p, id, plan);
      hide Books, Behind, VictimsMarked, ScheduleRunning;
    }
  }

  lemma AskingNow(c: Config, total: int, p: Pass)
    requires Partition(p.s, []) && Books(c, total, p) && Behind(p) && !RunningDone(p)
    ensures Asking(c, p, p.s.running[p.idx])
  {
    var id := p.s.running[p.idx];
    RunningNoDup(p.s, []);
    assert Take(p.s.running, p.idx + 1)[p.idx] == id;
  }

  lemma PassedOverBooks(c: Config, total: int, p: Pass)
    requires Books(c, total, p) && Behind(p) && VictimsMarked(p)
    ensures var q := p.(idx := p.idx + 1); Books(c, total, q) && Behind(q) && VictimsMarked(q)
  {
    forall x | x in p.order ensures x in Take(p.s.running, p.idx + 1) {
      var i :| 0 <= i < |Take(p.s.running, p.idx)| && Take(p.s.running, p.idx)[i] == x;
      assert Take(p.s.running, p.idx + 1)[i] == x;
    }
  }

  lemma RunningHead(c: Config, p: Pass)
    requires Partition(p.s, []) && AllReady(c, p.s) && !RunningDone(p)
    ensures var id := p.s.running[p.idx];
      && id in p.s.reqs && p.s.reqs[id].status == Running && Ready(c, p.s.reqs[id]) && At(p.s, id) == p.s.reqs[id]
  {
    Member(p.s, [], p.s.running[p.idx]);
  }

  lemma {:induction false} PlannedStepBooks(c: Config, env: Env, total: int, p: Pass, id: Id, plan: EncoderPlan, tokens: int)
    requires Partition(p.s, []) && Books(c, total, p) && Behind(p) && VictimsMarked(p) && Asking(c, p, id)
    requires 0 < plan.n <= p.budget && p.encBudget >= 0
    requires 0 <= plan.budget == p.encBudget - Total(plan.embeds) && Total(plan.embeds) >= 0
    ensures var q := AfterRoom(MakeRoom(c, env, p, id, tokens), id, plan);
      Books(c, total, q) && Behind(q) && VictimsMarked(q)
  {
    hide Books, Partition, MakeRoom, Asking, AfterRoom, Behind, VictimsMarked, Total;
    MakeRoomBooks(c, env, total, p, id, tokens);
    AfterRoomBooks(c, total, MakeRoom(c, env, p, id, tokens), id, plan, p.encBudget);
  }

  lemma RunningStepBooks(c: Config, env: Env, total: int, p: Pass)
    requires Partition(p.s, []) && Books(c, total, p) && Behind(p) && VictimsMarked(p) && !RunningDone(p)
    requires AllReady(c, p.s) && EnvOk(env, p.s)
    ensures var q := RunningStep(c, env, p); Books(c, total, q) && Behind(q) && VictimsMarked(q)
  {
    hide RunningPlan, Books, Partition, AllReady, Ready, EnvOk, MakeRoom, Asking, AfterRoom, Behind, VictimsMarked, Total;
    var id := p.s.running[p.idx];
    var plan := RunningPlan(c, env, p, id);
    RunningHead(c, p);
    EncBudgetBound(c, total, p);
    RunningPlanFacts(c, env, p, id);
    if plan.n == 0 {
      PassedOverBooks(c, total, p);
    } else {
      AskingNow(c, total, p);
      PlannedStepBooks(c, env, total, p, id, plan, At(p.s, id).computed + plan.n + c.lookahead);
    }
  }

  lemma EncBudgetBound(c: Config, total: int, p: Pass)
    requires Books(c, total, p)
    ensures p.encBudget >= 0 && p.budget >= 0
  {
  }
}
