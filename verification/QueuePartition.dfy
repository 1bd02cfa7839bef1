/**
 * Every unfinished request sits in exactly one of `running`, `waiting` and
 * `skipped_waiting`, and its status agrees with the queue.
 */
module QueuePartition {
  import opened Seqs
  import opened Requests
  import opened SchedulerSpec

  /** All queue entries; `extra` is the local `step_skipped_waiting` of `schedule`. */
  ghost function Queued(s: State, extra: seq<Id>): multiset<Id> {
    multiset(s.running) + multiset(s.waiting) + multiset(s.skipped) + multiset(extra)
  }

  ghost predicate StatusesAgree(s: State, extra: seq<Id>) {
    && (forall id {:trigger id in s.running} :: id in s.running ==> At(s, id).status == Running)
    && (forall id {:trigger id in s.waiting} :: id in s.waiting ==> At(s, id).status in {Waiting, Preempted})
    && (forall id {:trigger id in s.skipped} :: id in s.skipped ==> At(s, id).status != Running)
    && (forall id {:trigger id in extra} :: id in extra ==> At(s, id).status != Running)
  }

  ghost predicate Partition(s: State, extra: seq<Id>) {
    Queued(s, extra) == multiset(Unfinished(s)) && StatusesAgree(s, extra)
  }

  lemma Member(s: State, extra: seq<Id>, id: Id)
    requires Partition(s, extra)
    ensures id in s.running || id in s.waiting || id in s.skipped || id in extra <==> id in Unfinished(s)
    ensures Queued(s, extra)[id] <= 1
  {
    assert id in Queued(s, extra) <==> id in Unfinished(s);
    assert multiset(Unfinished(s))[id] <= 1;
  }

  /** The headline: one queue each, RUNNING exactly in `running`, blocked only in `skipped`. */
  lemma ExactlyOneQueue(s: State, id: Id)
    requires Partition(s, []) && id in s.reqs && !IsFinished(s.reqs[id].status)
    ensures multiset(s.running)[id] + multiset(s.waiting)[id] + multiset(s.skipped)[id] == 1
    ensures s.reqs[id].status == Running <==> id in s.running
    ensures IsBlocked(s.reqs[id].status) ==> id in s.skipped
    ensures s.reqs[id].status == Preempted ==> id in s.waiting || id in s.skipped
  {
    Member(s, [], id);
    assert Queued(s, [])[id] == 1;
  }

  lemma FinishedInNoQueue(s: State, id: Id)
    requires Partition(s, []) && (id in s.reqs ==> IsFinished(s.reqs[id].status))
    ensures id !in s.running && id !in s.waiting && id !in s.skipped
  {
    Member(s, [], id);
  }

  lemma RunningNoDup(s: State, extra: seq<Id>)
    requires Partition(s, extra)
    ensures NoDup(s.running)
  {
    forall id | id in s.running ensures multiset(s.running)[id] == 1 {
      Member(s, extra, id);
    }
    NoDupByCount(s.running);
  }

  /** More requests are known than queued exactly if a finished one is still known. */
  lemma MoreThanQueued(s: State)
    requires Partition(s, [])
    ensures |s.reqs| > |s.waiting| + |s.skipped| + |s.running| <==>
      exists id :: id in s.reqs && IsFinished(s.reqs[id].status)
  {
    var left := Unfinished(s);
    var done := set id | id in s.reqs && IsFinished(s.reqs[id].status);
    assert s.reqs.Keys == left + done && left !! done;
    assert |s.reqs| == |s.reqs.Keys|;
    assert |multiset(left)| == |left|;
    assert |Queued(s, [])| == |s.running| + |s.waiting| + |s.skipped|;
    assert |done| > 0 <==> done != {};
    assert done != {} <==> exists id :: id in done;
  }

  // ---------------------------------------------------------- single updates

  /** Moving `id` from position `k` of `running` to the front of `waiting`, as PREEMPTED. */
  lemma PreemptKeeps(s: State, k: nat, extra: seq<Id>)
    requires Partition(s, extra) && k < |s.running|
    ensures Partition(Preempt(s.(running := RemoveAt(s.running, k)), s.running[k]), extra)
  {
    var id := s.running[k];
    var t := Preempt(s.(running := RemoveAt(s.running, k)), id);
    Member(s, extra, id);
    RemoveAtCounts(s.running, k);
    assert Unfinished(t) == Unfinished(s);
    assert multiset(t.waiting) == multiset{id} + multiset(s.waiting);
    assert Queued(t, extra) == Queued(s, extra);
    OthersKeepStatus(s, t, id, extra);
  }

  lemma OthersKeepStatus(s: State, t: State, id: Id, extra: seq<Id>)
    requires Partition(s, extra) && id in s.running && id in s.reqs
    requires t.reqs == s.reqs[id := At(t, id)] && At(t, id).status == Preempted
    requires multiset(t.running) == multiset(s.running) - multiset{id}
    requires t.waiting == [id] + s.waiting && t.skipped == s.skipped
    ensures StatusesAgree(t, extra)
  {
    Member(s, extra, id);
    assert multiset(s.running)[id] <= Queued(s, extra)[id];
    assert multiset(t.running)[id] == 0;
    forall x | x in t.running ensures At(t, x).status == Running {
      assert multiset(t.running)[x] > 0;
      assert x in s.running && x != id;
    }
    forall x | x in t.skipped ensures At(t, x).status != Running {
      assert x in s.skipped;
    }
    forall x | x in extra ensures At(t, x).status != Running {
      assert At(s, x).status != Running;
    }
  }

  lemma PreemptVictimKeeps(c: Config, p: Pass, extra: seq<Id>)
    requires Partition(p.s, extra) && p.s.running != []
    ensures Partition(PreemptVictim(c, p).s, extra)
  {
    PreemptKeeps(p.s, VictimIndex(c, p.s), extra);
  }

  lemma {:induction false} MakeRoomKeeps(c: Config, env: Env, p: Pass, id: Id, tokens: int, extra: seq<Id>)
    requires Partition(p.s, extra)
    ensures Partition(MakeRoom(c, env, p, id, tokens).p.s, extra)
    decreases |p.s.running|
  {
    if SlotAsk(p.s.kv.Keys, id, tokens) in env.refused && p.s.running != [] {
      PreemptVictimKeeps(c, p, extra);
      if p.s.running[VictimIndex(c, p.s)] != id {
        MakeRoomKeeps(c, env, PreemptVictim(c, p), id, tokens, extra);
      }
    }
  }

  /** A request that was made room for is still running. */
  lemma {:induction false} MakeRoomKeepsAsker(c: Config, env: Env, p: Pass, id: Id, tokens: int, extra: seq<Id>)
    requires Partition(p.s, extra) && id in p.s.running
    ensures var r := MakeRoom(c, env, p, id, tokens); r.ok ==> id in r.p.s.running
    decreases |p.s.running|
  {
    if SlotAsk(p.s.kv.Keys, id, tokens) in env.refused {
      var k := VictimIndex(c, p.s);
      if p.s.running[k] != id {
        PreemptVictimKeeps(c, p, extra);
        OthersStay(c, p, id);
        hide Partition, PreemptVictim, VictimIndex;
        MakeRoomKeepsAsker(c, env, PreemptVictim(c, p), id, tokens, extra);
      }
    }
  }

  lemma OthersStay(c: Config, p: Pass, id: Id)
    requires id in p.s.running && p.s.running[VictimIndex(c, p.s)] != id
    ensures id in PreemptVictim(c, p).s.running && |PreemptVictim(c, p).s.running| < |p.s.running|
  {
    var k := VictimIndex(c, p.s);
    RemoveAtCounts(p.s.running, k);
    assert id in multiset(RemoveAt(p.s.running, k));
  }

  /** Writing back an unfinished request without changing its status. */
  lemma PutSameStatus(s: State, id: Id, v: View, extra: seq<Id>)
    requires Partition(s, extra) && id in Unfinished(s) && v.status == s.reqs[id].status
    ensures Partition(Put(s, id, v), extra)
  {
    var t := Put(s, id, v);
    assert Unfinished(t) == Unfinished(s);
    assert forall x :: At(t, x).status == At(s, x).status;
  }

  lemma AfterRoomKeeps(room: Room, id: Id, plan: EncoderPlan)
    requires Partition(room.p.s, []) && (room.ok ==> id in room.p.s.running)
    ensures Partition(AfterRoom(room, id, plan).s, [])
  {
    if room.ok {
      Member(room.p.s, [], id);
      PutSameStatus(room.p.s, id, At(room.p.s, id).(spec := []), []);
    }
  }

  lemma RunningStepKeeps(c: Config, env: Env, p: Pass)
    requires Partition(p.s, []) && !RunningDone(p)
    ensures Partition(RunningStep(c, env, p).s, [])
  {
    hide MakeRoom, RunningPlan, AfterRoom, Partition;
    var id := p.s.running[p.idx];
    var plan := RunningPlan(c, env, p, id);
    var tokens := At(p.s, id).computed + plan.n + c.lookahead;
    MakeRoomKeeps(c, env, p, id, tokens, []);
    MakeRoomKeepsAsker(c, env, p, id, tokens, []);
    AfterRoomKeeps(MakeRoom(c, env, p, id, tokens), id, plan);
  }

  lemma {:induction false} RunningLoopKeeps(c: Config, env: Env, p: Pass)
    requires Partition(p.s, [])
    ensures Partition(RunningLoop(c, env, p).s, [])
    decreases !p.stop, |p.s.running| - p.idx
  {
    if !RunningDone(p) {
      RunningStepKeeps(c, env, p);
      RunningLoopKeeps(c, env, RunningStep(c, env, p));
    }
  }

  // ------------------------------------------------------------- second loop

  /** The partition with `id` taken out of its queue. */
  ghost predicate PartitionBut(s: State, extra: seq<Id>, id: Id) {
    && id in Unfinished(s)
    && id !in Queued(s, extra)
    && Queued(s, extra) + multiset{id} == multiset(Unfinished(s))
    && StatusesAgree(s, extra)
  }

  lemma HeadIsQueued(c: Config, s: State, extra: seq<Id>)
    requires Partition(s, extra) && (s.waiting != [] || s.skipped != [])
    ensures var id := Peek(c, s);
            && (id in s.waiting || id in s.skipped)
            && id in Unfinished(s) && id !in s.running && id !in extra
            && (UseSkipped(c, s) ==> id in s.skipped) && (!UseSkipped(c, s) ==> id in s.waiting)
            && At(s, id).status != Running
            && (IsBlocked(At(s, id).status) ==> id in s.skipped)
  {
    var id := Peek(c, s);
    Member(s, extra, id);
    assert multiset(s.waiting)[id] + multiset(s.skipped)[id] + multiset(s.running)[id] + multiset(extra)[id] <= 1;
  }

  lemma StatusesStay(s: State, t: State, extra: seq<Id>)
    requires StatusesAgree(s, extra) && t.reqs == s.reqs
    requires t.running == s.running
    requires forall x :: x in t.waiting ==> x in s.waiting
    requires forall x :: x in t.skipped ==> x in s.skipped
    ensures StatusesAgree(t, extra)
  {
  }

  lemma PopSkipped(s: State, k: nat, extra: seq<Id>)
    requires Partition(s, extra) && k < |s.skipped|
    ensures PartitionBut(s.(skipped := RemoveAt(s.skipped, k)), extra, s.skipped[k])
  {
    var t, id := s.(skipped := RemoveAt(s.skipped, k)), s.skipped[k];
    Member(s, extra, id);
    RemoveAtCounts(s.skipped, k);
    assert Unfinished(t) == Unfinished(s);
    assert Queued(s, extra) == Queued(t, extra) + multiset{id};
    StatusesStay(s, t, extra);
  }

  lemma PopWaiting(s: State, k: nat, extra: seq<Id>)
    requires Partition(s, extra) && k < |s.waiting|
    ensures PartitionBut(s.(waiting := RemoveAt(s.waiting, k)), extra, s.waiting[k])
  {
    var t, id := s.(waiting := RemoveAt(s.waiting, k)), s.waiting[k];
    Member(s, extra, id);
    RemoveAtCounts(s.waiting, k);
    assert Unfinished(t) == Unfinished(s);
    assert Queued(s, extra) == Queued(t, extra) + multiset{id};
    StatusesStay(s, t, extra);
  }

  lemma PopFacts(c: Config, from: State, s: State, extra: seq<Id>)
    requires from.waiting == s.waiting && from.skipped == s.skipped
    requires s.waiting != [] || s.skipped != []
    requires Partition(s, extra)
    ensures PartitionBut(Pop(c, from, s), extra, Peek(c, from))
  {
    hide Partition, PartitionBut, HeadIndex;
    if UseSkipped(c, from) {
      PopSkipped(s, HeadIndex(c, from, s.skipped), extra);
    } else {
      PopWaiting(s, HeadIndex(c, from, s.waiting), extra);
    }
  }

  /** The partition only depends on the requests and the queues. */
  lemma SamePartition(s: State, t: State, extra: seq<Id>)
    requires Partition(s, extra)
    requires t.reqs == s.reqs && t.running == s.running && t.waiting == s.waiting && t.skipped == s.skipped
    ensures Partition(t, extra)
  {
  }

  lemma PutAside(s: State, extra: seq<Id>, id: Id, v: View)
    requires PartitionBut(s, extra, id) && !IsFinished(v.status) && v.status != Running
    ensures Partition(Put(s, id, v), [id] + extra)
  {
    var t := Put(s, id, v);
    assert Unfinished(t) == Unfinished(s);
    assert multiset([id] + extra) == multiset{id} + multiset(extra);
    OthersUntouched(s, extra, id);
  }

  lemma OthersUntouched(s: State, extra: seq<Id>, id: Id)
    requires id !in Queued(s, extra)
    ensures id !in s.running && id !in s.waiting && id !in s.skipped && id !in extra
  {
    assert id !in multiset(s.running) && id !in multiset(s.waiting);
    assert id !in multiset(s.skipped) && id !in multiset(extra);
  }

  lemma PutRunning(s: State, extra: seq<Id>, id: Id, v: View)
    requires PartitionBut(s, extra, id) && v.status == Running
    ensures Partition(Put(s, id, v).(running := s.running + [id]), extra)
  {
    var t := Put(s, id, v).(running := s.running + [id]);
    assert Unfinished(t) == Unfinished(s);
    assert multiset(s.running + [id]) == multiset(s.running) + multiset{id};
    OthersUntouched(s, extra, id);
  }

  /** Promotion only touches the promoted request, which ends WAITING or PREEMPTED. */
  lemma PromoteFacts(env: Env, s: State, id: Id)
    requires id in s.reqs
    ensures var r := Promote(env, s, id);
            && (r.Some? ==> r.value.reqs == s.reqs[id := At(r.value, id)])
            && (r.Some? && IsBlocked(At(s, id).status) ==> At(r.value, id).status in {Waiting, Preempted})
            && (r.Some? && !IsBlocked(At(s, id).status) ==> r.value == s)
            && (r.Some? ==> r.value.running == s.running && r.value.waiting == s.waiting && r.value.skipped == s.skipped)
            && (r.Some? ==> At(r.value, id) == At(s, id).(status := At(r.value, id).status, computed := At(r.value, id).computed))
  {
    assert s.reqs[id := At(s, id)] == s.reqs;
  }

  lemma PromoteKeeps(env: Env, s: State, id: Id, extra: seq<Id>)
    requires Partition(s, extra) && id in Unfinished(s)
    requires IsBlocked(At(s, id).status) ==> id in s.skipped
    ensures var r := Promote(env, s, id);
            r.Some? ==> Partition(r.value, extra) && Unfinished(r.value) == Unfinished(s)
  {
    var r := Promote(env, s, id);
    PromoteFacts(env, s, id);
    if r.Some? && IsBlocked(At(s, id).status) {
      hide Promote;
      Member(s, extra, id);
      assert multiset(s.running)[id] + multiset(s.waiting)[id] + multiset(s.skipped)[id] <= Queued(s, extra)[id];
      assert multiset(s.skipped)[id] >= 1;
      assert id !in multiset(s.running) && id !in multiset(s.waiting);
      assert Unfinished(r.value) == Unfinished(s);
    }
  }

  /** Whatever is decided, the state the decision is based on comes from a promotion attempt. */
  lemma ConsiderState(c: Config, env: Env, p: Pass, id: Id)
    requires id in p.s.reqs
    ensures var ch := Consider(c, env, p, id);
            var promoted := Promote(env, p.s, id);
            && ch.s == (if promoted.Some? then promoted.value else p.s)
            && (promoted.None? ==> ch.SkipOver?)
  {
    hide Promote, WaitingPlan, Granted;
  }

  lemma ConsiderKeeps(c: Config, env: Env, p: Pass)
    requires Partition(p.s, p.stepSkipped) && (p.s.waiting != [] || p.s.skipped != [])
    ensures var id := Peek(c, p.s);
            var s := Consider(c, env, p, id).s;
            && Partition(s, p.stepSkipped)
            && id in Unfinished(p.s) && id in Unfinished(s)
            && At(s, id).status != Running
            && (Consider(c, env, p, id).LoadRemote? || Consider(c, env, p, id).Admit? ==>
                  At(s, id).status in {Waiting, Preempted})
  {
    var id := Peek(c, p.s);
    HeadIsQueued(c, p.s, p.stepSkipped);
    PromoteKeeps(env, p.s, id, p.stepSkipped);
    PromoteFacts(env, p.s, id);
    ConsiderState(c, env, p, id);
    hide Consider, Promote, Partition;
    var st := At(p.s, id).status;
    assert !IsBlocked(st) && st != Running && !IsFinished(st) ==> st in {Waiting, Preempted};
  }

  lemma PopOnlyQueues(c: Config, from: State, s: State)
    requires from.waiting == s.waiting && from.skipped == s.skipped
    requires s.waiting != [] || s.skipped != []
    ensures var t := Pop(c, from, s); t == s.(waiting := t.waiting, skipped := t.skipped)
  {
  }

  lemma PutBack(s: State, id: Id)
    requires id in s.reqs
    ensures Put(s, id, At(s, id)) == s
  {
    assert s.reqs[id := s.reqs[id]] == s.reqs;
  }

  lemma AdmitKeeps(c: Config, p: Pass, from: State, id: Id, ch: Choice)
    requires ch.Admit?
    requires from.waiting == ch.s.waiting && from.skipped == ch.s.skipped
    requires from.waiting != [] || from.skipped != []
    requires Partition(ch.s, p.stepSkipped) && id == Peek(c, from) && At(ch.s, id).status in {Waiting, Preempted}
    ensures var q := AdmitRequest(c, p, from, id, ch);
            && Partition(q.s, p.stepSkipped) && q.stepSkipped == p.stepSkipped
            && q.s.running == ch.s.running + [id]
            && q.invalid == p.invalid
  {
    PopFacts(c, from, ch.s, p.stepSkipped);
    hide Peek, Pop, Partition, PartitionBut, StartKv;
    var v := At(ch.s, id).(status := Running, computed := ch.computed);
    var t := Pop(c, from, ch.s);
    PutRunning(t, p.stepSkipped, id, v);
    SamePartition(Put(t, id, v).(running := t.running + [id]), AdmitRequest(c, p, from, id, ch).s, p.stepSkipped);
  }

  lemma SetAsideKeeps(c: Config, p: Pass, s: State, v: View, kv: map<Id, seq<Token>>)
    requires Partition(s, p.stepSkipped) && s.waiting == p.s.waiting && s.skipped == p.s.skipped
    requires p.s.waiting != [] || p.s.skipped != []
    requires !IsFinished(v.status) && v.status != Running
    ensures Partition(Put(Pop(c, p.s, s), Peek(c, p.s), v).(kv := kv), [Peek(c, p.s)] + p.stepSkipped)
  {
    PopFacts(c, p.s, s, p.stepSkipped);
    hide Peek, Pop, Partition, PartitionBut;
    var id, t := Peek(c, p.s), Pop(c, p.s, s);
    PutAside(t, p.stepSkipped, id, v);
    SamePartition(Put(t, id, v), Put(t, id, v).(kv := kv), [id] + p.stepSkipped);
  }

  ghost predicate Fits(c: Config, p: Pass, ch: Choice) {
    && ch.s.waiting == p.s.waiting && ch.s.skipped == p.s.skipped && ch.s.running == p.s.running
    && (p.s.waiting != [] || p.s.skipped != [])
    && Partition(ch.s, p.stepSkipped)
    && Peek(c, p.s) in Unfinished(ch.s) && At(ch.s, Peek(c, p.s)).status != Running
    && (ch.LoadRemote? || ch.Admit? ==> At(ch.s, Peek(c, p.s)).status in {Waiting, Preempted})
  }

  lemma SkipKeeps(c: Config, p: Pass, ch: Choice)
    requires Fits(c, p, ch) && ch.SkipOver?
    ensures var q := Apply(c, p, Peek(c, p.s), ch); Partition(q.s, q.stepSkipped)
  {
    var id := Peek(c, p.s);
    PopOnlyQueues(c, p.s, ch.s);
    PutBack(Pop(c, p.s, ch.s), id);
    SetAsideKeeps(c, p, ch.s, At(ch.s, id), Pop(c, p.s, ch.s).kv);
  }

  lemma LoadKeeps(c: Config, p: Pass, ch: Choice)
    requires Fits(c, p, ch) && ch.LoadRemote?
    ensures var q := Apply(c, p, Peek(c, p.s), ch); Partition(q.s, q.stepSkipped)
  {
    hide Peek, Pop, Partition, StartKv;
    var id := Peek(c, p.s);
    var v := At(ch.s, id).(status := WaitingForRemoteKvs, computed := ch.computed);
    SetAsideKeeps(c, p, ch.s, v, StartKv(ch.s, id, ch.computed));
  }

  lemma ApplyKeeps(c: Config, p: Pass, ch: Choice)
    requires Fits(c, p, ch)
    ensures var q := Apply(c, p, Peek(c, p.s), ch);
            && Partition(q.s, q.stepSkipped)
            && q.invalid == p.invalid
            && (q.s.running == p.s.running || q.s.running == p.s.running + [Peek(c, p.s)])
  {
    if ch.SkipOver? {
      SkipKeeps(c, p, ch);
      PopOnlyQueues(c, p.s, ch.s);
    } else if ch.LoadRemote? {
      LoadKeeps(c, p, ch);
      PopOnlyQueues(c, p.s, ch.s);
    } else if ch.Admit? {
      AdmitKeeps(c, p, p.s, Peek(c, p.s), ch);
    }
  }

  lemma ConsiderFits(c: Config, env: Env, p: Pass)
    requires Partition(p.s, p.stepSkipped) && (p.s.waiting != [] || p.s.skipped != [])
    ensures Fits(c, p, Consider(c, env, p, Peek(c, p.s)))
  {
    var id := Peek(c, p.s);
    ConsiderKeeps(c, env, p);
    ConsiderState(c, env, p, id);
    PromoteFacts(env, p.s, id);
    hide Consider, Promote, Peek, Partition;
  }

  lemma WaitingStepKeeps(c: Config, env: Env, p: Pass)
    requires Partition(p.s, p.stepSkipped) && !WaitingDone(c, p)
    ensures var q := WaitingStep(c, env, p);
            && Partition(q.s, q.stepSkipped)
            && q.invalid == p.invalid
            && |q.s.running| <= |p.s.running| + 1
  {
    ConsiderFits(c, env, p);
    hide Consider, Peek, Partition, Apply;
    ApplyKeeps(c, p, Consider(c, env, p, Peek(c, p.s)));
  }

  lemma {:induction false} WaitingLoopKeeps(c: Config, env: Env, p: Pass)
    requires Partition(p.s, p.stepSkipped) && |p.s.running| <= c.maxRunning
    ensures var q := WaitingLoop(c, env, p);
            && Partition(q.s, q.stepSkipped)
            && q.invalid == p.invalid
            && |q.s.running| <= c.maxRunning
    decreases !p.stop, |p.s.waiting| + |p.s.skipped|
  {
    if !WaitingDone(c, p) {
      WaitingStepKeeps(c, env, p);
      hide WaitingStep;
      WaitingLoopKeeps(c, env, WaitingStep(c, env, p));
    }
  }
}
