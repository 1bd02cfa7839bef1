/** What `schedule` leaves alone: tokens, queues of streaming input, finished requests, counters. */
module Frames {
  import opened Requests
  import opened SchedulerSpec
  import opened QueuePartition

  /** Only scheduling data may change, and neither finishing nor awaiting input starts or ends. */
  ghost predicate Touched(c: Config, v: View, w: View) {
    && w == v.(status := w.status, computed := w.computed, spec := w.spec, prefill := w.prefill,
               preemptions := w.preemptions)
    && (v.status == WaitingForStreamingReq <==> w.status == WaitingForStreamingReq)
    && (IsFinished(v.status) <==> IsFinished(w.status))
    && (IsFinished(v.status) || v.status == WaitingForStreamingReq ==> w == v)
    && (w.status == WaitingForRemoteKvs && !c.connector ==> v.status == WaitingForRemoteKvs)
  }

  ghost predicate Framed(c: Config, s: State, t: State) {
    && t.reqs.Keys == s.reqs.Keys
    && (forall id {:trigger t.reqs[id]} {:trigger s.reqs[id]} :: id in s.reqs ==> Touched(c, s.reqs[id], t.reqs[id]))
    && t.numStreaming == s.numStreaming && t.pause == s.pause && t.finishedIds == s.finishedIds
  }

  lemma FramedTransitive(c: Config, s: State, t: State, u: State)
    requires Framed(c, s, t) && Framed(c, t, u)
    ensures Framed(c, s, u)
  {
    forall id | id in s.reqs ensures Touched(c, s.reqs[id], u.reqs[id]) {
      assert Touched(c, s.reqs[id], t.reqs[id]) && Touched(c, t.reqs[id], u.reqs[id]);
    }
  }

  /** Rewriting one unfinished request within the frame. */
  lemma PutFramed(c: Config, s: State, t: State, id: Id)
    requires id in s.reqs && t.reqs == s.reqs[id := At(t, id)] && Touched(c, s.reqs[id], At(t, id))
    requires t.numStreaming == s.numStreaming && t.pause == s.pause && t.finishedIds == s.finishedIds
    ensures Framed(c, s, t)
  {
  }

  lemma PreemptVictimFramed(c: Config, p: Pass, extra: seq<Id>)
    requires Partition(p.s, extra) && p.s.running != []
    ensures Framed(c, p.s, PreemptVictim(c, p).s)
  {
    var id := p.s.running[VictimIndex(c, p.s)];
    Member(p.s, extra, id);
    PutFramed(c, p.s, PreemptVictim(c, p).s, id);
  }

  lemma {:induction false} MakeRoomFramed(c: Config, env: Env, p: Pass, id: Id, tokens: int, extra: seq<Id>)
    requires Partition(p.s, extra)
    ensures Framed(c, p.s, MakeRoom(c, env, p, id, tokens).p.s)
    decreases |p.s.running|
  {
    if SlotAsk(p.s.kv.Keys, id, tokens) in env.refused && p.s.running != [] {
      PreemptVictimFramed(c, p, extra);
      if p.s.running[VictimIndex(c, p.s)] != id {
        PreemptVictimKeeps(c, p, extra);
        hide Partition, PreemptVictim, VictimIndex, Framed;
        var q := PreemptVictim(c, p);
        MakeRoomFramed(c, env, q, id, tokens, extra);
        FramedTransitive(c, p.s, q.s, MakeRoom(c, env, q, id, tokens).p.s);
      }
    }
  }

  lemma AfterRoomFramed(c: Config, s: State, room: Room, id: Id, plan: EncoderPlan)
    requires Framed(c, s, room.p.s) && Partition(room.p.s, []) && (room.ok ==> id in room.p.s.running)
    ensures Framed(c, s, AfterRoom(room, id, plan).s)
  {
    if room.ok {
      Member(room.p.s, [], id);
      PutFramed(c, room.p.s, AfterRoom(room, id, plan).s, id);
      hide Partition, Framed, AfterRoom;
      FramedTransitive(c, s, room.p.s, AfterRoom(room, id, plan).s);
    }
  }

  lemma RunningStepFramed(c: Config, env: Env, p: Pass)
    requires Partition(p.s, []) && !RunningDone(p)
    ensures Framed(c, p.s, RunningStep(c, env, p).s)
  {
    hide MakeRoom, RunningPlan, AfterRoom, Partition;
    var id := p.s.running[p.idx];
    var plan := RunningPlan(c, env, p, id);
    var tokens := At(p.s, id).computed + plan.n + c.lookahead;
    MakeRoomKeeps(c, env, p, id, tokens, []);
    MakeRoomKeepsAsker(c, env, p, id, tokens, []);
    MakeRoomFramed(c, env, p, id, tokens, []);
    AfterRoomFramed(c, p.s, MakeRoom(c, env, p, id, tokens), id, plan);
  }

  lemma {:induction false} RunningLoopFramed(c: Config, env: Env, p: Pass)
    requires Partition(p.s, [])
    ensures Framed(c, p.s, RunningLoop(c, env, p).s)
    decreases !p.stop, |p.s.running| - p.idx
  {
    if !RunningDone(p) {
      RunningStepKeeps(c, env, p);
      RunningStepFramed(c, env, p);
      var q := RunningStep(c, env, p);
      RunningStepDecreases(c, env, p);
      hide Partition, Framed, RunningStep, RunningDone;
      RunningLoopFramed(c, env, q);
      FramedTransitive(c, p.s, q.s, RunningLoop(c, env, q).s);
    }
  }

  lemma RunningStepDecreases(c: Config, env: Env, p: Pass)
    requires !RunningDone(p)
    ensures var q := RunningStep(c, env, p);
      !p.stop && (q.stop || |q.s.running| - q.idx < |p.s.running| - p.idx)
  {
    hide RunningPlan, MakeRoom;
  }

  // ------------------------------------------------------------- second loop

  lemma ConsiderFramed(c: Config, env: Env, p: Pass, id: Id)
    requires id in Unfinished(p.s) && At(p.s, id).status != Running
    ensures Framed(c, p.s, Consider(c, env, p, id).s)
  {
    ConsiderState(c, env, p, id);
    PromoteFacts(env, p.s, id);
    var s := Consider(c, env, p, id).s;
    PromoteCounters(env, p.s, id);
    hide Consider, Promote;
    assert p.s.reqs[id := At(p.s, id)] == p.s.reqs;
    PutFramed(c, p.s, s, id);
  }

  lemma PromoteCounters(env: Env, s: State, id: Id)
    ensures var r := Promote(env, s, id);
      r.Some? ==>
        (&& r.value.numStreaming == s.numStreaming && r.value.pause == s.pause && r.value.finishedIds == s.finishedIds
         && (At(s, id).status == WaitingForStreamingReq <==> At(r.value, id).status == WaitingForStreamingReq))
  {
  }

  lemma ConsiderLoads(c: Config, env: Env, p: Pass, id: Id)
    ensures Consider(c, env, p, id).LoadRemote? ==> c.connector
  {
    hide Promote, WaitingPlan, Granted;
  }

  /** Carrying out a decision rewrites the entry of the head only. */
  lemma ApplyView(c: Config, p: Pass, id: Id, ch: Choice)
    requires ch.s.waiting == p.s.waiting && ch.s.skipped == p.s.skipped
    requires p.s.waiting != [] || p.s.skipped != []
    requires id in ch.s.reqs
    ensures var t := Apply(c, p, id, ch).s;
            var v := ch.s.reqs[id];
            && t.numStreaming == ch.s.numStreaming && t.pause == ch.s.pause && t.finishedIds == ch.s.finishedIds
            && t.reqs == ch.s.reqs[id := At(t, id)]
            && At(t, id) == match ch {
                 case Halt(_) => v
                 case SkipOver(_) => v
                 case LoadRemote(_, computed) => v.(status := WaitingForRemoteKvs, computed := computed)
                 case Admit(_, computed, _) => v.(status := Running, computed := computed)
               }
  {
    PopOnlyQueues(c, p.s, ch.s);
    hide Pop, StartKv;
    assert ch.s.reqs[id := ch.s.reqs[id]] == ch.s.reqs;
  }

  /** A request that is not the head is neither changed, nor started, nor scheduled. */
  lemma WaitingStepOthers(c: Config, env: Env, p: Pass, id: Id)
    requires Partition(p.s, p.stepSkipped) && !WaitingDone(c, p) && id != Peek(c, p.s)
    ensures var q := WaitingStep(c, env, p);
            && (id in q.s.reqs <==> id in p.s.reqs) && At(q.s, id) == At(p.s, id)
            && (id in q.s.running <==> id in p.s.running)
            && (id in q.order <==> id in p.order) && (id in q.num <==> id in p.num)
  {
    hide Partition, Peek, Consider, Promote, Apply;
    var head := Peek(c, p.s);
    HeadIsQueued(c, p.s, p.stepSkipped);
    ConsiderState(c, env, p, head);
    PromoteFacts(env, p.s, head);
    var ch := Consider(c, env, p, head);
    ApplyView(c, p, head, ch);
    ApplyLists(c, p, head, ch);
  }

  /** Only the head enters `running` and the scheduled requests, and only when it is admitted. */
  lemma ApplyLists(c: Config, p: Pass, head: Id, ch: Choice)
    requires ch.s.waiting == p.s.waiting && ch.s.skipped == p.s.skipped && ch.s.running == p.s.running
    requires p.s.waiting != [] || p.s.skipped != []
    ensures var q := Apply(c, p, head, ch);
      if ch.Admit?
      then q.s.running == p.s.running + [head] && q.order == p.order + [head] && q.num == p.num[head := ch.plan.n]
      else q.s.running == p.s.running && q.order == p.order && q.num == p.num
  {
    PopOnlyQueues(c, p.s, ch.s);
    hide Pop, StartKv;
  }

  lemma ApplyFramed(c: Config, p: Pass, ch: Choice)
    requires Fits(c, p, ch) && Framed(c, p.s, ch.s) && (ch.LoadRemote? ==> c.connector)
    ensures Framed(c, p.s, Apply(c, p, Peek(c, p.s), ch).s)
  {
    hide Peek, Partition, Framed, Apply;
    var id := Peek(c, p.s);
    ApplyView(c, p, id, ch);
    var t := Apply(c, p, id, ch).s;
    PutFramed(c, ch.s, t, id);
    FramedTransitive(c, p.s, ch.s, t);
  }

  lemma WaitingStepFramed(c: Config, env: Env, p: Pass)
    requires Partition(p.s, p.stepSkipped) && !WaitingDone(c, p)
    ensures Framed(c, p.s, WaitingStep(c, env, p).s)
  {
    ConsiderFits(c, env, p);
    HeadIsQueued(c, p.s, p.stepSkipped);
    hide Consider, Partition, Apply, Peek, Framed;
    ConsiderFramed(c, env, p, Peek(c, p.s));
    ConsiderLoads(c, env, p, Peek(c, p.s));
    ApplyFramed(c, p, Consider(c, env, p, Peek(c, p.s)));
  }

  lemma {:induction false} WaitingLoopFramed(c: Config, env: Env, p: Pass)
    requires Partition(p.s, p.stepSkipped)
    ensures Framed(c, p.s, WaitingLoop(c, env, p).s)
    decreases !p.stop, |p.s.waiting| + |p.s.skipped|
  {
    if !WaitingDone(c, p) {
      WaitingStepKeeps(c, env, p);
      WaitingStepFramed(c, env, p);
      var q := WaitingStep(c, env, p);
      hide WaitingStep, Partition, Framed;
      WaitingLoopFramed(c, env, q);
      FramedTransitive(c, p.s, q.s, WaitingLoop(c, env, q).s);
    }
  }
}
