/** What one call of `schedule` makes of each known request, in every step of every run. */
module RequestFates {
  import opened Seqs
  import opened Requests
  import opened SchedulerSpec
  import opened QueuePartition
  import opened Frames
  import opened Accounting
  import opened Planning
  import opened Admission
  import opened ScheduleStep
  import opened StepCounts
  import opened WaitingLine

  // -------------------------------------------------------------------------------- first loop

  /** A preempted request. */
  function StartingOver(v: View): View {
    v.(status := Preempted, computed := 0, spec := [], preemptions := v.preemptions + 1)
  }

  /** A running request is preempted, and starts over; or it stays, and gives away its drafts when it is scheduled. */
  ghost predicate RunningFate(s: State, p: Pass, id: Id) {
    var v := At(s, id);
    && SameNotes(s, p.s, id)
    && if id in p.preempted
       then
         && At(p.s, id) == StartingOver(v)
         && id !in p.s.kv && id !in p.s.running && id !in p.order
       else
         && At(p.s, id) == v.(spec := if id in p.order then [] else v.spec)
         && (id in p.s.kv <==> id in s.kv) && id in p.s.running
  }

  ghost predicate Bystander(s: State, p: Pass, id: Id) {
    AsBefore(s, p.s, id) && id !in p.preempted && id !in p.order && id !in p.s.running
  }

  /** The invariant of the first loop. */
  ghost predicate Watched(s: State, p: Pass) {
    forall id :: if id in s.running then RunningFate(s, p, id) else Bystander(s, p, id)
  }

  lemma PreemptOnly(s: State, id: Id)
    ensures var t := Preempt(s, id);
      && At(t, id) == StartingOver(At(s, id))
      && id !in t.kv && t.running == s.running && SameNotes(s, t, id)
      && forall x :: x != id ==> AsBefore(s, t, x)
  {
  }

  lemma LeavesOnce<T>(q: seq<T>, k: nat)
    requires k < |q| && multiset(q)[q[k]] == 1
    ensures forall x :: x in RemoveAt(q, k) <==> x in q && x != q[k]
  {
    RemoveAtCounts(q, k);
    forall x ensures x in RemoveAt(q, k) <==> x in q && x != q[k] {
      assert x in RemoveAt(q, k) <==> x in multiset(RemoveAt(q, k));
    }
  }

  lemma RunsOnce(s: State, id: Id)
    requires Partition(s, []) && id in s.running
    ensures multiset(s.running)[id] == 1
  {
    Member(s, [], id);
    assert multiset(s.running)[id] <= Queued(s, [])[id];
  }

  /** Under FCFS nothing scheduled is taken back; no need, as the victim was not. */
  ghost predicate VictimFree(c: Config, p: Pass) {
    p.s.running != [] && (!c.priority ==> p.s.running[|p.s.running| - 1] !in p.order)
  }

  lemma VictimOrder(c: Config, p: Pass)
    requires VictimFree(c, p) && NoDup(p.order)
    ensures var victim, q := p.s.running[VictimIndex(c, p.s)], PreemptVictim(c, p);
      && q.preempted == p.preempted + [victim]
      && forall x :: x in q.order <==> x in p.order && x != victim
  {
    var victim := p.s.running[VictimIndex(c, p.s)];
    PreemptVictimShape(c, p);
    hide PreemptVictim, LeastUrgent;
    if victim in p.order {
      SumRemove(p.order, p.num, victim);
    }
    hide VictimIndex, Remove;
  }

  lemma VictimState(c: Config, p: Pass)
    requires p.s.running != []
    ensures var k := VictimIndex(c, p.s);
      PreemptVictim(c, p).s == Preempt(p.s.(running := RemoveAt(p.s.running, k)), p.s.running[k])
  {
    hide VictimIndex, Preempt;
  }

  /** Only the victim changes, and it leaves `running` and the scheduled requests. */
  lemma VictimOnly(c: Config, p: Pass)
    requires Partition(p.s, []) && VictimFree(c, p) && NoDup(p.order)
    ensures var victim, q := p.s.running[VictimIndex(c, p.s)], PreemptVictim(c, p);
      && victim in p.s.running && victim !in q.s.running && victim !in q.order && victim !in q.s.kv
      && q.preempted == p.preempted + [victim]
      && At(q.s, victim) == StartingOver(At(p.s, victim))
      && SameNotes(p.s, q.s, victim)
      && forall x :: x != victim ==>
           AsBefore(p.s, q.s, x) && (x in q.s.running <==> x in p.s.running) && (x in q.order <==> x in p.order)
  {
    var k := VictimIndex(c, p.s);
    var victim := p.s.running[k];
    var r := p.s.(running := RemoveAt(p.s.running, k));
    VictimOrder(c, p);
    VictimState(c, p);
    RunsOnce(p.s, victim);
    LeavesOnce(p.s.running, k);
    PreemptOnly(r, victim);
    hide VictimIndex, Partition, PreemptVictim, Preempt, RemoveAt, NoDup;
    forall x | x != victim ensures AsBefore(p.s, PreemptVictim(c, p).s, x) {
      assert AsBefore(r, PreemptVictim(c, p).s, x);
    }
  }

  lemma VictimFate(s: State, p: Pass, q: Pass, victim: Id, id: Id)
    requires if id in s.running then RunningFate(s, p, id) else Bystander(s, p, id)
    requires victim in p.s.running && victim !in q.s.running && victim !in q.order && victim !in q.s.kv
    requires q.preempted == p.preempted + [victim] && SameNotes(p.s, q.s, victim)
    requires At(q.s, victim) == StartingOver(At(p.s, victim))
    requires id != victim ==> AsBefore(p.s, q.s, id) && (id in q.s.running <==> id in p.s.running) && (id in q.order <==> id in p.order)
    ensures if id in s.running then RunningFate(s, q, id) else Bystander(s, q, id)
  {
    hide At;
    assert id in q.preempted <==> id in p.preempted || id == victim;
  }

  lemma VictimWatched(c: Config, s: State, p: Pass)
    requires Partition(p.s, []) && VictimFree(c, p) && NoDup(p.order) && Watched(s, p)
    ensures Watched(s, PreemptVictim(c, p))
  {
    var victim, q := p.s.running[VictimIndex(c, p.s)], PreemptVictim(c, p);
    VictimOnly(c, p);
    hide Partition, VictimIndex, PreemptVictim, NoDup, VictimFree, At, RunningFate, Bystander;
    forall id ensures if id in s.running then RunningFate(s, q, id) else Bystander(s, q, id) {
      assert if id in s.running then RunningFate(s, p, id) else Bystander(s, p, id);
      assert id != victim ==> AsBefore(p.s, q.s, id);
      VictimFate(s, p, q, victim, id);
    }
  }

  lemma FreeVictim(c: Config, total: int, p: Pass, id: Id)
    requires Partition(p.s, []) && Books(c, total, p) && Behind(p) && Asking(c, p, id)
    ensures VictimFree(c, p) && NoDup(p.order)
  {
    NonEmptyRunning(c, p, id);
    if !c.priority {
      VictimNotScheduled(c, p, id);
    }
    hide Partition, Behind, Asking, LeastUrgent;
  }

  lemma {:induction false} MakeRoomWatched(c: Config, env: Env, s: State, total: int, p: Pass, id: Id, tokens: int)
    requires Partition(p.s, []) && Books(c, total, p) && Behind(p) && VictimsMarked(p) && Asking(c, p, id) && Watched(s, p)
    ensures Watched(s, MakeRoom(c, env, p, id, tokens).p)
    decreases |p.s.running|
  {
    hide Partition, Books, Behind, VictimsMarked, Asking, Watched, PreemptVictim, VictimIndex, VictimFree;
    NonEmptyRunning(c, p, id);
    if SlotAsk(p.s.kv.Keys, id, tokens) in env.refused {
      FreeVictim(c, total, p, id);
      VictimWatched(c, s, p);
      PreemptVictimBooks(c, total, p, id);
      PreemptVictimBehind(c, total, p, id);
      PreemptVictimKeeps(c, p, []);
      VictimCount(c, p);
      if p.s.running[VictimIndex(c, p.s)] != id {
        MakeRoomWatched(c, env, s, total, PreemptVictim(c, p), id, tokens);
      }
    }
  }

  lemma ScheduledWatched(s: State, p: Pass, id: Id, plan: EncoderPlan)
    requires Watched(s, p) && id in p.s.running && id in p.s.reqs
    ensures Watched(s, ScheduleRunning(p, id, plan))
  {
    hide DraftsFor;
    var q := ScheduleRunning(p, id, plan);
    forall x ensures if x in s.running then RunningFate(s, q, x) else Bystander(s, q, x) {
      assert if x in s.running then RunningFate(s, p, x) else Bystander(s, p, x);
      assert x in q.order <==> x in p.order || x == id;
    }
  }

  lemma MovedOn(s: State, p: Pass, q: Pass)
    requires Watched(s, p) && q == p.(idx := q.idx, stop := q.stop)
    ensures Watched(s, q)
  {
    forall x ensures if x in s.running then RunningFate(s, q, x) else Bystander(s, q, x) {
      assert if x in s.running then RunningFate(s, p, x) else Bystander(s, p, x);
    }
  }

  lemma RoomWatched(c: Config, env: Env, s: State, total: int, p: Pass, id: Id, plan: EncoderPlan, tokens: int)
    requires Partition(p.s, []) && Books(c, total, p) && Behind(p) && VictimsMarked(p) && Asking(c, p, id) && Watched(s, p)
    requires id in p.s.running
    ensures Watched(s, AfterRoom(MakeRoom(c, env, p, id, tokens), id, plan))
  {
    hide Watched, MakeRoom, Partition, Books, Behind, VictimsMarked, Asking, ScheduleRunning;
    MakeRoomWatched(c, env, s, total, p, id, tokens);
    var room := MakeRoom(c, env, p, id, tokens);
    if room.ok {
      MakeRoomKeeps(c, env, p, id, tokens, []);
      MakeRoomKeepsAsker(c, env, p, id, tokens, []);
      RunningKnown(room.p.s, id);
      ScheduledWatched(s, room.p, id, plan);
    } else {
      MovedOn(s, room.p, room.p.(stop := true));
    }
  }

  lemma AskingRuns(c: Config, p: Pass, id: Id)
    requires Asking(c, p, id)
    ensures id in p.s.running
  {
  }

  lemma RunningStepWatched(c: Config, env: Env, s: State, total: int, p: Pass)
    requires RunningInv(c, env, total, p) && Watched(s, p) && !RunningDone(p)
    ensures Watched(s, RunningStep(c, env, p))
  {
    hide RunningPlan, RunningInv, Watched, MakeRoom, AfterRoom, Partition, Books, Behind, VictimsMarked, Asking, At;
    RunningParts(c, env, total, p);
    AskingNow(c, total, p);
    var id := p.s.running[p.idx];
    AskingRuns(c, p, id);
    var plan := RunningPlan(c, env, p, id);
    if plan.n == 0 {
      MovedOn(s, p, p.(idx := p.idx + 1));
    } else {
      RoomWatched(c, env, s, total, p, id, plan, At(p.s, id).computed + plan.n + c.lookahead);
    }
  }

  lemma {:induction false} RunningLoopWatched(c: Config, env: Env, s: State, total: int, p: Pass)
    requires RunningInv(c, env, total, p) && Watched(s, p)
    ensures Watched(s, RunningLoop(c, env, p))
    decreases !p.stop, |p.s.running| - p.idx
  {
    if !RunningDone(p) {
      RunningStepDecreases(c, env, p);
      RunningStepWatched(c, env, s, total, p);
      RunningStepInv(c, env, total, p);
      hide RunningInv, Watched, RunningStep, RunningDone;
      RunningLoopWatched(c, env, s, total, RunningStep(c, env, p));
    }
  }

  lemma StartWatched(c: Config, env: Env, s: State)
    requires Rest(c, s) && EnvOk(env, s)
    ensures Watched(s, RunningLoop(c, env, Start(c, s)))
  {
    StartInv(c, env, s);
    assert Watched(s, Start(c, s));
    hide RunningInv, Rest, EnvOk, Start, RunningLoop, Watched;
    RunningLoopWatched(c, env, s, Tokens(c, s), Start(c, s));
  }

  // ----------------------------------------------------------- nobody is passed over, or preempted, for nothing

  /** Not a single token may be given to `id`; with encoder inputs or block alignment it may also be that none is left. */
  predicate NothingFor(c: Config, env: Env, s: State, id: Id) { !Allowed(c, env, s, id, 1) || c.mamba || At(s, id).enc }

  /** The KV manager refused a running request the slots for tokens that it may be given. */
  ghost predicate Refused(c: Config, env: Env, s: State) {
    exists id: Id, holders: set<Id>, n: int ::
      && id in s.running && Allowed(c, env, s, id, n) && n != 0 && holders <= s.kv.Keys + s.reqs.Keys
      && SlotAsk(holders, id, SlotTokens(c, env, s, id, n)) in env.refused
  }

  /** As long as nobody was preempted, all in front of the index have what they may get. */
  ghost predicate Fair(c: Config, env: Env, s: State, p: Pass) {
    && (p.preempted == [] ==>
          !p.stop && forall i :: 0 <= i < p.idx && i < |p.s.running| ==>
            p.s.running[i] in p.order || NothingFor(c, env, s, p.s.running[i]))
    && (p.preempted != [] ==> Refused(c, env, s) && (p.stop || p.order != []))
  }

  lemma PassedByFair(c: Config, env: Env, s: State, p: Pass)
    requires Fair(c, env, s, p) && 0 <= p.idx < |p.s.running| && NothingFor(c, env, s, p.s.running[p.idx])
    ensures Fair(c, env, s, p.(idx := p.idx + 1))
  {
    hide NothingFor;
  }

  lemma ScheduledFair(c: Config, env: Env, s: State, p: Pass, id: Id, plan: EncoderPlan)
    requires p.preempted == [] ==> Fair(c, env, s, p) && 0 <= p.idx < |p.s.running| && p.s.running[p.idx] == id
    requires p.preempted != [] ==> Refused(c, env, s)
    ensures Fair(c, env, s, ScheduleRunning(p, id, plan))
  {
    hide NothingFor, DraftsFor, Refused;
  }

  lemma StoppedFair(c: Config, env: Env, s: State, p: Pass)
    requires p.preempted != [] && Refused(c, env, s)
    ensures Fair(c, env, s, p.(stop := true))
  {
    hide Refused;
  }

  lemma AskedNow(c: Config, env: Env, s: State, p: Pass, id: Id, n: int)
    requires id in s.running && At(p.s, id) == At(s, id) && At(s, id).status == Running && Allowed(c, env, s, id, n) && n != 0
    requires p.s.kv.Keys <= s.kv.Keys + s.reqs.Keys
    ensures SlotAsk(p.s.kv.Keys, id, At(p.s, id).computed + n + c.lookahead) in env.refused ==> Refused(c, env, s)
  {
    assert SlotTokens(c, env, s, id, n) == At(p.s, id).computed + n + c.lookahead;
    hide Allowed, SlotTokens;
  }

  lemma RoomFair(c: Config, env: Env, s: State, p: Pass, id: Id, plan: EncoderPlan, tokens: int)
    requires Fair(c, env, s, p) && 0 <= p.idx < |p.s.running| && p.s.running[p.idx] == id
    requires SlotAsk(p.s.kv.Keys, id, tokens) in env.refused ==> Refused(c, env, s)
    ensures Fair(c, env, s, AfterRoom(MakeRoom(c, env, p, id, tokens), id, plan))
  {
    MakeRoomQuiet(c, env, p, id, tokens);
    var room := MakeRoom(c, env, p, id, tokens);
    assert SlotAsk(p.s.kv.Keys, id, tokens) !in env.refused ==> room.ok && room.p == p;
    assert p.preempted != [] ==> Refused(c, env, s);
    hide MakeRoom, ScheduleRunning, Refused, Fair;
    if room.ok {
      ScheduledFair(c, env, s, room.p, id, plan);
    } else {
      StoppedFair(c, env, s, room.p);
    }
  }

  lemma StepFair(c: Config, env: Env, s: State, total: int, p: Pass)
    requires FirstInv(c, env, s, total, p) && !RunningDone(p) && Fair(c, env, s, p)
    ensures Fair(c, env, s, RunningStep(c, env, p))
  {
    hide RunningPlan, FirstInv, AfterRoom, MakeRoom, Allowed, EnvOk, Ready, At, Asking, Most, Fair, Refused;
    var id := p.s.running[p.idx];
    var plan := RunningPlan(c, env, p, id);
    NextUntouched(c, env, s, total, p);
    RunningPlanMost(c, env, s, p, id);
    FirstBlocks(c, env, s, total, p);
    if plan.n == 0 {
      NothingLeft(c, env, s, p, id);
      PassedByFair(c, env, s, p);
    } else {
      AskedNow(c, env, s, p, id, plan.n);
      RoomFair(c, env, s, p, id, plan, At(p.s, id).computed + plan.n + c.lookahead);
    }
  }

  lemma FirstBlocks(c: Config, env: Env, s: State, total: int, p: Pass)
    requires FirstInv(c, env, s, total, p)
    ensures p.s.kv.Keys <= s.kv.Keys + s.reqs.Keys
  {
  }

  lemma NothingLeft(c: Config, env: Env, s: State, p: Pass, id: Id)
    requires p.budget > 0 && Most(c, env, s, id, 0, p.budget)
    ensures NothingFor(c, env, s, id)
  {
    hide Base, Allowed;
  }

  lemma {:induction false} LoopFair(c: Config, env: Env, s: State, total: int, p: Pass)
    requires FirstInv(c, env, s, total, p) && Fair(c, env, s, p)
    ensures var q := RunningLoop(c, env, p); Fair(c, env, s, q) && RunningDone(q)
    decreases !p.stop, |p.s.running| - p.idx
  {
    if !RunningDone(p) {
      FirstStep(c, env, s, total, p);
      RunningStepDecreases(c, env, p);
      StepFair(c, env, s, total, p);
      hide FirstInv, Fair, RunningStep, RunningDone;
      LoopFair(c, env, s, total, RunningStep(c, env, p));
    }
  }

  lemma FirstStep(c: Config, env: Env, s: State, total: int, p: Pass)
    requires FirstInv(c, env, s, total, p) && !RunningDone(p)
    ensures FirstInv(c, env, s, total, RunningStep(c, env, p))
  {
    RunningStepCounted(c, env, s, total, p);
    RunningStepInv(c, env, total, p);
    RunningStepOnlyRemoves(c, env, p);
    hide RunningInv, Counted, Untouched, RunningStep, RunningDone;
  }

  /** What the first loop leaves undone, and why somebody was preempted. */
  ghost predicate FairEnd(c: Config, env: Env, s: State, p: Pass) {
    && (p.preempted == [] ==>
          forall id :: id in s.running ==> id in p.order || NothingFor(c, env, s, id) || p.budget <= 0)
    && (p.preempted != [] ==> Refused(c, env, s) && (p.stop || p.order != []))
  }

  lemma FirstLoopFair(c: Config, env: Env, s: State)
    requires Rest(c, s) && EnvOk(env, s)
    ensures FairEnd(c, env, s, RunningLoop(c, env, Start(c, s)))
  {
    StartCounted(c, env, s);
    assert Fair(c, env, s, Start(c, s));
    hide Rest, EnvOk, FirstInv, Fair, RunningLoop;
    LoopFair(c, env, s, Tokens(c, s), Start(c, s));
    StartWatched(c, env, s);
    FirstLoop(c, env, s);
    FairAtLast(c, env, s, RunningLoop(c, env, Start(c, s)));
  }

  lemma FairAtLast(c: Config, env: Env, s: State, p: Pass)
    requires Fair(c, env, s, p) && RunningDone(p) && Watched(s, p) && RunningInv(c, env, Tokens(c, s), p)
    ensures FairEnd(c, env, s, p)
  {
    hide Partition, Books, VictimsMarked, Sound, EnvOk, NothingFor, Refused;
    if p.preempted == [] {
      forall id | id in s.running ensures id in p.order || NothingFor(c, env, s, id) || p.budget <= 0 {
        assert RunningFate(s, p, id);
        assert id in p.s.running;
      }
    }
  }

  // ------------------------------------------------------------------------------- second loop

  ghost predicate Ran(s: State, p: Pass) { forall id :: id in s.running ==> RunningFate(s, p, id) }

  lemma RanStep(c: Config, env: Env, s: State, total: int, p: Pass)
    requires Rest(c, s) && EnvOk(env, s) && WaitingInv(c, env, total, p) && Line(c, env, s, p, {}) && !WaitingDone(c, p) && Ran(s, p)
    ensures Ran(s, WaitingStep(c, env, p))
  {
    var q := WaitingStep(c, env, p);
    WaitingStepInv(c, env, total, p);
    WaitingInvParts(c, env, total, p);
    WaitingInvParts(c, env, total, q);
    hide WaitingInv, Line, Partition, Rest, EnvOk, WaitingStep, Books, WaitingDone, RunningFate;
    forall id | id in s.running ensures RunningFate(s, q, id) {
      OthersInLine(c, env, s, total, p, id);
      WaitingStepOthers(c, env, p, id);
      RanStays(s, p, q, id);
    }
  }

  lemma RanStays(s: State, p: Pass, q: Pass, id: Id)
    requires RunningFate(s, p, id) && p.preempted == q.preempted == [] && AsBefore(p.s, q.s, id)
    requires (id in q.s.running <==> id in p.s.running) && (id in q.order <==> id in p.order)
    ensures RunningFate(s, q, id)
  {
    hide At;
  }

  lemma {:induction false} RanLoop(c: Config, env: Env, s: State, total: int, p: Pass)
    requires Rest(c, s) && EnvOk(env, s) && WaitingInv(c, env, total, p) && Line(c, env, s, p, {}) && !p.stop && Ran(s, p)
    ensures Ran(s, WaitingLoop(c, env, p))
    decreases |p.s.waiting| + |p.s.skipped|
  {
    hide WaitingInv, WaitingStep, Line, Partition, Rest, EnvOk, Stuck, WaitingDone, Ran;
    if !WaitingDone(c, p) {
      WaitingStepInv(c, env, total, p);
      LineStep(c, env, s, total, p);
      RanStep(c, env, s, total, p);
      var q := WaitingStep(c, env, p);
      if q.stop {
        StoppedDone(c, q);
      } else {
        RanLoop(c, env, s, total, q);
      }
    }
  }

  /** Where the second loop starts. */
  lemma LineStart(c: Config, env: Env, s: State)
    requires Rest(c, s) && EnvOk(env, s) && RunningLoop(c, env, Start(c, s)).preempted == []
    ensures var p := SecondStart(c, RunningLoop(c, env, Start(c, s)));
      Line(c, env, s, p, {}) && Ran(s, p) && !p.stop
  {
    hide Rest, EnvOk, RunningLoop, Start, LorasOf, Aside, Entered, RunningInv, Counted, Watched;
    StartWatched(c, env, s);
    FirstLoopCounted(c, env, s);
    var p := RunningLoop(c, env, Start(c, s));
    StartLists(c, env, s, Tokens(c, s), p);
    WatchedLine(c, env, s, p, SecondStart(c, p));
  }

  lemma StartLists(c: Config, env: Env, s: State, total: int, p: Pass)
    requires FirstInv(c, env, s, total, p)
    ensures p.stepSkipped == [] && p.newly == [] && p.resumed == [] && p.s.kv.Keys <= s.kv.Keys + s.reqs.Keys
    ensures forall id :: id in p.order ==> id in s.running
  {
    assert forall id :: id in p.order ==> id in p.s.running;
  }

  lemma WatchedLine(c: Config, env: Env, s: State, p: Pass, q: Pass)
    requires Watched(s, p) && q == p.(stop := false, loras := q.loras) && p.preempted == []
    requires p.stepSkipped == [] && p.newly == [] && p.resumed == [] && p.s.kv.Keys <= s.kv.Keys + s.reqs.Keys
    requires forall id :: id in p.order ==> id in s.running
    ensures Line(c, env, s, q, {}) && Ran(s, q)
  {
    hide Aside, Entered;
    forall id ensures id in s.running ==> RunningFate(s, q, id)
              ensures id !in q.order ==> AsBefore(s, q.s, id) {
      assert if id in s.running then RunningFate(s, p, id) else Bystander(s, p, id);
    }
  }

  // -------------------------------------------------------------------------------- whole steps

  /** A head that cannot be served now. */
  ghost predicate Waits(c: Config, env: Env, s: State, p: Pass, id: Id) {
    && id in Unfinished(s) && id !in s.running && id !in p.order && !StillBlocked(env, s, id)
    && !LoraFull(c, s, p.loras, id) && !Undecided(c, env, s, id)
    && WokenIn(s, p.s, id) && MustWait(c, env, s, p.s, p.budget, id)
  }

  /**
   * What becomes of a request that waits: admitted, set aside, the head that has
   * to wait, or not reached, and then there were no tokens or no places left, or
   * there is such a head.
   */
  ghost predicate WaitingFate(c: Config, env: Env, s: State, p: Pass, id: Id) {
    if id in p.order then Entered(c, env, s, p, id)
    else
      || Aside(c, env, s, p.s, p.loras, id)
      || Waits(c, env, s, p, id)
      || (AsBefore(s, p.s, id) && (p.budget <= 0 || |p.s.running| == c.maxRunning || exists head :: Waits(c, env, s, p, head)))
  }

  /** The second loop is not entered. */
  ghost predicate NoneAdmitted(s: State, p: Pass) {
    && p.newly == [] && p.resumed == [] && (forall id :: id in p.order ==> id in s.running)
    && forall id :: id !in s.running ==> AsBefore(s, p.s, id)
  }

  lemma WaitsStays(c: Config, env: Env, s: State, p: Pass, q: Pass, id: Id)
    requires Waits(c, env, s, p, id) && q == p.(s := p.s.(skipped := q.s.skipped), stepSkipped := [])
    ensures Waits(c, env, s, q, id)
  {
    hide StillBlocked, LoraFull, Undecided, Woken, LoadLost, SlotTokens, LoadsNow, Wish;
  }

  /** Putting back those set aside changes nothing for anybody. */
  lemma SameFate(c: Config, env: Env, s: State, p: Pass, id: Id)
    requires WaitingFate(c, env, s, p, id)
    ensures WaitingFate(c, env, s, Requeue(p), id)
  {
    var q := Requeue(p);
    assert q == p.(s := p.s.(skipped := q.s.skipped), stepSkipped := []);
    assert AsBefore(p.s, q.s, id);
    hide Requeue, Waits, Aside, Entered;
    if id in p.order {
      EnteredStays(c, env, s, p, q, id);
    } else if Aside(c, env, s, p.s, p.loras, id) {
      AsideStays(c, env, s, p.s, q.s, p.loras, p.loras, id);
    } else if Waits(c, env, s, p, id) {
      WaitsStays(c, env, s, p, q, id);
    } else {
      StillAsBefore(s, p.s, q.s, id);
      if head :| Waits(c, env, s, p, head) {
        WaitsStays(c, env, s, p, q, head);
      }
    }
  }

  lemma NotReached(c: Config, env: Env, s: State, total: int, p: Pass, id: Id)
    requires Rest(c, s) && id in Unfinished(s) && id !in s.running
    requires WaitingInv(c, env, total, p) && id !in p.stepSkipped && AsBefore(s, p.s, id)
    ensures id in p.s.waiting || id in p.s.skipped
  {
    RestParts(c, s);
    WaitingInvParts(c, env, total, p);
    hide Rest, WaitingInv, Books, AllPlanned, EnvOk;
    ExactlyOneQueue(s, id);
    assert id in Unfinished(p.s);
    StillQueued(p.s, p.stepSkipped, id);
  }

  lemma StillQueued(s: State, extra: seq<Id>, id: Id)
    requires Partition(s, extra) && id in Unfinished(s) && id !in extra && s.reqs[id].status != Running
    ensures id in s.waiting || id in s.skipped
  {
    assert multiset(Unfinished(s))[id] == 1;
    assert Queued(s, extra)[id] == 1;
    assert multiset(extra)[id] == 0;
    assert id !in s.running;
  }

  lemma FinalFate(c: Config, env: Env, s: State, total: int, p: Pass, id: Id)
    requires Rest(c, s) && WaitingDone(c, p) && WaitingInv(c, env, total, p) && id !in s.running && id in Unfinished(s)
    requires if p.stop then exists id :: Stuck(c, env, s, p, id) else Line(c, env, s, p, {})
    ensures WaitingFate(c, env, s, p, id)
  {
    hide Aside, Entered, AsBefore, WokenIn, MustWait, LoraFull, Undecided, StillBlocked, Rest, WaitingInv, At;
    if p.stop {
      var head :| Stuck(c, env, s, p, head);
      assert Waits(c, env, s, p, head);
      LineCases(c, env, s, p, {head}, id);
    } else {
      LineCases(c, env, s, p, {}, id);
      if id !in p.order && id !in p.stepSkipped {
        NotReached(c, env, s, total, p, id);
      }
    }
  }

  lemma LineCases(c: Config, env: Env, s: State, p: Pass, except: set<Id>, id: Id)
    requires Line(c, env, s, p, except) && id !in s.running
    ensures id in p.order ==> Entered(c, env, s, p, id)
    ensures id in p.stepSkipped ==> Aside(c, env, s, p.s, p.loras, id)
    ensures id !in p.order && id !in p.stepSkipped && id !in except ==> AsBefore(s, p.s, id)
  {
    hide Aside, Entered, AsBefore;
    assert At(p.s, id) == At(p.s, id);
  }

  lemma FinalLine(c: Config, env: Env, s: State, total: int, p: Pass)
    requires Rest(c, s) && WaitingDone(c, p) && WaitingInv(c, env, total, p)
    requires if p.stop then exists id :: Stuck(c, env, s, p, id) else Line(c, env, s, p, {})
    ensures forall id :: id in Unfinished(s) && id !in s.running ==> WaitingFate(c, env, s, Requeue(p), id)
    ensures forall id :: id in Requeue(p).newly || id in Requeue(p).resumed ==> id in Requeue(p).order && id !in s.running
  {
    LineLists(c, env, s, p);
    hide Rest, WaitingInv, Requeue, WaitingDone, WaitingFate, Unfinished, Line, Stuck;
    forall id | id in Unfinished(s) && id !in s.running ensures WaitingFate(c, env, s, Requeue(p), id) {
      FinalFate(c, env, s, total, p, id);
      SameFate(c, env, s, p, id);
    }
  }

  lemma LineLists(c: Config, env: Env, s: State, p: Pass)
    requires if p.stop then exists id :: Stuck(c, env, s, p, id) else Line(c, env, s, p, {})
    ensures forall id :: id in Requeue(p).newly || id in Requeue(p).resumed ==> id in Requeue(p).order && id !in s.running
  {
    hide Reverse, Aside, Entered, AsBefore;
    if p.stop {
      var head :| Stuck(c, env, s, p, head);
    }
  }

  lemma FirstLoopFates(c: Config, env: Env, s: State)
    requires Rest(c, s) && EnvOk(env, s)
    ensures var p := RunningLoop(c, env, Start(c, s)); Ran(s, p) && NoneAdmitted(s, p)
  {
    hide Rest, EnvOk, RunningLoop, Start, RunningInv, Counted, Untouched;
    StartWatched(c, env, s);
    FirstLoopCounted(c, env, s);
    StartLists(c, env, s, Tokens(c, s), RunningLoop(c, env, Start(c, s)));
    hide FirstInv, RunningFate, AsBefore;
    WatchedParts(s, RunningLoop(c, env, Start(c, s)));
  }

  lemma WatchedParts(s: State, p: Pass)
    requires Watched(s, p)
    ensures Ran(s, p) && forall id :: id !in s.running ==> AsBefore(s, p.s, id)
  {
    hide RunningFate, AsBefore;
    forall id ensures id in s.running ==> RunningFate(s, p, id)
              ensures id !in s.running ==> AsBefore(s, p.s, id) {
      assert if id in s.running then RunningFate(s, p, id) else Bystander(s, p, id);
    }
  }

  lemma RanRequeued(s: State, p: Pass)
    requires Ran(s, p)
    ensures Ran(s, Requeue(p))
  {
    hide Reverse;
    var q := Requeue(p);
    forall id | id in s.running ensures RunningFate(s, q, id) {
      assert RunningFate(s, p, id);
    }
  }

  /** Any call of `schedule` from a state at rest. */
  lemma ScheduleFates(c: Config, env: Env, s: State)
    requires Rest(c, s) && EnvOk(env, s)
    ensures var p := SchedulePass(c, env, s);
      && Ran(s, p) && FairEnd(c, env, s, p)
      && (forall id :: id in p.newly || id in p.resumed ==> id in p.order && id !in s.running)
      && (p.preempted != [] || !s.pause.Unpaused? ==> NoneAdmitted(s, p))
      && (p.preempted == [] && s.pause.Unpaused? ==>
            forall id :: id in Unfinished(s) && id !in s.running ==> WaitingFate(c, env, s, p, id))
  {
    hide Rest, RunningInv, Quiet, EnvOk, RunningLoop, WaitingLoop, Framed, PrevOk, Requeue, Partition, WaitingInv, Start, LorasOf,
         Ran, NoneAdmitted, Line, Stuck, WaitingDone, WaitingFate, Unfinished, FairEnd, Grows;
    RestParts(c, s);
    FirstLoop(c, env, s);
    FirstLoopFates(c, env, s);
    FirstLoopFair(c, env, s);
    var p := RunningLoop(c, env, Start(c, s));
    var q := SecondStart(c, p);
    NobodyAdmitted(s, p);
    if p.preempted == [] {
      HandOver(c, env, s, p);
      LineStart(c, env, s);
      RanLoop(c, env, s, Tokens(c, s), q);
      WaitingLoopLine(c, env, s, Tokens(c, s), q);
      FinalLine(c, env, s, Tokens(c, s), WaitingLoop(c, env, q));
      RanRequeued(s, WaitingLoop(c, env, q));
      StillNoVictims(c, env, Tokens(c, s), WaitingLoop(c, env, q));
      LoopGrows(c, env, Tokens(c, s), q);
      StartGrows(c, p, WaitingLoop(c, env, q));
      GrownFair(c, env, s, p, WaitingLoop(c, env, q));
    }
  }

  lemma StartGrows(c: Config, p: Pass, q: Pass)
    requires Grows(SecondStart(c, p), q)
    ensures Grows(p, q)
  {
    hide LorasOf;
  }

  // ----------------------------------------------------------------- the second loop takes nothing back

  ghost predicate Grows(p: Pass, q: Pass) {
    && (forall id :: id in p.order ==> id in q.order) && q.budget <= p.budget && q.preempted == p.preempted
  }

  lemma StepGrows(c: Config, env: Env, total: int, p: Pass)
    requires WaitingInv(c, env, total, p) && !WaitingDone(c, p)
    ensures Grows(p, WaitingStep(c, env, p))
  {
    NotStopped(c, p);
    WaitingInvParts(c, env, total, p);
    hide WaitingInv, WaitingDone, Peek, Consider, Partition, Books, AllPlanned, EnvOk;
    var ch := Consider(c, env, p, Peek(c, p.s));
    ConsiderFits(c, env, p);
    DecidedNow(c, env, total, p);
    ApplyGrows(c, p, ch, Peek(c, p.s));
  }

  lemma ApplyGrows(c: Config, p: Pass, ch: Choice, id: Id)
    requires ch.s.waiting == p.s.waiting && ch.s.skipped == p.s.skipped && (p.s.waiting != [] || p.s.skipped != [])
    requires ch.Admit? ==> ch.plan.n > 0
    ensures Grows(p, Apply(c, p, id, ch))
  {
    hide Pop, StartKv;
  }

  lemma {:induction false} LoopGrows(c: Config, env: Env, total: int, p: Pass)
    requires WaitingInv(c, env, total, p)
    ensures Grows(p, WaitingLoop(c, env, p))
    decreases !p.stop, |p.s.waiting| + |p.s.skipped|
  {
    hide WaitingInv, WaitingStep, WaitingDone, Grows;
    if WaitingDone(c, p) {
      SameGrows(p);
    } else {
      NotStopped(c, p);
      StepGrows(c, env, total, p);
      WaitingStepInv(c, env, total, p);
      var q := WaitingStep(c, env, p);
      LoopGrows(c, env, total, q);
      GrowsTwice(p, q, WaitingLoop(c, env, q));
    }
  }

  lemma SameGrows(p: Pass)
    ensures Grows(p, p)
  {
  }

  lemma GrowsTwice(p: Pass, q: Pass, r: Pass)
    requires Grows(p, q) && Grows(q, r)
    ensures Grows(p, r)
  {
  }

  lemma GrownFair(c: Config, env: Env, s: State, p: Pass, q: Pass)
    requires FairEnd(c, env, s, p) && Grows(p, q) && p.preempted == []
    ensures FairEnd(c, env, s, Requeue(q))
  {
    hide NothingFor, Refused, Reverse;
  }

  // ------------------------------------------------------------------- loads are only taken note of

  lemma StepTakesNotes(c: Config, env: Env, p: Pass)
    requires !WaitingDone(c, p) && Partition(p.s, p.stepSkipped)
    ensures WaitingStep(c, env, p).s.recvDone <= p.s.recvDone
  {
    ConsiderFits(c, env, p);
    var id, ch := Peek(c, p.s), Consider(c, env, p, Peek(c, p.s));
    HeadIsQueued(c, p.s, p.stepSkipped);
    Carried(c, p, ch);
    ConsiderState(c, env, p, id);
    hide Consider, Peek, Pop, Partition, Apply;
  }

  lemma {:induction false} LoopTakesNotes(c: Config, env: Env, p: Pass)
    requires Partition(p.s, p.stepSkipped)
    ensures WaitingLoop(c, env, p).s.recvDone <= p.s.recvDone
    decreases !p.stop, |p.s.waiting| + |p.s.skipped|
  {
    if !WaitingDone(c, p) {
      StepTakesNotes(c, env, p);
      WaitingStepKeeps(c, env, p);
      hide WaitingStep, Partition;
      LoopTakesNotes(c, env, WaitingStep(c, env, p));
    }
  }

  lemma FirstLoopNotes(c: Config, env: Env, s: State)
    requires Rest(c, s) && EnvOk(env, s)
    ensures RunningLoop(c, env, Start(c, s)).s.recvDone == s.recvDone
  {
    hide Rest, EnvOk, RunningLoop, Start;
    StartWatched(c, env, s);
    var p := RunningLoop(c, env, Start(c, s));
    forall id ensures id in p.s.recvDone <==> id in s.recvDone {
      assert if id in s.running then RunningFate(s, p, id) else Bystander(s, p, id);
    }
  }

  /** No step says that a load has arrived. */
  lemma StepNotes(c: Config, env: Env, s: State)
    requires Rest(c, s) && EnvOk(env, s)
    ensures SchedulePass(c, env, s).s.recvDone <= s.recvDone
  {
    hide Rest, EnvOk, RunningLoop, WaitingLoop, Start, LorasOf, Reverse, Partition, RunningInv, WaitingInv, Quiet, Framed;
    RestParts(c, s);
    FirstLoopNotes(c, env, s);
    FirstLoop(c, env, s);
    var p := RunningLoop(c, env, Start(c, s));
    if p.preempted == [] {
      HandOver(c, env, s, p);
      WaitingInvParts(c, env, Tokens(c, s), SecondStart(c, p));
      LoopTakesNotes(c, env, SecondStart(c, p));
    }
  }

  lemma NobodyAdmitted(s: State, p: Pass)
    requires NoneAdmitted(s, p)
    ensures p.newly == [] && p.resumed == []
  {
  }

  lemma StillNoVictims(c: Config, env: Env, total: int, p: Pass)
    requires WaitingInv(c, env, total, p)
    ensures Requeue(p).preempted == []
  {
    hide Reverse;
  }

  // ------------------------------------------------------------------------- finished requests

  lemma FinishedInLine(c: Config, env: Env, s: State, total: int, p: Pass, id: Id)
    requires WaitingInv(c, env, total, p) && Framed(c, s, p.s) && id !in Unfinished(s)
    requires if p.stop then exists head :: Stuck(c, env, s, p, head) else Line(c, env, s, p, {})
    ensures AsBefore(s, p.s, id)
  {
    hide Aside, Entered, AsBefore, MustWait, WokenIn;
    WaitingInvParts(c, env, total, p);
    FramedEnded(c, s, p.s, id);
    assert id !in p.stepSkipped && id !in p.order && At(p.s, id) == At(p.s, id) by {
      Member(p.s, p.stepSkipped, id);
    }
    hide Partition, WaitingInv, Books;
    if p.stop {
      var head :| Stuck(c, env, s, p, head);
      assert head != id;
    }
  }

  lemma FramedEnded(c: Config, s: State, t: State, id: Id)
    requires Framed(c, s, t) && id !in Unfinished(s)
    ensures id !in Unfinished(t)
  {
    if id in t.reqs {
      assert id in s.reqs.Keys && Touched(c, s.reqs[id], t.reqs[id]);
    }
  }

  lemma RequeuedAsBefore(s: State, p: Pass, id: Id)
    requires AsBefore(s, p.s, id)
    ensures AsBefore(s, Requeue(p).s, id)
  {
    hide Reverse;
  }

  /** No step touches a request that has finished. */
  lemma FinishedUntouched(c: Config, env: Env, s: State, id: Id)
    requires Rest(c, s) && EnvOk(env, s) && id !in Unfinished(s)
    ensures AsBefore(s, SchedulePass(c, env, s).s, id)
  {
    hide Rest, RunningInv, Quiet, EnvOk, RunningLoop, WaitingLoop, PrevOk, Requeue, Partition, WaitingInv, Start, LorasOf,
         Line, Stuck, WaitingDone, Unfinished, Framed, AsBefore;
    RestParts(c, s);
    FirstLoop(c, env, s);
    FirstLoopFates(c, env, s);
    var p := RunningLoop(c, env, Start(c, s));
    var q := SecondStart(c, p);
    NobodyRuns(s, id);
    if p.preempted == [] {
      HandOver(c, env, s, p);
      LineStart(c, env, s);
      WaitingInvParts(c, env, Tokens(c, s), q);
      WaitingLoopLine(c, env, s, Tokens(c, s), q);
      WaitingLoopFramed(c, env, q);
      FramedSame(c, s, p.s, q.s);
      FramedTransitive(c, s, q.s, WaitingLoop(c, env, q).s);
      FinishedInLine(c, env, s, Tokens(c, s), WaitingLoop(c, env, q), id);
      RequeuedAsBefore(s, WaitingLoop(c, env, q), id);
    }
  }

  lemma NobodyRuns(s: State, id: Id)
    requires Partition(s, []) && id !in Unfinished(s)
    ensures id !in s.running
  {
    RunningKnown(s, id);
  }

  // -------------------------------------------------------------------------------------- resets

  /** Everybody in `gone` starts over, and all others are as they were. */
  ghost predicate StartedOver(s: State, t: State, gone: seq<Id>) {
    forall id ::
      if id in gone
      then
        && At(t, id) == StartingOver(At(s, id))
        && id !in t.kv && SameNotes(s, t, id)
      else AsBefore(s, t, id)
  }

  lemma {:induction false} PreemptAllStarts(s: State)
    requires Partition(s, [])
    ensures var t := PreemptAll(s);
      && t.running == [] && t.waiting == s.running + s.waiting && t.skipped == s.skipped
      && t.finishedIds == s.finishedIds && t.numStreaming == s.numStreaming && t.pause == s.pause
      && StartedOver(s, t, s.running)
    decreases |s.running|
  {
    if s.running == [] {
      assert [] + s.waiting == s.waiting;
    } else {
      var n := |s.running| - 1;
      var id := s.running[n];
      var q := s.running[..n];
      assert RemoveAt(s.running, n) == q && s.running == q + [id];
      RunsOnce(s, id);
      LeavesOnce(s.running, n);
      PreemptKeeps(s, n, []);
      PreemptOnly(s.(running := q), id);
      var t := Preempt(s.(running := q), id);
      assert t.waiting == [id] + s.waiting && q + ([id] + s.waiting) == s.running + s.waiting;
      hide Partition, Preempt, StartedOver;
      PreemptAllStarts(t);
      OneMoreOver(s, t, PreemptAll(t), q, id);
    }
  }

  lemma OneMoreOver(s: State, t: State, u: State, q: seq<Id>, id: Id)
    requires StartedOver(t, u, q) && id !in q
    requires At(t, id) == StartingOver(At(s, id))
    requires id !in t.kv && SameNotes(s.(running := q), t, id) && forall x :: x != id ==> AsBefore(s.(running := q), t, x)
    ensures StartedOver(s, u, q + [id])
  {
    forall x ensures if x in q + [id] then
        && At(u, x) == StartingOver(At(s, x))
        && x !in u.kv && SameNotes(s, u, x)
      else AsBefore(s, u, x)
    {
      assert x != id ==> AsBefore(s.(running := q), t, x);
    }
  }

  /**
   * `reset_prefix_cache`: with running requests reset, each of them starts over
   * in front of the waiting ones, in its place, and the last step is forgotten;
   * nobody else is touched.
   */
  lemma ResetStartsOver(s: State, resetRunning: bool)
    requires Partition(s, [])
    ensures var t := ResetPrefixCache(s, resetRunning);
      if resetRunning
      then
        && t.running == [] && t.waiting == s.running + s.waiting && t.skipped == s.skipped && t.prev == {}
        && StartedOver(s, t, s.running)
      else t == s
  {
    PreemptAllStarts(s);
    hide PreemptAll, Partition;
  }
}
