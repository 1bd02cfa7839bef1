/**
 * What one call of `schedule` plans for each request fits its tokens, and the
 * KV each request relies on is the KV of its own tokens.
 */
module Planning {
  import opened Seqs
  import opened Requests
  import opened SchedulerSpec
  import opened QueuePartition
  import opened Frames
  import opened Accounting

  /** The computed positions of a request hold the KV of exactly its own tokens. */
  ghost predicate KvReady(s: State, id: Id)
    requires id in s.reqs
  {
    var v := s.reqs[id];
    !IsFinished(v.status) ==>
      && (v.status == Running ==> id in s.kv)
      && (v.computed > 0 ==> id in s.kv && v.computed <= |s.kv[id]| && Take(s.kv[id], v.computed) == Take(v.all, v.computed))
  }

  ghost predicate AllKv(s: State) {
    forall id :: id in s.reqs ==> KvReady(s, id)
  }

  /** `n` tokens, the last `|drafts|` of them drafts, are planned for `v`. */
  ghost predicate Planned(v: View, n: int, drafts: seq<Token>) {
    && v.status == Running
    && 0 < n && v.computed + n <= |v.all| + |drafts|
    && (drafts != [] ==> v.computed + n == |v.all| + |drafts| && !v.resumable)
  }

  ghost predicate AllPlanned(p: Pass) {
    forall id :: id in p.order ==>
      id in p.num && id in p.s.reqs && Planned(p.s.reqs[id], p.num[id], Drafts(p.specs, id))
  }

  ghost predicate Sound(c: Config, p: Pass) {
    AllReady(c, p.s) && AllKv(p.s) && AllPlanned(p)
  }

  // ---------------------------------------------------------------- first loop

  lemma PreemptKv(c: Config, p: Pass)
    requires AllKv(p.s) && Partition(p.s, []) && p.s.running != []
    ensures AllKv(PreemptVictim(c, p).s)
  {
    var id := p.s.running[VictimIndex(c, p.s)];
    Member(p.s, [], id);
    var t := PreemptVictim(c, p).s;
    forall x | x in t.reqs ensures KvReady(t, x) {
      assert x in p.s.reqs && KvReady(p.s, x);
    }
  }

  /** Plans of the others survive when one request leaves the books and becomes PREEMPTED. */
  lemma OthersStayPlanned(p: Pass, q: Pass, victim: Id)
    requires AllPlanned(p)
    requires forall x :: x in q.order ==> x in p.order && x != victim
    requires forall x :: x in p.num && x != victim ==> x in q.num && q.num[x] == p.num[x]
    requires forall x :: x != victim ==> Drafts(q.specs, x) == Drafts(p.specs, x)
    requires q.s.reqs == p.s.reqs[victim := At(q.s, victim)]
    ensures AllPlanned(q)
  {
  }

  lemma PreemptVictimOthers(c: Config, p: Pass)
    requires p.s.running != []
    ensures var victim := p.s.running[VictimIndex(c, p.s)];
            var q := PreemptVictim(c, p);
            && q.order == (if c.priority && victim in p.order then Unschedule(p, victim).order else p.order)
            && (forall x :: x in p.num && x != victim ==> x in q.num && q.num[x] == p.num[x])
            && (forall x :: x != victim ==> Drafts(q.specs, x) == Drafts(p.specs, x))
            && q.s.reqs == p.s.reqs[victim := At(q.s, victim)]
  {
    hide VictimIndex, Remove;
  }

  lemma PreemptPlanned(c: Config, total: int, p: Pass, id: Id)
    requires AllPlanned(p) && Partition(p.s, []) && Books(c, total, p) && Behind(p) && Asking(c, p, id)
    ensures AllPlanned(PreemptVictim(c, p))
  {
    NonEmptyRunning(c, p, id);
    hide Partition, Books, Behind, Asking, AllPlanned, VictimIndex, PreemptVictim, Unschedule, Drafts, At;
    var victim := p.s.running[VictimIndex(c, p.s)];
    PreemptVictimOthers(c, p);
    if !c.priority {
      VictimNotScheduled(c, p, id);
    } else if victim in p.order {
      UnscheduleBooks(c, total, p, victim);
    }
    OthersStayPlanned(p, PreemptVictim(c, p), victim);
  }

  lemma PreemptSound(c: Config, total: int, p: Pass, id: Id)
    requires Sound(c, p) && Partition(p.s, []) && Books(c, total, p) && Behind(p) && Asking(c, p, id)
    ensures Sound(c, PreemptVictim(c, p))
  {
    hide AllReady, AllKv, AllPlanned, Partition, Books, Behind, PreemptVictim;
    NonEmptyRunning(c, p, id);
    PreemptReady(c, p);
    PreemptKv(c, p);
    PreemptPlanned(c, total, p, id);
  }

  lemma NonEmptyRunning(c: Config, p: Pass, id: Id)
    requires Asking(c, p, id)
    ensures p.s.running != [] && id in p.s.running
  {
  }

  lemma {:induction false} MakeRoomSound(c: Config, env: Env, total: int, p: Pass, id: Id, tokens: int)
    requires Sound(c, p) && Partition(p.s, []) && Books(c, total, p) && Behind(p) && VictimsMarked(p) && Asking(c, p, id)
    ensures Sound(c, MakeRoom(c, env, p, id, tokens).p)
    decreases |p.s.running|
  {
    hide Sound, Partition, Books, Behind, VictimsMarked, Asking, PreemptVictim, VictimIndex;
    NonEmptyRunning(c, p, id);
    if SlotAsk(p.s.kv.Keys, id, tokens) in env.refused {
      var q := PreemptVictim(c, p);
      PreemptSound(c, total, p, id);
      PreemptVictimBooks(c, total, p, id);
      PreemptVictimBehind(c, total, p, id);
      PreemptVictimKeeps(c, p, []);
      VictimLeaves(c, p);
      if p.s.running[VictimIndex(c, p.s)] != id {
        MakeRoomSound(c, env, total, q, id, tokens);
      }
    }
  }

  /** KV does not depend on drafts. */
  lemma NoDraftsKv(s: State, id: Id)
    requires AllKv(s) && id in s.reqs
    ensures AllKv(Put(s, id, s.reqs[id].(spec := [])))
  {
    var t := Put(s, id, s.reqs[id].(spec := []));
    forall x | x in t.reqs ensures KvReady(t, x) {
      assert KvReady(s, x);
    }
  }

  /** What is scheduled for a running request are its tokens, and then the drafts that fit. */
  lemma FittingDrafts(c: Config, v: View, n: int)
    requires Ready(c, v) && v.status == Running && 0 < n && v.computed + n <= |v.all| + |v.spec|
    ensures Planned(v.(spec := []), n, DraftsFor(v, n)) && Ready(c, v.(spec := []))
  {
  }

  /** The drafts scheduled are those that fit, and the tokens of the request come first. */
  lemma ScheduleRunningSound(c: Config, p: Pass, id: Id, plan: EncoderPlan)
    requires Sound(c, p) && Partition(p.s, []) && id in p.s.running && id !in p.order
    requires (forall x :: x in p.specs ==> x in p.order)
    requires 0 < plan.n && At(p.s, id).computed + plan.n <= |At(p.s, id).all| + |At(p.s, id).spec|
    ensures Sound(c, ScheduleRunning(p, id, plan))
  {
    Member(p.s, [], id);
    var v := p.s.reqs[id];
    var q := ScheduleRunning(p, id, plan);
    assert Ready(c, v);
    NoDraftsKv(p.s, id);
    FittingDrafts(c, v, plan.n);
    hide KvReady, Partition, Planned, Ready, DraftsFor;
    forall x | x in q.order
      ensures x in q.num && x in q.s.reqs && Planned(q.s.reqs[x], q.num[x], Drafts(q.specs, x))
    {
      if x != id {
        assert x in p.order;
      }
    }
  }

  lemma AfterRoomSound(c: Config, total: int, room: Room, id: Id, plan: EncoderPlan)
    requires Sound(c, room.p) && Partition(room.p.s, []) && Books(c, total, room.p)
    requires room.ok ==> id in room.p.s.running && id !in room.p.order
    requires room.ok ==> 0 < plan.n && At(room.p.s, id).computed + plan.n <= |At(room.p.s, id).all| + |At(room.p.s, id).spec|
    ensures Sound(c, AfterRoom(room, id, plan))
  {
    if room.ok {
      hide Partition, ScheduleRunning, Sound;
      ScheduleRunningSound(c, room.p, id, plan);
    }
  }

  lemma AskingFacts(c: Config, p: Pass, id: Id)
    requires Asking(c, p, id)
    ensures id in p.s.running && id !in p.order
  {
  }

  lemma {:induction false} PlannedStepSound(c: Config, env: Env, total: int, p: Pass, id: Id, plan: EncoderPlan, tokens: int)
    requires Sound(c, p) && Partition(p.s, []) && Books(c, total, p) && Behind(p) && VictimsMarked(p) && Asking(c, p, id)
    requires 0 < plan.n && At(p.s, id).computed + plan.n <= |At(p.s, id).all| + |At(p.s, id).spec|
    ensures Sound(c, AfterRoom(MakeRoom(c, env, p, id, tokens), id, plan))
  {
    hide Sound, Partition, Books, Behind, VictimsMarked, Asking, AfterRoom, MakeRoom, At;
    MakeRoomSound(c, env, total, p, id, tokens);
    MakeRoomBooks(c, env, total, p, id, tokens);
    MakeRoomKeeps(c, env, p, id, tokens, []);
    AskingFacts(c, p, id);
    AskerUntouched(c, env, p, id, tokens);
    var room := MakeRoom(c, env, p, id, tokens);
    if room.ok {
      AskingFacts(c, room.p, id);
    }
    AfterRoomSound(c, total, room, id, plan);
  }

  /** Everything the proofs about `schedule` need at a head of the first loop. */
  ghost predicate RunningInv(c: Config, env: Env, total: int, p: Pass) {
    && Partition(p.s, []) && Books(c, total, p) && Behind(p) && VictimsMarked(p)
    && Sound(c, p) && EnvOk(env, p.s)
    && p.stepSkipped == [] && !p.invalid && p.newly == [] && p.resumed == []
  }

  lemma SoundFacts(c: Config, p: Pass)
    requires Sound(c, p)
    ensures AllReady(c, p.s) && AllKv(p.s) && AllPlanned(p)
    ensures Sound(c, p.(idx := p.idx + 1))
  {
  }

  lemma RunningStepSound(c: Config, env: Env, total: int, p: Pass)
    requires RunningInv(c, env, total, p) && !RunningDone(p)
    ensures Sound(c, RunningStep(c, env, p))
  {
    hide Sound, Partition, Books, Behind, VictimsMarked, Asking, AfterRoom, MakeRoom, RunningPlan, AllReady, EnvOk, Ready;
    var id := p.s.running[p.idx];
    var plan := RunningPlan(c, env, p, id);
    SoundFacts(c, p);
    RunningHead(c, p);
    EncBudgetBound(c, total, p);
    RunningPlanFacts(c, env, p, id);
    if plan.n != 0 {
      AskingNow(c, total, p);
      PlannedStepSound(c, env, total, p, id, plan, At(p.s, id).computed + plan.n + c.lookahead);
    }
  }

  lemma RunningStepLists(c: Config, env: Env, p: Pass)
    requires !RunningDone(p)
    ensures var q := RunningStep(c, env, p);
      q.stepSkipped == p.stepSkipped && q.invalid == p.invalid && q.newly == p.newly && q.resumed == p.resumed
  {
    hide MakeRoom, RunningPlan;
    var id := p.s.running[p.idx];
    MakeRoomLists(c, env, p, id, At(p.s, id).computed + RunningPlan(c, env, p, id).n + c.lookahead);
  }

  lemma {:induction false} MakeRoomLists(c: Config, env: Env, p: Pass, id: Id, tokens: int)
    ensures var q := MakeRoom(c, env, p, id, tokens).p;
      q.stepSkipped == p.stepSkipped && q.invalid == p.invalid && q.newly == p.newly && q.resumed == p.resumed
    decreases |p.s.running|
  {
    hide VictimIndex, PreemptVictim;
    if SlotAsk(p.s.kv.Keys, id, tokens) in env.refused && p.s.running != [] {
      PreemptVictimShape(c, p);
      VictimCount(c, p);
      if p.s.running[VictimIndex(c, p.s)] != id {
        MakeRoomLists(c, env, PreemptVictim(c, p), id, tokens);
      }
    }
  }

  lemma RunningStepInv(c: Config, env: Env, total: int, p: Pass)
    requires RunningInv(c, env, total, p) && !RunningDone(p)
    ensures RunningInv(c, env, total, RunningStep(c, env, p))
  {
    hide Sound, Partition, Books, Behind, VictimsMarked, AllReady, EnvOk, RunningStep, Framed, RunningDone;
    SoundFacts(c, p);
    RunningStepSound(c, env, total, p);
    RunningStepBooks(c, env, total, p);
    RunningStepKeeps(c, env, p);
    RunningStepFramed(c, env, p);
    RunningStepLists(c, env, p);
    EnvFramed(c, env, p.s, RunningStep(c, env, p).s);
  }

  lemma {:induction false} RunningLoopInv(c: Config, env: Env, total: int, p: Pass)
    requires RunningInv(c, env, total, p)
    ensures RunningInv(c, env, total, RunningLoop(c, env, p))
    decreases !p.stop, |p.s.running| - p.idx
  {
    if !RunningDone(p) {
      RunningStepInv(c, env, total, p);
      RunningStepDecreases(c, env, p);
      hide RunningInv, RunningStep, RunningDone;
      RunningLoopInv(c, env, total, RunningStep(c, env, p));
    }
  }
}
