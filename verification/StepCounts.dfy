/**
 * How many tokens one call of `schedule` gives each request: never more than
 * the request, the thresholds and the budget allow, and not one less.
 */
module StepCounts {
  import opened Seqs
  import opened Requests
  import opened SchedulerSpec
  import opened QueuePartition
  import opened Frames
  import opened Accounting
  import opened Planning
  import opened Admission
  import opened ScheduleStep
  import M = MambaSplit

  // ------------------------------------------------------- what a step may give a request of `s`

  /** The computed count of a request that waits, when its turn comes: a full load leaves the last token to compute. */
  function Resting(s: State, id: Id): int {
    var v := At(s, id);
    if v.status == WaitingForRemoteKvs && v.computed == |v.all| && id !in s.recvFailed then |v.all| - 1 else v.computed
  }

  /** Where the tokens scheduled for `id` begin: behind what is computed, cached or loaded. */
  function Base(c: Config, env: Env, s: State, id: Id): int {
    if id in s.running || Resting(s, id) != 0 then Resting(s, id)
    else Hit(env, id) + (if c.connector then RemoteHit(env, id).tokens else 0)
  }

  /**
   * `n` tokens are not beyond the tokens of the request, nor the long-prefill
   * threshold, nor, for a running request with its drafts, the last position.
   */
  predicate Allowed(c: Config, env: Env, s: State, id: Id, n: int) {
    var v, base := At(s, id), Base(c, env, s, id);
    && base + n <= |v.all| + (if id in s.running then |v.spec| else 0)
    && (c.longPrefill > 0 ==> n <= c.longPrefill)
    && (id in s.running ==> base + n <= c.maxModelLen - 1)
  }

  /** The slots asked for: behind the scheduled tokens there is room to look ahead, or for the whole request. */
  function SlotTokens(c: Config, env: Env, s: State, id: Id, n: int): int {
    var tokens := Base(c, env, s, id) + n;
    if id in s.running then tokens + c.lookahead
    else
      var more := if Resting(s, id) == 0 then tokens else tokens + c.lookahead;
      if c.reserveFull then Max(more, |At(s, id).all|) else more
  }

  /** The KV manager granted them, when some known requests held blocks. */
  ghost predicate Slots(c: Config, env: Env, s: State, id: Id, n: int) {
    exists holders: set<Id> ::
      holders <= s.kv.Keys + s.reqs.Keys && SlotAsk(holders, id, SlotTokens(c, env, s, id, n)) !in env.refused
  }

  /** The drafts that lie within the scheduled tokens. */
  function DraftsWithin(s: State, id: Id, n: int): seq<Token> {
    var v := At(s, id);
    if id in s.running then Take(v.spec, v.computed + n - |v.all|) else []
  }

  ghost predicate CountOk(c: Config, env: Env, s: State, p: Pass, id: Id) {
    var n := Get(p.num, id);
    && Allowed(c, env, s, id, n) && Slots(c, env, s, id, n)
    && Drafts(p.specs, id) == DraftsWithin(s, id, n)
    && At(p.s, id).computed == Base(c, env, s, id)
  }

  /** What is left of the budget when the `k`-th scheduled request has its turn. */
  function Left(p: Pass, total: int, k: nat): int
    requires k <= |p.order|
  {
    total - Sum(p.order[..k], p.num)
  }

  /** `m` of `left` tokens are allowed, and not one more; without chunked prefill a waiting request is not cut short by the budget. */
  predicate MostOf(c: Config, env: Env, s: State, id: Id, m: int, left: int) {
    && m <= left && Allowed(c, env, s, id, m)
    && (m == left || !Allowed(c, env, s, id, m + 1))
    && (!c.chunked && id !in s.running ==> !Allowed(c, env, s, id, m + 1))
  }

  /** The request as `_mamba_block_aligned_split` sees it. */
  function Chunked(c: Config, s: State, id: Id): M.Prefill {
    M.Prefill(|At(s, id).prompt|, |At(s, id).all|, c.blockSize, c.eagle)
  }

  /** What encoder inputs and block alignment leave of `m` tokens, with `b` of the encoder budget. */
  function Fitted(c: Config, env: Env, s: State, id: Id, m: int, b: int): int {
    var base := Base(c, env, s, id);
    var ask := EncoderAsk(id, base, m, b);
    var n := if At(s, id).enc && ask in env.encoder then env.encoder[ask].n else m;
    if c.mamba && c.blockSize > 0 then M.Split(Chunked(c, s, id), base, n) else n
  }

  /** `n` is what is left of the most that is allowed of `left` tokens. */
  ghost predicate Most(c: Config, env: Env, s: State, id: Id, n: int, left: int) {
    n <= left && exists m: nat, b: nat :: MostOf(c, env, s, id, m, left) && n == Fitted(c, env, s, id, m, b)
  }

  ghost predicate Maximal(c: Config, env: Env, s: State, p: Pass, total: int, k: nat)
    requires k < |p.order|
  {
    Most(c, env, s, p.order[k], Get(p.num, p.order[k]), Left(p, total, k))
  }

  // ---------------------------------------------------------------------------- loop invariants

  /** Requests that were not dealt with are as they were. */
  ghost predicate Untouched(s: State, p: Pass) {
    forall id {:trigger At(p.s, id)} :: id !in p.order && id !in p.preempted && id !in p.stepSkipped ==>
      At(p.s, id) == At(s, id) && (id in p.s.recvFailed <==> id in s.recvFailed)
  }

  ghost predicate Counted(c: Config, env: Env, s: State, total: int, p: Pass) {
    && (forall id :: id in p.order ==> CountOk(c, env, s, p, id))
    && ((c.priority ==> p.preempted == []) ==> forall k :: 0 <= k < |p.order| ==> Maximal(c, env, s, p, total, k))
    && p.s.kv.Keys <= s.kv.Keys + s.reqs.Keys
  }

  // -------------------------------------------------------------------------------- first loop

  lemma VictimUntouched(c: Config, s: State, p: Pass)
    requires p.s.running != [] && Untouched(s, p)
    ensures Untouched(s, PreemptVictim(c, p))
  {
    var victim := p.s.running[VictimIndex(c, p.s)];
    var q := PreemptVictim(c, p);
    PreemptVictimShape(c, p);
    RemoveOthers(p.order, victim);
    assert q.s.reqs == p.s.reqs[victim := At(q.s, victim)] && q.s.recvFailed == p.s.recvFailed;
    hide PreemptVictim, VictimIndex, Remove;
    assert victim in q.preempted && forall x :: x in p.preempted ==> x in q.preempted;
    forall id | id !in q.order && id !in q.preempted && id !in q.stepSkipped
      ensures At(q.s, id) == At(s, id) && (id in q.s.recvFailed <==> id in s.recvFailed)
    {
      assert At(q.s, id) == At(p.s, id);
    }
  }

  lemma {:induction false} RemoveOthers<T>(s: seq<T>, x: T)
    ensures forall y :: y in s && y != x ==> y in Remove(s, x)
    ensures forall y :: y in Remove(s, x) ==> y in s
  {
    if s != [] && s[0] != x {
      RemoveOthers(s[1..], x);
    }
  }

  /** Slots, counts and drafts of the requests that stay scheduled are the same. */
  ghost predicate SameBooks(p: Pass, q: Pass) {
    forall x {:trigger x in q.order} :: x in q.order ==>
      x in p.order && Get(q.num, x) == Get(p.num, x) && Drafts(q.specs, x) == Drafts(p.specs, x)
      && At(q.s, x).computed == At(p.s, x).computed
  }

  lemma VictimCounted(c: Config, env: Env, s: State, total: int, p: Pass, id: Id)
    requires Partition(p.s, []) && Books(c, total, p) && Behind(p) && Asking(c, p, id) && Counted(c, env, s, total, p)
    ensures Counted(c, env, s, total, PreemptVictim(c, p))
  {
    NonEmptyRunning(c, p, id);
    var victim, q := p.s.running[VictimIndex(c, p.s)], PreemptVictim(c, p);
    PreemptVictimShape(c, p);
    PreemptVictimOthers(c, p);
    if !c.priority {
      VictimNotScheduled(c, p, id);
    } else if victim in p.order {
      UnscheduleBooks(c, total, p, victim);
    }
    assert q.s.kv.Keys <= p.s.kv.Keys;
    VictimInBooks(c, p, q, victim);
    hide Partition, Books, Behind, Asking, PreemptVictim, VictimIndex, CountOk, Maximal, Unschedule;
    CountedElsewhere(c, env, s, total, p, q);
  }

  lemma VictimInBooks(c: Config, p: Pass, q: Pass, victim: Id)
    requires forall x :: x in q.order ==> x in p.order && x != victim
    requires forall x :: x in p.num && x != victim ==> x in q.num && q.num[x] == p.num[x]
    requires forall x :: x in q.num ==> x in p.num
    requires forall x :: x != victim ==> Drafts(q.specs, x) == Drafts(p.specs, x)
    requires q.s.reqs == p.s.reqs[victim := At(q.s, victim)]
    ensures SameBooks(p, q)
  {
    hide Drafts;
  }

  lemma CountedElsewhere(c: Config, env: Env, s: State, total: int, p: Pass, q: Pass)
    requires Counted(c, env, s, total, p) && SameBooks(p, q) && q.s.kv.Keys <= p.s.kv.Keys
    requires (c.priority ==> q.preempted == []) ==> (c.priority ==> p.preempted == []) && q.order == p.order && q.num == p.num
    ensures Counted(c, env, s, total, q)
  {
    hide Allowed, Slots, DraftsWithin, Base, Drafts;
    forall id | id in q.order ensures CountOk(c, env, s, q, id) {
      assert CountOk(c, env, s, p, id);
    }
    if c.priority ==> q.preempted == [] {
      forall k | 0 <= k < |q.order| ensures Maximal(c, env, s, q, total, k) {
        assert Maximal(c, env, s, p, total, k);
      }
    }
  }

  lemma {:induction false} MakeRoomCounted(c: Config, env: Env, s: State, total: int, p: Pass, id: Id, tokens: int)
    requires Partition(p.s, []) && Books(c, total, p) && Behind(p) && VictimsMarked(p) && Asking(c, p, id)
    requires Counted(c, env, s, total, p) && Untouched(s, p)
    ensures var r := MakeRoom(c, env, p, id, tokens);
      && Counted(c, env, s, total, r.p) && Untouched(s, r.p)
      && (r.ok ==> SlotAsk(r.p.s.kv.Keys, id, tokens) !in env.refused)
      && (!c.priority ==> r.p.budget == p.budget)
    decreases |p.s.running|
  {
    hide Partition, Books, Behind, VictimsMarked, Asking, Counted, Untouched, PreemptVictim, VictimIndex;
    NonEmptyRunning(c, p, id);
    if SlotAsk(p.s.kv.Keys, id, tokens) in env.refused {
      var q := PreemptVictim(c, p);
      VictimCounted(c, env, s, total, p, id);
      VictimUntouched(c, s, p);
      PreemptVictimBooks(c, total, p, id);
      PreemptVictimBehind(c, total, p, id);
      PreemptVictimKeeps(c, p, []);
      PreemptVictimShape(c, p);
      VictimLeaves(c, p);
      VictimCount(c, p);
      if p.s.running[VictimIndex(c, p.s)] != id {
        MakeRoomCounted(c, env, s, total, q, id, tokens);
      }
    }
  }

  /** The plan of the request at the index is the most that it may be given. */
  lemma RunningPlanMost(c: Config, env: Env, s: State, p: Pass, id: Id)
    requires id in s.running && At(p.s, id) == At(s, id) && At(s, id).status == Running
    requires id in p.s.reqs && Ready(c, p.s.reqs[id]) && EnvOk(env, p.s) && p.budget > 0 && p.encBudget >= 0
    ensures var n := RunningPlan(c, env, p, id).n;
      && Allowed(c, env, s, id, n) && Most(c, env, s, id, n, p.budget)
  {
    var v := At(s, id);
    var n := RunningWant(c, v, p.budget);
    assert 0 <= n <= p.budget && MostOf(c, env, s, id, n, p.budget);
    assert RunningPlan(c, env, p, id).n == Fitted(c, env, s, id, n, p.encBudget);
    var plan := EncoderFor(env, v, id, v.computed, n, p.encBudget);
    AlignedBounds(c, v, v.computed, plan.n);
  }

  /** What one scheduled request adds. */
  lemma OneCounted(
      c: Config, env: Env, s: State, total: int, p: Pass, q: Pass, id: Id, n: int)
    requires Counted(c, env, s, total, p) && Books(c, total, p) && id !in p.order
    requires q.order == p.order + [id] && q.num == p.num[id := n] && q.preempted == p.preempted
    requires forall x :: x != id ==> Drafts(q.specs, x) == Drafts(p.specs, x) && At(q.s, x) == At(p.s, x)
    requires q.s.kv.Keys <= s.kv.Keys + s.reqs.Keys && CountOk(c, env, s, q, id)
    requires (c.priority ==> p.preempted == []) ==> Most(c, env, s, id, n, p.budget)
    ensures Counted(c, env, s, total, q)
  {
    hide Allowed, Slots, DraftsWithin, Base, Drafts;
    forall x | x in q.order ensures CountOk(c, env, s, q, x) {
      if x != id {
        assert x in p.order && CountOk(c, env, s, p, x);
      }
    }
    if c.priority ==> p.preempted == [] {
      forall k | 0 <= k < |q.order| ensures Maximal(c, env, s, q, total, k) {
        MaximalStays(c, env, s, total, p, q, id, n, k);
      }
    }
  }

  lemma MaximalStays(c: Config, env: Env, s: State, total: int, p: Pass, q: Pass, id: Id, n: int, k: nat)
    requires p.budget + Sum(p.order, p.num) == total && id !in p.order && k <= |p.order|
    requires q.order == p.order + [id] && q.num == p.num[id := n]
    requires k < |p.order| ==> Maximal(c, env, s, p, total, k)
    requires k == |p.order| ==> Most(c, env, s, id, n, p.budget)
    ensures Maximal(c, env, s, q, total, k)
  {
    hide Most, Sum;
    assert q.order[..k] == p.order[..k] && p.order[..|p.order|] == p.order;
    forall x | x in p.order[..k] ensures Get(p.num, x) == Get(q.num, x) {
      assert x in p.order;
    }
    SumSame(p.order[..k], p.num, q.num);
    if k < |p.order| {
      assert q.order[k] == p.order[k] && p.order[k] in p.order;
      assert Left(q, total, k) == Left(p, total, k);
    } else {
      assert q.order[k] == id && Left(q, total, k) == p.budget;
    }
  }

  lemma ScheduledCounted(c: Config, env: Env, s: State, total: int, p: Pass, id: Id, plan: EncoderPlan)
    requires Counted(c, env, s, total, p) && Books(c, total, p) && id !in p.order && id !in p.specs
    requires id in s.running && At(p.s, id) == At(s, id) && At(s, id).status == Running
    requires Allowed(c, env, s, id, plan.n)
    requires SlotAsk(p.s.kv.Keys, id, At(s, id).computed + plan.n + c.lookahead) !in env.refused
    requires (c.priority ==> p.preempted == []) ==> Most(c, env, s, id, plan.n, p.budget)
    ensures Counted(c, env, s, total, ScheduleRunning(p, id, plan))
  {
    var q := ScheduleRunning(p, id, plan);
    assert p.s.kv.Keys <= s.kv.Keys + s.reqs.Keys;
    hide Counted, Books, Allowed, Slots, DraftsWithin, Most, CountOk;
    ScheduledCountOk(c, env, s, p, id, plan);
    OneCounted(c, env, s, total, p, q, id, plan.n);
  }

  lemma ScheduledCountOk(c: Config, env: Env, s: State, p: Pass, id: Id, plan: EncoderPlan)
    requires id !in p.specs && p.s.kv.Keys <= s.kv.Keys + s.reqs.Keys
    requires id in s.running && At(p.s, id) == At(s, id) && At(s, id).status == Running
    requires Allowed(c, env, s, id, plan.n)
    requires SlotAsk(p.s.kv.Keys, id, At(s, id).computed + plan.n + c.lookahead) !in env.refused
    ensures CountOk(c, env, s, ScheduleRunning(p, id, plan), id)
  {
    var q := ScheduleRunning(p, id, plan);
    assert Drafts(q.specs, id) == DraftsWithin(s, id, plan.n);
    assert Slots(c, env, s, id, plan.n) by {
      assert SlotTokens(c, env, s, id, plan.n) == At(s, id).computed + plan.n + c.lookahead;
    }
    hide Allowed, Slots, DraftsWithin;
  }

  lemma ScheduledUntouched(s: State, p: Pass, id: Id, plan: EncoderPlan)
    requires Untouched(s, p)
    ensures Untouched(s, ScheduleRunning(p, id, plan))
  {
    hide DraftsFor;
    var q := ScheduleRunning(p, id, plan);
    forall x | x !in q.order && x !in q.preempted && x !in q.stepSkipped
      ensures At(q.s, x) == At(s, x) && (x in q.s.recvFailed <==> x in s.recvFailed)
    {
      assert x != id && At(q.s, x) == At(p.s, x);
    }
  }

  ghost predicate FirstInv(c: Config, env: Env, s: State, total: int, p: Pass) {
    && RunningInv(c, env, total, p) && Counted(c, env, s, total, p) && Untouched(s, p)
    && forall id {:trigger id in p.s.running} :: id in p.s.running ==> id in s.running
  }

  lemma StopCounted(c: Config, env: Env, s: State, total: int, p: Pass, q: Pass)
    requires Counted(c, env, s, total, p) && q == p.(idx := q.idx, stop := q.stop)
    ensures Counted(c, env, s, total, q)
  {
    hide CountOk, Maximal;
    CountedElsewhere(c, env, s, total, p, q);
  }

  lemma StopUntouched(s: State, p: Pass, q: Pass)
    requires Untouched(s, p) && q == p.(idx := q.idx, stop := q.stop)
    ensures Untouched(s, q)
  {
  }

  /** The request at the index is as it was. */
  lemma NextUntouched(c: Config, env: Env, s: State, total: int, p: Pass)
    requires FirstInv(c, env, s, total, p) && !RunningDone(p)
    ensures var id := p.s.running[p.idx];
      && id in s.running && At(p.s, id) == At(s, id) && At(s, id).status == Running
      && id in p.s.reqs && Ready(c, p.s.reqs[id]) && EnvOk(env, p.s) && p.encBudget >= 0
      && Asking(c, p, id)
  {
    SoundFacts(c, p);
    hide Sound, Counted, EnvOk;
    AskingNow(c, total, p);
    RunningHead(c, p);
    hide Partition, Books, Behind;
    AskingFacts(c, p, p.s.running[p.idx]);
  }

  lemma RunningParts(c: Config, env: Env, total: int, p: Pass)
    requires RunningInv(c, env, total, p)
    ensures Partition(p.s, []) && Books(c, total, p) && Behind(p) && VictimsMarked(p)
  {
  }

  lemma RunningStepCounted(c: Config, env: Env, s: State, total: int, p: Pass)
    requires FirstInv(c, env, s, total, p) && !RunningDone(p)
    ensures var q := RunningStep(c, env, p); Counted(c, env, s, total, q) && Untouched(s, q)
  {
    hide RunningPlan, RunningInv, Counted, Untouched, AfterRoom, MakeRoom, Allowed, EnvOk, Ready, At, Partition, Books, Behind,
         VictimsMarked, Asking;
    var id := p.s.running[p.idx];
    var plan := RunningPlan(c, env, p, id);
    NextUntouched(c, env, s, total, p);
    RunningParts(c, env, total, p);
    RunningPlanMost(c, env, s, p, id);
    if plan.n == 0 {
      StopCounted(c, env, s, total, p, p.(idx := p.idx + 1));
      StopUntouched(s, p, p.(idx := p.idx + 1));
    } else {
      RoomCounted(c, env, s, total, p, id, plan);
    }
  }

  lemma RoomCounted(c: Config, env: Env, s: State, total: int, p: Pass, id: Id, plan: EncoderPlan)
    requires Partition(p.s, []) && Books(c, total, p) && Behind(p) && VictimsMarked(p) && Asking(c, p, id)
    requires Counted(c, env, s, total, p) && Untouched(s, p) && id in p.s.running
    requires id in s.running && At(p.s, id) == At(s, id) && At(s, id).status == Running
    requires Allowed(c, env, s, id, plan.n) && Most(c, env, s, id, plan.n, p.budget)
    ensures var q := AfterRoom(MakeRoom(c, env, p, id, At(p.s, id).computed + plan.n + c.lookahead), id, plan);
      Counted(c, env, s, total, q) && Untouched(s, q)
  {
    hide Partition, Books, Behind, VictimsMarked, Counted, Untouched, Asking, MakeRoom, ScheduleRunning, Allowed, At;
    var tokens := At(p.s, id).computed + plan.n + c.lookahead;
    var room := MakeRoom(c, env, p, id, tokens);
    MakeRoomCounted(c, env, s, total, p, id, tokens);
    MakeRoomBooks(c, env, total, p, id, tokens);
    MakeRoomQuiet(c, env, p, id, tokens);
    AskerUntouched(c, env, p, id, tokens);
    if room.ok {
      AskingFacts(c, room.p, id);
      SpecsInBooks(c, total, room.p);
      assert c.priority && room.p.preempted == [] ==> room.p == p;
      ScheduledCounted(c, env, s, total, room.p, id, plan);
      ScheduledUntouched(s, room.p, id, plan);
    } else {
      StopCounted(c, env, s, total, room.p, room.p.(stop := true));
      StopUntouched(s, room.p, room.p.(stop := true));
    }
  }

  lemma SpecsInBooks(c: Config, total: int, p: Pass)
    requires Books(c, total, p)
    ensures forall id :: id in p.specs ==> id in p.order
  {
  }

  lemma {:induction false} RunningLoopCounted(c: Config, env: Env, s: State, total: int, p: Pass)
    requires FirstInv(c, env, s, total, p)
    ensures FirstInv(c, env, s, total, RunningLoop(c, env, p))
    decreases !p.stop, |p.s.running| - p.idx
  {
    if !RunningDone(p) {
      RunningStepDecreases(c, env, p);
      RunningStepCounted(c, env, s, total, p);
      RunningStepInv(c, env, total, p);
      RunningStepOnlyRemoves(c, env, p);
      hide RunningInv, Counted, Untouched, RunningStep, RunningDone;
      RunningLoopCounted(c, env, s, total, RunningStep(c, env, p));
    }
  }

  // ------------------------------------------------------------------------------- second loop

  ghost predicate SecondInv(c: Config, env: Env, s: State, total: int, p: Pass) {
    && WaitingInv(c, env, total, p) && Counted(c, env, s, total, p) && (!p.stop ==> Untouched(s, p))
  }

  /** The head has not been dealt with, and was not running. */
  lemma HeadUntouched(c: Config, env: Env, s: State, total: int, p: Pass)
    requires SecondInv(c, env, s, total, p) && !WaitingDone(c, p) && Partition(s, [])
    ensures var id := Peek(c, p.s);
      && At(p.s, id) == At(s, id) && (id in p.s.recvFailed <==> id in s.recvFailed)
      && id in p.s.reqs && id !in s.running && id !in p.order && id !in p.specs
  {
    var id := Peek(c, p.s);
    HeadIsQueued(c, p.s, p.stepSkipped);
    HeadNotScheduled(c, total, p);
    assert id in p.s.reqs && id !in p.stepSkipped;
    hide Peek, Counted;
    RunningKnown(s, id);
  }

  /** A promoted request keeps its tokens, and is computed as far as it rests. */
  lemma PromotedRests(env: Env, s: State, t: State, id: Id)
    requires id in t.reqs && At(t, id) == At(s, id) && (id in t.recvFailed <==> id in s.recvFailed)
    ensures var r := Promote(env, t, id);
      r.Some? ==>
        && At(r.value, id).computed == Resting(s, id)
        && At(r.value, id) == At(s, id).(status := At(r.value, id).status, computed := Resting(s, id))
        && r.value.kv.Keys <= t.kv.Keys
        && forall x :: x != id ==> (x in r.value.recvFailed <==> x in t.recvFailed)
  {
  }

  /** On what terms a request is admitted. */
  lemma AdmittedWhen(c: Config, env: Env, p: Pass, id: Id)
    ensures var ch := Consider(c, env, p, id);
            var v := At(ch.s, id);
      ch.Admit? ==>
        && Promote(env, p.s, id) == Some(ch.s)
        && ch.computed == (if v.computed != 0 then v.computed
                           else Hit(env, id) + (if c.connector then RemoteHit(env, id).tokens else 0))
        && ch.plan == WaitingPlan(c, env, p, v, id, ch.computed)
        && (c.chunked || WaitingWant(c, v, ch.computed) <= p.budget)
        && Granted(c, env, ch.s, v, id, ch.computed, ch.plan.n)
  {
    hide Promote, WaitingPlan, Granted;
  }

  lemma WaitingPlanMost(c: Config, env: Env, s: State, p: Pass, v: View, id: Id)
    requires id !in s.running && v.all == At(s, id).all && v.prompt == At(s, id).prompt && v.enc == At(s, id).enc
    requires c.chunked || WaitingWant(c, v, Base(c, env, s, id)) <= p.budget
    requires 0 <= Base(c, env, s, id) < |v.all| && p.budget > 0 && p.encBudget >= 0
    requires forall ask :: ask in env.encoder ==> PlanOk(ask, env.encoder[ask])
    ensures var n := WaitingPlan(c, env, p, v, id, Base(c, env, s, id)).n;
      Allowed(c, env, s, id, n) && Most(c, env, s, id, n, p.budget)
  {
    var base := Base(c, env, s, id);
    var n := Min(WaitingWant(c, v, base), p.budget);
    assert n >= 0 && MostOf(c, env, s, id, n, p.budget);
    assert WaitingPlan(c, env, p, v, id, base).n == Fitted(c, env, s, id, n, p.encBudget);
    var plan := EncoderFor(env, v, id, base, n, p.encBudget);
    AlignedBounds(c, v, base, plan.n);
    hide Base;
  }

  lemma GrantedSlots(c: Config, env: Env, s: State, t: State, v: View, id: Id, n: int)
    requires id !in s.running && v.computed == Resting(s, id) && v.all == At(s, id).all
    requires t.kv.Keys <= s.kv.Keys + s.reqs.Keys && Granted(c, env, t, v, id, Base(c, env, s, id), n)
    ensures Slots(c, env, s, id, n)
  {
    hide Base, Resting;
    assert SlotAsk(t.kv.Keys, id, SlotTokens(c, env, s, id, n)) !in env.refused;
  }

  /** What the admission of the head adds. */
  lemma AdmissionCounted(c: Config, env: Env, s: State, total: int, p: Pass)
    requires SecondInv(c, env, s, total, p) && !WaitingDone(c, p) && Partition(s, [])
    requires Consider(c, env, p, Peek(c, p.s)).Admit?
    ensures var id, ch := Peek(c, p.s), Consider(c, env, p, Peek(c, p.s));
      && Allowed(c, env, s, id, ch.plan.n) && Slots(c, env, s, id, ch.plan.n)
      && ch.computed == Base(c, env, s, id) && Most(c, env, s, id, ch.plan.n, p.budget)
  {
    var id, ch := Peek(c, p.s), Consider(c, env, p, Peek(c, p.s));
    HeadUntouched(c, env, s, total, p);
    DecidedNow(c, env, total, p);
    assert AdmitOk(p, ch.s, id, ch.computed, ch.plan) && p.encBudget >= 0 && p.s.kv.Keys <= s.kv.Keys + s.reqs.Keys;
    WaitingInvParts(c, env, total, p);
    hide Peek, Consider, WaitingInv, Decided, Counted, Untouched, Partition, Books, EnvOk, Allowed, Slots, Most;
    AdmittedWhen(c, env, p, id);
    PromotedRests(env, s, p.s, id);
    PlansOk(env, p.s);
    hide Promote, Granted, WaitingPlan, Resting;
    AdmittedTerms(c, env, s, p, ch.s, id, ch.computed, ch.plan);
  }

  lemma AdmittedTerms(c: Config, env: Env, s: State, p: Pass, t: State, id: Id, computed: int, plan: EncoderPlan)
    requires id !in s.running && p.budget > 0 && p.encBudget >= 0 && t.kv.Keys <= s.kv.Keys + s.reqs.Keys
    requires forall ask :: ask in env.encoder ==> PlanOk(ask, env.encoder[ask])
    requires At(t, id) == At(s, id).(status := At(t, id).status, computed := Resting(s, id))
    requires computed == (if At(t, id).computed != 0 then At(t, id).computed
                          else Hit(env, id) + (if c.connector then RemoteHit(env, id).tokens else 0))
    requires 0 <= computed < |At(t, id).all|
    requires plan == WaitingPlan(c, env, p, At(t, id), id, computed) && Granted(c, env, t, At(t, id), id, computed, plan.n)
    requires c.chunked || WaitingWant(c, At(t, id), computed) <= p.budget
    ensures computed == Base(c, env, s, id)
    ensures Allowed(c, env, s, id, plan.n) && Slots(c, env, s, id, plan.n) && Most(c, env, s, id, plan.n, p.budget)
  {
    assert computed == Base(c, env, s, id) by {
      hide Resting, WaitingPlan, Granted, WaitingWant;
    }
    hide Base, Resting, At, Allowed, Slots, Most, WaitingPlan, Granted, WaitingWant;
    WaitingPlanMost(c, env, s, p, At(t, id), id);
    GrantedSlots(c, env, s, t, At(t, id), id, plan.n);
  }

  lemma PlansOk(env: Env, s: State)
    requires EnvOk(env, s)
    ensures forall ask :: ask in env.encoder ==> PlanOk(ask, env.encoder[ask])
  {
  }

  /** One iteration leaves the others as they are. */
  lemma HeadStep(c: Config, env: Env, s: State, p: Pass)
    requires Partition(p.s, p.stepSkipped) && !WaitingDone(c, p)
    requires At(p.s, Peek(c, p.s)) == At(s, Peek(c, p.s))
    requires Peek(c, p.s) in p.s.recvFailed <==> Peek(c, p.s) in s.recvFailed
    ensures var id, q := Peek(c, p.s), WaitingStep(c, env, p);
      && (forall x :: x != id ==> At(q.s, x) == At(p.s, x))
      && (forall x :: x != id ==> (x in q.s.recvFailed <==> x in p.s.recvFailed))
      && q.s.kv.Keys <= p.s.kv.Keys + {id}
  {
    var id, q := Peek(c, p.s), WaitingStep(c, env, p);
    forall x | x != id ensures At(q.s, x) == At(p.s, x) {
      WaitingStepOthers(c, env, p, x);
    }
    HeadIsQueued(c, p.s, p.stepSkipped);
    ConsiderFits(c, env, p);
    ConsiderState(c, env, p, id);
    hide Consider, Peek, Partition;
    PromotedRests(env, s, p.s, id);
    hide Promote, Apply;
    var ch := Consider(c, env, p, id);
    if ch.Admit? {
      AdmittedPass(c, p, ch);
    } else {
      SetAsidePass(c, p, ch);
    }
  }

  lemma AdmitStep(c: Config, env: Env, p: Pass)
    requires Partition(p.s, p.stepSkipped) && !WaitingDone(c, p) && Consider(c, env, p, Peek(c, p.s)).Admit?
    ensures var id, q, ch := Peek(c, p.s), WaitingStep(c, env, p), Consider(c, env, p, Peek(c, p.s));
      && q.order == p.order + [id] && q.num == p.num[id := ch.plan.n] && q.specs == p.specs
      && q.preempted == p.preempted && q.stepSkipped == p.stepSkipped && At(q.s, id).computed == ch.computed
  {
    ConsiderFits(c, env, p);
    hide Consider, Peek, Partition;
    AdmittedPass(c, p, Consider(c, env, p, Peek(c, p.s)));
    ApplyView(c, p, Peek(c, p.s), Consider(c, env, p, Peek(c, p.s)));
    hide Apply;
  }

  lemma AsideStep(c: Config, env: Env, p: Pass)
    requires Partition(p.s, p.stepSkipped) && !WaitingDone(c, p) && !Consider(c, env, p, Peek(c, p.s)).Admit?
    ensures var id, q := Peek(c, p.s), WaitingStep(c, env, p);
      && q.order == p.order && q.num == p.num && q.specs == p.specs && q.preempted == p.preempted
      && (!q.stop ==> q.stepSkipped == [id] + p.stepSkipped)
  {
    ConsiderFits(c, env, p);
    hide Consider, Peek, Partition;
    SetAsidePass(c, p, Consider(c, env, p, Peek(c, p.s)));
    NoAdmissionShape(c, p, Consider(c, env, p, Peek(c, p.s)));
    hide Apply;
  }

  lemma AdmitCounted(c: Config, env: Env, s: State, total: int, p: Pass)
    requires SecondInv(c, env, s, total, p) && !WaitingDone(c, p) && Partition(s, [])
    requires Consider(c, env, p, Peek(c, p.s)).Admit?
    ensures var q := WaitingStep(c, env, p); Counted(c, env, s, total, q) && Untouched(s, q)
  {
    hide WaitingInv, Counted, Untouched, Consider, Peek, Partition, Allowed, Slots, Base, Books, At, WaitingStep, CountOk, WaitingDone,
         DraftsWithin;
    NotStopped(c, p);
    var id, q, n := Peek(c, p.s), WaitingStep(c, env, p), Consider(c, env, p, Peek(c, p.s)).plan.n;
    HeadUntouched(c, env, s, total, p);
    WaitingInvParts(c, env, total, p);
    AdmissionCounted(c, env, s, total, p);
    HeadStep(c, env, s, p);
    AdmitStep(c, env, p);
    HeldBlocks(c, env, s, total, p);
    HeadIsQueued(c, p.s, p.stepSkipped);
    KnownBefore(s, p, id);
    AdmittedUntouched(s, p, q, id);
    assert CountOk(c, env, s, q, id) by {
      OneCountOk(c, env, s, q, id);
    }
    OneCounted(c, env, s, total, p, q, id, n);
  }

  lemma NotStopped(c: Config, p: Pass)
    requires !WaitingDone(c, p)
    ensures !p.stop && (p.s.waiting != [] || p.s.skipped != [])
  {
  }

  lemma HeldBlocks(c: Config, env: Env, s: State, total: int, p: Pass)
    requires Counted(c, env, s, total, p)
    ensures p.s.kv.Keys <= s.kv.Keys + s.reqs.Keys
  {
  }

  lemma OneCountOk(c: Config, env: Env, s: State, q: Pass, id: Id)
    requires Allowed(c, env, s, id, Get(q.num, id)) && Slots(c, env, s, id, Get(q.num, id))
    requires id !in s.running && id !in q.specs && At(q.s, id).computed == Base(c, env, s, id)
    ensures CountOk(c, env, s, q, id)
  {
    hide Allowed, Slots, Base;
  }

  lemma KnownBefore(s: State, p: Pass, id: Id)
    requires id in Unfinished(p.s) && At(p.s, id) == At(s, id)
    ensures id in s.reqs
  {
  }

  /** What an admission does to the books. */
  lemma AdmittedPass(c: Config, p: Pass, ch: Choice)
    requires Fits(c, p, ch) && ch.Admit?
    ensures var id := Peek(c, p.s);
            var q := Apply(c, p, id, ch);
      && q.order == p.order + [id] && q.num == p.num[id := ch.plan.n] && q.specs == p.specs
      && q.preempted == p.preempted && q.stepSkipped == p.stepSkipped && q.stop == p.stop
      && q.s.kv.Keys == ch.s.kv.Keys + {id} && q.s.recvFailed == ch.s.recvFailed
      && q.newly == (if At(ch.s, id).status == Waiting then p.newly + [id] else p.newly)
      && q.resumed == (if At(ch.s, id).status == Preempted then p.resumed + [id] else p.resumed)
  {
    PopOnlyQueues(c, p.s, ch.s);
    hide Pop, Peek, Partition, Total;
  }

  lemma AdmittedUntouched(s: State, p: Pass, q: Pass, id: Id)
    requires Untouched(s, p) && q.order == p.order + [id] && q.preempted == p.preempted && q.stepSkipped == p.stepSkipped
    requires forall x :: x != id ==> At(q.s, x) == At(p.s, x) && (x in q.s.recvFailed <==> x in p.s.recvFailed)
    ensures Untouched(s, q)
  {
  }

  lemma NotAdmittedCounted(c: Config, env: Env, s: State, total: int, p: Pass)
    requires SecondInv(c, env, s, total, p) && !WaitingDone(c, p) && Partition(s, [])
    requires !Consider(c, env, p, Peek(c, p.s)).Admit?
    ensures var q := WaitingStep(c, env, p); Counted(c, env, s, total, q) && (!q.stop ==> Untouched(s, q))
  {
    hide WaitingInv, Counted, Untouched, Consider, Peek, Partition, Books, At, WaitingStep, WaitingDone;
    NotStopped(c, p);
    var id, q := Peek(c, p.s), WaitingStep(c, env, p);
    HeadUntouched(c, env, s, total, p);
    WaitingInvParts(c, env, total, p);
    HeadStep(c, env, s, p);
    AsideStep(c, env, p);
    HeldBlocks(c, env, s, total, p);
    HeadIsQueued(c, p.s, p.stepSkipped);
    KnownBefore(s, p, id);
    if !q.stop {
      AsideUntouched(s, p, q, id);
    }
    CountedAside(c, env, s, total, p, q, id);
  }

  lemma SetAsidePass(c: Config, p: Pass, ch: Choice)
    requires Fits(c, p, ch) && !ch.Admit?
    ensures var id := Peek(c, p.s);
            var q := Apply(c, p, id, ch);
      && q.s.kv.Keys <= ch.s.kv.Keys + {id} && q.s.recvFailed == ch.s.recvFailed
      && q.stop == (p.stop || ch.Halt?) && (!ch.Halt? ==> q.stepSkipped == [id] + p.stepSkipped)
  {
    if !ch.Halt? {
      PopOnlyQueues(c, p.s, ch.s);
    }
    hide Pop, Peek, Partition;
  }

  lemma AsideUntouched(s: State, p: Pass, q: Pass, id: Id)
    requires Untouched(s, p) && q.order == p.order && q.preempted == p.preempted && q.stepSkipped == [id] + p.stepSkipped
    requires forall x :: x != id ==> At(q.s, x) == At(p.s, x) && (x in q.s.recvFailed <==> x in p.s.recvFailed)
    ensures Untouched(s, q)
  {
    forall x | x !in q.order && x !in q.preempted && x !in q.stepSkipped
      ensures At(q.s, x) == At(s, x) && (x in q.s.recvFailed <==> x in s.recvFailed)
    {
      assert id in q.stepSkipped && forall y :: y in p.stepSkipped ==> y in q.stepSkipped;
      assert At(p.s, x) == At(s, x);
    }
  }

  lemma CountedAside(c: Config, env: Env, s: State, total: int, p: Pass, q: Pass, id: Id)
    requires Counted(c, env, s, total, p) && id !in p.order && q.s.kv.Keys <= s.kv.Keys + s.reqs.Keys
    requires q.order == p.order && q.num == p.num && q.specs == p.specs && q.preempted == p.preempted
    requires forall x :: x != id ==> At(q.s, x) == At(p.s, x)
    ensures Counted(c, env, s, total, q)
  {
    hide Allowed, Slots, DraftsWithin, Base, Drafts;
    forall x | x in q.order ensures CountOk(c, env, s, q, x) {
      assert CountOk(c, env, s, p, x);
    }
    if c.priority ==> q.preempted == [] {
      forall k | 0 <= k < |q.order| ensures Maximal(c, env, s, q, total, k) {
        assert Maximal(c, env, s, p, total, k);
      }
    }
  }

  lemma {:induction false} WaitingLoopCounted(c: Config, env: Env, s: State, total: int, p: Pass)
    requires SecondInv(c, env, s, total, p) && Partition(s, [])
    ensures Counted(c, env, s, total, WaitingLoop(c, env, p))
    decreases !p.stop, |p.s.waiting| + |p.s.skipped|
  {
    hide WaitingInv, WaitingStep, Counted, Untouched, Partition, Peek, Consider;
    if !WaitingDone(c, p) {
      WaitingStepInv(c, env, total, p);
      if Consider(c, env, p, Peek(c, p.s)).Admit? {
        AdmitCounted(c, env, s, total, p);
      } else {
        NotAdmittedCounted(c, env, s, total, p);
      }
      WaitingLoopCounted(c, env, s, total, WaitingStep(c, env, p));
    }
  }

  // -------------------------------------------------------------------------------- whole steps

  lemma StartCounted(c: Config, env: Env, s: State)
    requires Rest(c, s) && EnvOk(env, s)
    ensures FirstInv(c, env, s, Tokens(c, s), Start(c, s))
  {
    StartInv(c, env, s);
    hide RunningInv, Rest, EnvOk;
  }

  lemma CountedAfter(c: Config, env: Env, s: State, total: int, p: Pass, q: Pass)
    requires Counted(c, env, s, total, p)
    requires q.s.reqs == p.s.reqs && q.s.kv == p.s.kv && q.order == p.order && q.num == p.num && q.specs == p.specs
    requires q.preempted == p.preempted
    ensures Counted(c, env, s, total, q)
  {
    hide CountOk, Maximal;
    assert SameBooks(p, q);
    CountedElsewhere(c, env, s, total, p, q);
  }

  lemma FirstLoopCounted(c: Config, env: Env, s: State)
    requires Rest(c, s) && EnvOk(env, s)
    ensures FirstInv(c, env, s, Tokens(c, s), RunningLoop(c, env, Start(c, s)))
  {
    hide Rest, EnvOk, FirstInv, RunningLoop, Start;
    StartCounted(c, env, s);
    RunningLoopCounted(c, env, s, Tokens(c, s), Start(c, s));
  }

  lemma PassCounted(c: Config, env: Env, s: State)
    requires Rest(c, s) && EnvOk(env, s)
    ensures Counted(c, env, s, Tokens(c, s), SchedulePass(c, env, s))
  {
    hide Rest, RunningInv, Quiet, EnvOk, RunningLoop, WaitingLoop, Framed, PrevOk, Requeue, Partition, WaitingInv, Start, LorasOf,
         Counted, Untouched;
    RestParts(c, s);
    FirstLoop(c, env, s);
    FirstLoopCounted(c, env, s);
    var p := RunningLoop(c, env, Start(c, s));
    var q := SecondStart(c, p);
    if p.preempted == [] {
      HandOver(c, env, s, p);
      CountedAfter(c, env, s, Tokens(c, s), p, q);
      SameUntouched(s, p, q);
      WaitingLoopCounted(c, env, s, Tokens(c, s), q);
      RequeueFields(WaitingLoop(c, env, q));
      CountedAfter(c, env, s, Tokens(c, s), WaitingLoop(c, env, q), Requeue(WaitingLoop(c, env, q)));
    }
  }

  lemma SameUntouched(s: State, p: Pass, q: Pass)
    requires Untouched(s, p) && q.s == p.s && q.order == p.order && q.preempted == p.preempted && q.stepSkipped == p.stepSkipped
    ensures Untouched(s, q)
  {
  }

  lemma RequeueFields(p: Pass)
    ensures var q := Requeue(p);
      && q.s.reqs == p.s.reqs && q.s.kv == p.s.kv && q.order == p.order && q.num == p.num && q.specs == p.specs
      && q.preempted == p.preempted
  {
    hide Reverse;
  }

  lemma AdvancedCount(s: State, order: seq<Id>, num: map<Id, int>, specs: map<Id, seq<Token>>, id: Id)
    requires id in num && id in s.reqs
    ensures At(AfterSchedule(s, order, num, specs), id).computed == At(s, id).computed + num[id]
  {
    hide WriteKv;
  }

  lemma CountParts(c: Config, env: Env, s: State, total: int, p: Pass)
    requires Counted(c, env, s, total, p)
    ensures forall id :: id in p.order ==> CountOk(c, env, s, p, id)
    ensures (c.priority ==> p.preempted == []) ==> forall k :: 0 <= k < |p.order| ==> Maximal(c, env, s, p, total, k)
  {
  }

  /** Any call of `schedule` from a state at rest. */
  lemma ScheduleCounted(c: Config, env: Env, s: State)
    requires Rest(c, s) && EnvOk(env, s)
    ensures var p := SchedulePass(c, env, s);
      && (forall id :: id in p.order ==>
            && CountOk(c, env, s, p, id)
            && At(Schedule(c, env, s), id).computed == Base(c, env, s, id) + Get(p.num, id))
      && ((c.priority ==> p.preempted == []) ==>
            forall k :: 0 <= k < |p.order| ==> Maximal(c, env, s, p, Tokens(c, s), k))
  {
    hide Rest, EnvOk, SchedulePass, Counted, PassOk, AfterSchedule, Allowed, Slots, Maximal, DraftsWithin, Base;
    PassCounted(c, env, s);
    SchedulePassOk(c, env, s);
    var p := SchedulePass(c, env, s);
    CountParts(c, env, s, Tokens(c, s), p);
    forall id | id in p.order ensures At(Schedule(c, env, s), id).computed == Base(c, env, s, id) + Get(p.num, id) {
      ScheduledKnown(c, s, p, id);
      AdvancedCount(p.s, p.order, p.num, p.specs, id);
    }
  }

  lemma ScheduledKnown(c: Config, s: State, p: Pass, id: Id)
    requires PassOk(c, s, p) && id in p.order
    ensures id in p.num && id in p.s.reqs
  {
  }
}
