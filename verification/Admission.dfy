/** The second loop of `schedule`: admission keeps the books, the plans and the KV sound. */
module Admission {
  import opened Seqs
  import opened Requests
  import opened SchedulerSpec
  import opened QueuePartition
  import opened Frames
  import opened Accounting
  import opened Planning

  /**
   * A request scheduled in the previous step is not PREEMPTED now, and cannot
   * become so without being scheduled again.
   */
  ghost predicate PrevOk(s: State) {
    forall id :: id in s.prev && id in s.reqs ==> NotResumable(s.reqs[id])
  }

  ghost predicate NotResumable(v: View) {
    || IsFinished(v.status) || v.status == Running
    || (v.status != Preempted && (v.preemptions == 0 || (v.status in {Waiting, WaitingForStreamingReq} && v.computed > 0)))
  }

  ghost predicate ResumedOk(p: Pass) {
    forall id :: id in p.resumed ==> id !in p.s.prev && id in p.order
  }

  ghost predicate WaitingInv(c: Config, env: Env, total: int, p: Pass) {
    && Partition(p.s, p.stepSkipped) && Books(c, total, p)
    && Sound(c, p) && EnvOk(env, p.s) && PrevOk(p.s) && ResumedOk(p) && !p.invalid
    && |p.s.running| <= c.maxRunning && p.preempted == []
  }

  lemma TakeShorter<T>(a: seq<T>, b: seq<T>, n: nat, m: nat)
    requires m <= n <= |a| && n <= |b| && Take(a, n) == Take(b, n)
    ensures Take(a, m) == Take(b, m)
  {
    assert Take(a, m) == Take(a, n)[..m] && Take(b, m) == Take(b, n)[..m];
  }

  // ------------------------------------------------------------------ promotion

  lemma PromotedIsReady(c: Config, env: Env, s: State, id: Id)
    requires AllReady(c, s) && id in s.reqs && Promote(env, s, id).Some?
    ensures var t := Promote(env, s, id).value;
      id in t.reqs && Ready(c, t.reqs[id]) && forall x :: x in t.recvFailed ==> x in s.recvFailed && x != id
  {
    assert Ready(c, s.reqs[id]);
  }

  lemma PromoteReady(c: Config, env: Env, s: State, id: Id)
    requires AllReady(c, s) && id in s.reqs
    ensures var r := Promote(env, s, id); r.Some? ==> AllReady(c, r.value)
  {
    var r := Promote(env, s, id);
    if r.Some? {
      PromotedIsReady(c, env, s, id);
      PromoteFacts(env, s, id);
      hide Promote, Ready;
      forall x | x in r.value.reqs ensures Ready(c, r.value.reqs[x]) {
        assert x in s.reqs && Ready(c, s.reqs[x]);
      }
    }
  }

  lemma PromoteKv(c: Config, env: Env, s: State, id: Id)
    requires AllReady(c, s) && AllKv(s) && id in s.reqs
    ensures var r := Promote(env, s, id); r.Some? ==> AllKv(r.value)
  {
    var r := Promote(env, s, id);
    assert Ready(c, s.reqs[id]) && KvReady(s, id);
    if r.Some? {
      var v := s.reqs[id];
      if v.status == WaitingForRemoteKvs && v.computed == |v.all| {
        TakeShorter(s.kv[id], v.all, v.computed, v.computed - 1);
      }
      forall x | x in r.value.reqs ensures KvReady(r.value, x) {
        assert x in s.reqs && KvReady(s, x);
      }
    }
  }

  lemma PromotePrev(env: Env, s: State, id: Id)
    requires PrevOk(s) && id in s.reqs
    ensures var r := Promote(env, s, id); r.Some? ==> PrevOk(r.value) && r.value.prev == s.prev
  {
  }

  /** The state on which the decision about the head is based. */
  lemma ConsiderSound(c: Config, env: Env, total: int, p: Pass)
    requires WaitingInv(c, env, total, p) && (p.s.waiting != [] || p.s.skipped != [])
    ensures var s := Consider(c, env, p, Peek(c, p.s)).s;
      AllReady(c, s) && AllKv(s) && PrevOk(s) && s.prev == p.s.prev
  {
    var id := Peek(c, p.s);
    HeadIsQueued(c, p.s, p.stepSkipped);
    ConsiderState(c, env, p, id);
    hide Peek, Consider, Promote, AllReady, AllKv, PrevOk, Partition, Books;
    PromoteReady(c, env, p.s, id);
    PromoteKv(c, env, p.s, id);
    PromotePrev(env, p.s, id);
  }

  // ------------------------------------------------------------------- decisions

  lemma WaitingPlanFacts(c: Config, env: Env, p: Pass, v: View, id: Id, computed: int)
    requires 0 <= computed < |v.all| && p.budget > 0 && p.encBudget >= 0
    requires forall ask :: ask in env.encoder ==> PlanOk(ask, env.encoder[ask])
    ensures var plan := WaitingPlan(c, env, p, v, id, computed);
            && 0 <= plan.n <= p.budget
            && computed + plan.n <= |v.all|
            && 0 <= plan.budget == p.encBudget - Total(plan.embeds)
            && Total(plan.embeds) >= 0
  {
    var n := Min(WaitingWant(c, v, computed), p.budget);
    var plan := EncoderFor(env, v, id, computed, n, p.encBudget);
    AlignedBounds(c, v, computed, plan.n);
    TotalNonNegative(plan.embeds);
  }

  ghost predicate LoadOk(s: State, id: Id, computed: int) {
    id in s.reqs && s.reqs[id].computed == 0 && 0 <= computed <= |s.reqs[id].all|
  }

  ghost predicate AdmitOk(p: Pass, s: State, id: Id, computed: int, plan: EncoderPlan) {
    && id in s.reqs && 0 <= computed < |s.reqs[id].all|
    && (s.reqs[id].computed != 0 ==> computed == s.reqs[id].computed)
    && 0 < plan.n <= p.budget && computed + plan.n <= |s.reqs[id].all|
    && 0 <= plan.budget == p.encBudget - Total(plan.embeds) && Total(plan.embeds) >= 0
  }

  lemma ConsiderDecides(c: Config, env: Env, p: Pass, id: Id)
    requires id in Unfinished(p.s) && EnvOk(env, p.s) && p.budget > 0 && p.encBudget >= 0
    requires var s := Consider(c, env, p, id).s;
      && id in s.reqs && Ready(c, s.reqs[id]) && s.reqs[id].all == p.s.reqs[id].all
      && !IsFinished(s.reqs[id].status)
    ensures var ch := Consider(c, env, p, id);
            && (ch.LoadRemote? ==> LoadOk(ch.s, id, ch.computed))
            && (ch.Admit? && ch.s.reqs[id].status in {Waiting, Preempted} ==> AdmitOk(p, ch.s, id, ch.computed, ch.plan))
  {
    var ch := Consider(c, env, p, id);
    var v := ch.s.reqs[id];
    hide Promote, Granted, WaitingPlan, Unfinished;
    if ch.Admit? && v.status in {Waiting, Preempted} {
      assert 0 <= ch.computed < |v.all|;
      WaitingPlanFacts(c, env, p, v, id, ch.computed);
    }
  }

  // --------------------------------------------------------------------- applying

  lemma AdmitBooks(c: Config, env: Env, total: int, p: Pass, ch: Choice)
    requires Books(c, total, p) && Fits(c, p, ch) && ch.Admit?
    requires Partition(p.s, p.stepSkipped)
    requires AdmitOk(p, ch.s, Peek(c, p.s), ch.computed, ch.plan)
    requires At(ch.s, Peek(c, p.s)).status in {Waiting, Preempted}
    requires p.preempted == []
    ensures Books(c, total, Apply(c, p, Peek(c, p.s), ch))
    ensures Peek(c, p.s) !in p.order
  {
    var id := Peek(c, p.s);
    HeadIsQueued(c, p.s, p.stepSkipped);
    PopOnlyQueues(c, p.s, ch.s);
    var q := Apply(c, p, id, ch);
    hide Peek, Pop, Partition, StartKv, Fits, Total;
    EnterBooks(c, total, p, q, id, ch.plan, p.encBudget);
  }

  lemma AdmitShape(c: Config, p: Pass, ch: Choice)
    requires Fits(c, p, ch) && ch.Admit?
    ensures var id := Peek(c, p.s);
            var q := Apply(c, p, id, ch);
            && q.s.reqs == ch.s.reqs[id := At(ch.s, id).(status := Running, computed := ch.computed)]
            && q.s.kv == StartKv(ch.s, id, ch.computed)
            && q.s.recvFailed == ch.s.recvFailed && q.s.prev == ch.s.prev
            && q.order == p.order + [id] && q.num == p.num[id := ch.plan.n] && q.specs == p.specs
            && q.stepSkipped == p.stepSkipped && q.preempted == p.preempted
            && q.resumed == (if At(ch.s, id).status == Preempted then p.resumed + [id] else p.resumed)
  {
    PopOnlyQueues(c, p.s, ch.s);
    hide Peek, Pop, StartKv, Fits, Partition;
  }

  /** Replacing one request by a ready one. */
  lemma PutReady(c: Config, s: State, t: State, id: Id)
    requires AllReady(c, s) && id in s.reqs && id !in s.recvFailed
    requires t.reqs == s.reqs[id := At(t, id)] && t.recvFailed == s.recvFailed && Ready(c, At(t, id))
    ensures AllReady(c, t)
  {
  }

  lemma PutKv(s: State, t: State, id: Id)
    requires AllKv(s) && id in s.reqs
    requires t.reqs == s.reqs[id := At(t, id)] && KvReady(t, id)
    requires forall x :: x in s.kv && x != id ==> x in t.kv && t.kv[x] == s.kv[x]
    ensures AllKv(t)
  {
    forall x | x in t.reqs && x != id ensures KvReady(t, x) {
      assert KvReady(s, x);
    }
  }

  lemma NotFailed(c: Config, s: State, id: Id)
    requires AllReady(c, s) && At(s, id).status != WaitingForRemoteKvs
    ensures id !in s.recvFailed
  {
  }

  lemma StartKvReady(c: Config, s: State, t: State, id: Id, computed: int)
    requires AllKv(s) && id in s.reqs && !IsFinished(s.reqs[id].status) && 0 <= computed <= |s.reqs[id].all|
    requires s.reqs[id].computed != 0 ==> computed == s.reqs[id].computed && s.reqs[id].computed > 0
    requires t.kv == StartKv(s, id, computed)
    requires id in t.reqs && t.reqs[id] == s.reqs[id].(status := t.reqs[id].status, computed := computed)
    ensures KvReady(t, id)
    ensures forall x :: x in s.kv && x != id ==> x in t.kv && t.kv[x] == s.kv[x]
  {
    assert KvReady(s, id);
  }

  lemma NewPlan(p: Pass, q: Pass, id: Id, n: int)
    requires AllPlanned(p) && id !in p.order && id !in p.specs
    requires q.order == p.order + [id] && q.num == p.num[id := n] && q.specs == p.specs
    requires q.s.reqs == p.s.reqs[id := At(q.s, id)] && Planned(At(q.s, id), n, [])
    ensures AllPlanned(q)
  {
  }

  lemma AdmitSound(c: Config, p: Pass, ch: Choice)
    requires Fits(c, p, ch) && ch.Admit? && AllReady(c, ch.s) && AllKv(ch.s) && AllPlanned(p.(s := ch.s))
    requires AdmitOk(p, ch.s, Peek(c, p.s), ch.computed, ch.plan)
    requires At(ch.s, Peek(c, p.s)).status in {Waiting, Preempted}
    requires Peek(c, p.s) !in p.order && Peek(c, p.s) !in p.specs
    ensures Sound(c, Apply(c, p, Peek(c, p.s), ch))
  {
    var id := Peek(c, p.s);
    var q := Apply(c, p, id, ch);
    assert Ready(c, ch.s.reqs[id]);
    AdmitShape(c, p, ch);
    NotFailed(c, ch.s, id);
    hide Fits, Peek, Apply, AllReady, AllKv, AllPlanned, StartKv, KvReady;
    PutReady(c, ch.s, q.s, id);
    StartKvReady(c, ch.s, q.s, id, ch.computed);
    PutKv(ch.s, q.s, id);
    NewPlan(p.(s := ch.s), q, id, ch.plan.n);
  }

  lemma LoadShape(c: Config, p: Pass, ch: Choice)
    requires Fits(c, p, ch) && ch.LoadRemote?
    ensures var id := Peek(c, p.s);
            var q := Apply(c, p, id, ch);
            && q.s.reqs == ch.s.reqs[id := At(ch.s, id).(status := WaitingForRemoteKvs, computed := ch.computed)]
            && q.s.kv == StartKv(ch.s, id, ch.computed)
            && q.s.recvFailed == ch.s.recvFailed && q.s.prev == ch.s.prev && q.s.running == ch.s.running
            && q == p.(s := q.s, stepSkipped := [id] + p.stepSkipped)
  {
    PopOnlyQueues(c, p.s, ch.s);
    hide Peek, Pop, StartKv, Fits, Partition;
  }

  /** Plans do not mind what happens to requests that are not scheduled. */
  lemma SamePlans(p: Pass, q: Pass, id: Id)
    requires AllPlanned(p) && id !in p.order
    requires q.order == p.order && q.num == p.num && q.specs == p.specs
    requires q.s.reqs == p.s.reqs[id := At(q.s, id)]
    ensures AllPlanned(q)
  {
  }

  lemma LoadSound(c: Config, p: Pass, ch: Choice)
    requires Fits(c, p, ch) && ch.LoadRemote? && AllReady(c, ch.s) && AllKv(ch.s) && AllPlanned(p.(s := ch.s))
    requires LoadOk(ch.s, Peek(c, p.s), ch.computed)
    requires Peek(c, p.s) !in p.order
    ensures Sound(c, Apply(c, p, Peek(c, p.s), ch))
  {
    var id := Peek(c, p.s);
    var q := Apply(c, p, id, ch);
    assert Ready(c, ch.s.reqs[id]) && !IsFinished(ch.s.reqs[id].status);
    LoadShape(c, p, ch);
    NotFailed(c, ch.s, id);
    hide Fits, Peek, Apply, AllReady, AllKv, AllPlanned, StartKv, KvReady;
    PutReady(c, ch.s, q.s, id);
    StartKvReady(c, ch.s, q.s, id, ch.computed);
    PutKv(ch.s, q.s, id);
    SamePlans(p.(s := ch.s), q, id);
  }

  // ------------------------------------------------------------- one iteration

  lemma StayPlanned(c: Config, p: Pass, s: State, id: Id)
    requires AllPlanned(p) && id !in p.order && id in p.s.reqs
    requires s.reqs == p.s.reqs[id := At(s, id)]
    ensures AllPlanned(p.(s := s))
  {
  }

  /** What is known when the decision about the head is carried out. */
  ghost predicate Decided(c: Config, env: Env, total: int, p: Pass, ch: Choice) {
    && WaitingInv(c, env, total, p) && Fits(c, p, ch) && Framed(c, p.s, ch.s)
    && AllReady(c, ch.s) && AllKv(ch.s) && PrevOk(ch.s) && ch.s.prev == p.s.prev
    && AllPlanned(p.(s := ch.s))
    && var id := Peek(c, p.s);
       && id !in p.order && id !in p.specs && (ch.LoadRemote? ==> c.connector)
       && (ch.LoadRemote? ==> LoadOk(ch.s, id, ch.computed))
       && (ch.Admit? ==> AdmitOk(p, ch.s, id, ch.computed, ch.plan))
  }

  lemma HeadNotScheduled(c: Config, total: int, p: Pass)
    requires Partition(p.s, p.stepSkipped) && Books(c, total, p) && (p.s.waiting != [] || p.s.skipped != [])
    ensures Peek(c, p.s) !in p.order && Peek(c, p.s) !in p.specs
    ensures p.encBudget >= 0
  {
    HeadIsQueued(c, p.s, p.stepSkipped);
  }

  lemma FramedView(c: Config, s: State, t: State, id: Id)
    requires Framed(c, s, t) && AllReady(c, t) && id in Unfinished(s)
    ensures id in t.reqs && Ready(c, t.reqs[id]) && t.reqs[id].all == s.reqs[id].all && !IsFinished(t.reqs[id].status)
  {
    assert Touched(c, s.reqs[id], t.reqs[id]);
  }

  lemma DecidedNow(c: Config, env: Env, total: int, p: Pass)
    requires WaitingInv(c, env, total, p) && !WaitingDone(c, p)
    ensures Decided(c, env, total, p, Consider(c, env, p, Peek(c, p.s)))
  {
    var id := Peek(c, p.s);
    var ch := Consider(c, env, p, id);
    WaitingInvParts(c, env, total, p);
    HeadIsQueued(c, p.s, p.stepSkipped);
    HeadNotScheduled(c, total, p);
    ConsiderFits(c, env, p);
    ConsiderFramed(c, env, p, id);
    ConsiderSound(c, env, total, p);
    ConsiderChanges(c, env, p, id);
    ConsiderLoads(c, env, p, id);
    hide Peek, Consider, WaitingInv, Partition, Books, AllReady, AllKv, AllPlanned, PrevOk, EnvOk, Framed, Unfinished, Ready;
    FramedView(c, p.s, ch.s, id);
    ConsiderDecides(c, env, p, id);
    StayPlanned(c, p, ch.s, id);
    FitsStatus(c, p, ch);
  }

  lemma WaitingInvParts(c: Config, env: Env, total: int, p: Pass)
    requires WaitingInv(c, env, total, p)
    ensures Partition(p.s, p.stepSkipped) && Books(c, total, p) && AllPlanned(p) && EnvOk(env, p.s) && p.preempted == []
  {
  }

  lemma FitsStatus(c: Config, p: Pass, ch: Choice)
    requires Fits(c, p, ch)
    ensures ch.LoadRemote? || ch.Admit? ==> At(ch.s, Peek(c, p.s)).status in {Waiting, Preempted}
    ensures Peek(c, p.s) in Unfinished(ch.s) && Peek(c, p.s) in ch.s.reqs
  {
  }

  lemma ConsiderChanges(c: Config, env: Env, p: Pass, id: Id)
    requires id in p.s.reqs
    ensures var s := Consider(c, env, p, id).s; s.reqs == p.s.reqs[id := At(s, id)]
  {
    ConsiderState(c, env, p, id);
    PromoteFacts(env, p.s, id);
    assert p.s.reqs[id := At(p.s, id)] == p.s.reqs;
  }

  lemma BooksElsewhere(c: Config, total: int, p: Pass, q: Pass)
    requires Books(c, total, p) && q == p.(s := q.s, stop := q.stop, stepSkipped := q.stepSkipped)
    requires q.s.running == p.s.running
    ensures Books(c, total, q)
  {
  }

  lemma NoAdmissionShape(c: Config, p: Pass, ch: Choice)
    requires Fits(c, p, ch) && !ch.Admit?
    ensures var q := Apply(c, p, Peek(c, p.s), ch);
            && q == p.(s := q.s, stop := q.stop, stepSkipped := q.stepSkipped)
            && q.s.running == p.s.running && q.s.prev == ch.s.prev
            && (!ch.LoadRemote? ==> q.s.reqs == ch.s.reqs && q.s.kv == ch.s.kv && q.s.recvFailed == ch.s.recvFailed)
  {
    if !ch.Halt? {
      PopOnlyQueues(c, p.s, ch.s);
    }
    hide Pop, Peek, StartKv, Partition;
  }

  lemma ApplyBooks(c: Config, env: Env, total: int, p: Pass, ch: Choice)
    requires Decided(c, env, total, p, ch)
    ensures Books(c, total, Apply(c, p, Peek(c, p.s), ch))
  {
    WaitingInvParts(c, env, total, p);
    DecidedParts(c, env, total, p, ch);
    FitsStatus(c, p, ch);
    var id := Peek(c, p.s);
    assert ch.Admit? ==> AdmitOk(p, ch.s, id, ch.computed, ch.plan);
    hide Peek, Apply, Books, Partition, Fits, Decided, AdmitOk;
    if ch.Admit? {
      AdmitBooks(c, env, total, p, ch);
    } else {
      NoAdmissionShape(c, p, ch);
      BooksElsewhere(c, total, p, Apply(c, p, id, ch));
    }
  }

  lemma ApplySound(c: Config, env: Env, total: int, p: Pass, ch: Choice)
    requires Decided(c, env, total, p, ch)
    ensures Sound(c, Apply(c, p, Peek(c, p.s), ch))
  {
    if ch.Admit? {
      FitsStatus(c, p, ch);
      hide Peek, Apply, Fits;
      AdmitSound(c, p, ch);
    } else if ch.LoadRemote? {
      hide Peek, Apply, Fits;
      LoadSound(c, p, ch);
    } else {
      NoAdmissionShape(c, p, ch);
      hide Peek, Apply, Fits;
      SoundElsewhere(c, p, ch.s, Apply(c, p, Peek(c, p.s), ch));
    }
  }

  /** Soundness does not look at the queues. */
  lemma SoundElsewhere(c: Config, p: Pass, s: State, q: Pass)
    requires AllReady(c, s) && AllKv(s) && AllPlanned(p.(s := s))
    requires q.s.reqs == s.reqs && q.s.kv == s.kv && q.s.recvFailed == s.recvFailed
    requires q.order == p.order && q.num == p.num && q.specs == p.specs
    ensures Sound(c, q)
  {
    forall x | x in q.s.reqs ensures KvReady(q.s, x) {
      assert KvReady(s, x);
    }
  }

  lemma PutPrev(s: State, t: State, id: Id)
    requires PrevOk(s) && t.prev == s.prev && id in s.reqs
    requires t.reqs == s.reqs[id := At(t, id)] && (NotResumable(s.reqs[id]) ==> NotResumable(At(t, id)))
    ensures PrevOk(t)
  {
  }

  lemma AdmitPrev(c: Config, p: Pass, ch: Choice)
    requires Fits(c, p, ch) && ch.Admit? && PrevOk(ch.s) && ch.s.prev == p.s.prev && ResumedOk(p)
    requires Peek(c, p.s) in ch.s.reqs
    ensures var q := Apply(c, p, Peek(c, p.s), ch); PrevOk(q.s) && ResumedOk(q) && q.preempted == p.preempted
  {
    var id := Peek(c, p.s);
    AdmitShape(c, p, ch);
    var q := Apply(c, p, id, ch);
    hide Peek, Apply, Fits, StartKv;
    assert id in ch.s.prev ==> NotResumable(ch.s.reqs[id]);
    PutPrev(ch.s, q.s, id);
  }

  lemma LoadPrev(c: Config, p: Pass, ch: Choice)
    requires Fits(c, p, ch) && ch.LoadRemote? && PrevOk(ch.s) && ch.s.prev == p.s.prev && ResumedOk(p)
    requires LoadOk(ch.s, Peek(c, p.s), ch.computed) && At(ch.s, Peek(c, p.s)).status in {Waiting, Preempted}
    ensures var q := Apply(c, p, Peek(c, p.s), ch); PrevOk(q.s) && ResumedOk(q) && q.preempted == p.preempted
  {
    var id := Peek(c, p.s);
    LoadShape(c, p, ch);
    var q := Apply(c, p, id, ch);
    hide Peek, Apply, Fits, StartKv;
    PutPrev(ch.s, q.s, id);
  }

  lemma PrevElsewhere(p: Pass, s: State, q: Pass)
    requires PrevOk(s) && ResumedOk(p) && s.prev == p.s.prev
    requires q == p.(s := q.s, stop := q.stop, stepSkipped := q.stepSkipped)
    requires q.s.reqs == s.reqs && q.s.prev == s.prev
    ensures PrevOk(q.s) && ResumedOk(q)
  {
  }

  lemma ApplyPrev(c: Config, env: Env, total: int, p: Pass, ch: Choice)
    requires Decided(c, env, total, p, ch)
    ensures var q := Apply(c, p, Peek(c, p.s), ch); PrevOk(q.s) && ResumedOk(q) && q.preempted == []
  {
    hide Peek, Apply, Fits, Decided, LoadOk, PrevOk, ResumedOk;
    DecidedParts(c, env, total, p, ch);
    FitsStatus(c, p, ch);
    if ch.Admit? {
      AdmitPrev(c, p, ch);
    } else if ch.LoadRemote? {
      LoadPrev(c, p, ch);
    } else {
      NoAdmissionShape(c, p, ch);
      PrevElsewhere(p, ch.s, Apply(c, p, Peek(c, p.s), ch));
    }
  }

  lemma WaitingStepInv(c: Config, env: Env, total: int, p: Pass)
    requires WaitingInv(c, env, total, p) && !WaitingDone(c, p)
    ensures WaitingInv(c, env, total, WaitingStep(c, env, p))
  {
    hide Peek, Consider, Apply, Decided, Fits, Framed, Sound, Books, Partition, EnvOk, PrevOk, ResumedOk, LoadOk, AdmitOk;
    var ch := Consider(c, env, p, Peek(c, p.s));
    DecidedNow(c, env, total, p);
    BelowMax(c, p);
    WaitingInvParts(c, env, total, p);
    DecidedParts(c, env, total, p, ch);
    ApplyBooks(c, env, total, p, ch);
    ApplySound(c, env, total, p, ch);
    ApplyPrev(c, env, total, p, ch);
    ApplyKeeps(c, p, ch);
    ApplyFramed(c, p, ch);
    EnvFramed(c, env, p.s, Apply(c, p, Peek(c, p.s), ch).s);
  }

  lemma BelowMax(c: Config, p: Pass)
    requires !WaitingDone(c, p) && |p.s.running| <= c.maxRunning
    ensures |p.s.running| < c.maxRunning
  {
  }

  lemma DecidedParts(c: Config, env: Env, total: int, p: Pass, ch: Choice)
    requires Decided(c, env, total, p, ch)
    ensures Fits(c, p, ch) && Framed(c, p.s, ch.s)
    ensures PrevOk(ch.s) && ch.s.prev == p.s.prev && ResumedOk(p) && p.preempted == []
    ensures ch.LoadRemote? ==> LoadOk(ch.s, Peek(c, p.s), ch.computed) && c.connector
    ensures ch.Admit? ==> AdmitOk(p, ch.s, Peek(c, p.s), ch.computed, ch.plan)
  {
  }

  lemma {:induction false} WaitingLoopInv(c: Config, env: Env, total: int, p: Pass)
    requires WaitingInv(c, env, total, p)
    ensures WaitingInv(c, env, total, WaitingLoop(c, env, p))
    decreases !p.stop, |p.s.waiting| + |p.s.skipped|
  {
    if !WaitingDone(c, p) {
      WaitingStepInv(c, env, total, p);
      hide WaitingInv, WaitingStep;
      WaitingLoopInv(c, env, total, WaitingStep(c, env, p));
    }
  }
}
