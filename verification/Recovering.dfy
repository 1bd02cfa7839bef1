/** Failed KV loads: `_handle_invalid_blocks` only lowers computed counts, and never below a usable state. */
module Recovering {
  import opened Seqs
  import opened Requests
  import opened InvalidBlocks
  import opened SchedulerSpec
  import opened QueuePartition
  import opened Planning
  import opened Admission
  import opened ScheduleStep
  import opened Engine
  import opened EngineStep
  import opened Receiving
  import opened Reporting

  lemma {:induction false} AsyncLoadingFacts(s: State, q: seq<Id>)
    requires NoDup(q)
    ensures NoDup(AsyncLoading(s, q))
    ensures forall id :: id in AsyncLoading(s, q) <==> id in q && At(s, id).status == WaitingForRemoteKvs
  {
    if q != [] {
      var n := |q| - 1;
      AsyncLoadingFacts(s, q[..n]);
      assert q == q[..n] + [q[n]];
    }
  }

  lemma SkippedNoDup(s: State)
    requires Partition(s, [])
    ensures NoDup(s.skipped)
  {
    forall id | id in s.skipped ensures multiset(s.skipped)[id] == 1 {
      Member(s, [], id);
      assert multiset(s.skipped)[id] <= Queued(s, [])[id];
    }
    NoDupByCount(s.skipped);
  }

  /** How recovery may change one request. */
  ghost predicate Lowered(v: View, w: View, n: int) {
    && w == v.(computed := w.computed)
    && (0 <= v.computed ==> 0 <= w.computed) && w.computed <= v.computed
    && (w.computed != v.computed ==> w.computed <= v.computed - n)
  }

  /**
   * `Repaired` over one batch: requests of the batch are lowered, by at least
   * what this step scheduled when they are affected, and the others stay.
   */
  lemma {:induction false} RepairedBatch(s: State, num: map<Id, int>, ans: Answer, ids: seq<Id>, evict: bool, blockSize: nat)
    requires blockSize > 0 && NoDup(ids)
    requires forall id :: id in ids ==> id in s.reqs && 0 <= Get(num, id) <= s.reqs[id].computed
    ensures var o := Repair(ItemsFor(s, num, ans, ids), ids, ans.invalid, evict, blockSize);
            var t := Repaired(s, o);
            && t == s.(reqs := t.reqs) && t.reqs.Keys == s.reqs.Keys
            && (forall id :: id in s.reqs && id !in o.affected ==> t.reqs[id] == s.reqs[id])
            && (forall id :: id in o.affected ==> id in ids)
            && (forall id :: id in ids ==> Lowered(s.reqs[id], t.reqs[id], Get(num, id)))
            && (forall id :: id in o.affected ==> t.reqs[id].computed <= s.reqs[id].computed - Get(num, id))
  {
    var items := ItemsFor(s, num, ans, ids);
    assert forall id :: id in ids ==> id in items && items[id] == ItemFor(s, num, ans, id);
    hide First;
    ExactlyTheAffected(items, ids, ans.invalid, evict, blockSize);
    var o := Repair(items, ids, ans.invalid, evict, blockSize);
    hide Repair;
    forall id | id in s.reqs && id !in o.affected ensures Repaired(s, o).reqs[id] == s.reqs[id] {
      if id in o.computed {
        assert o.computed[id] == items[id].computed;
      }
    }
  }

  lemma {:induction false} LoadsTruncated(s: State, num: map<Id, int>, ans: Answer, ids: seq<Id>, blockSize: nat)
    requires blockSize > 0 && NoDup(ids) && LoadsDisjoint(s, ans)
    requires forall id :: id in ids ==> id in s.reqs && s.reqs[id].status == WaitingForRemoteKvs
    requires forall id :: id in ids ==> 0 <= Get(num, id) <= s.reqs[id].computed
    ensures var o := Repair(ItemsFor(s, num, ans, ids), ids, ans.invalid, false, blockSize);
      forall id :: id in o.affected ==> id in ids && Repaired(s, o).reqs[id].computed < s.reqs[id].computed
  {
    var items := ItemsFor(s, num, ans, ids);
    assert forall id :: id in ids ==> id in items && items[id] == ItemFor(s, num, ans, id);
    UnsharedAreTruncated(items, ids, ans.invalid, false, blockSize);
    ExactlyTheAffected(items, ids, ans.invalid, false, blockSize);
    hide Repair;
  }

  /** What recovery does to the state. */
  ghost predicate RecoveryOk(s: State, num: map<Id, int>, r: Recovery) {
    && r.s == s.(reqs := r.s.reqs, recvFailed := r.s.recvFailed) && r.s.reqs.Keys == s.reqs.Keys
    && (forall id :: id in s.reqs ==> RecoveredRequest(s, num, r, id))
    && (forall id :: id in r.failed ==> id in s.reqs && s.reqs[id].status in {Running, WaitingForRemoteKvs})
    && (forall id :: id in r.s.recvFailed ==>
          (|| id in s.recvFailed
           || (id in s.reqs && s.reqs[id].status == WaitingForRemoteKvs && r.s.reqs[id].computed < s.reqs[id].computed)))
  }

  ghost predicate RecoveredRequest(s: State, num: map<Id, int>, r: Recovery, id: Id)
    requires id in s.reqs && id in r.s.reqs
  {
    var v, w := s.reqs[id], r.s.reqs[id];
    && Lowered(v, w, Get(num, id))
    && (v.status !in {Running, WaitingForRemoteKvs} ==> w == v)
    && (v.status == Running && id !in r.failed ==> w == v)
    && (v.status == Running && id in r.failed ==> w.computed <= v.computed - Get(num, id))
  }

  /** Scheduled counts are those of requests in flight, so nobody else has one. */
  ghost predicate CountsOk(s: State, num: map<Id, int>) {
    && (forall id :: id in s.running ==> id in s.reqs && s.reqs[id].status == Running)
    && (forall id :: id in s.reqs && s.reqs[id].status == WaitingForRemoteKvs ==> Get(num, id) == 0)
    && (forall id :: id in s.reqs && !IsFinished(s.reqs[id].status) ==> 0 <= Get(num, id) <= s.reqs[id].computed)
  }

  /** Only the requests in `affected` changed, and nothing but their computed count. */
  ghost predicate OnlyCut(s: State, t: State, affected: set<Id>) {
    && t == s.(reqs := t.reqs) && t.reqs.Keys == s.reqs.Keys
    && (forall id :: id in s.reqs && id !in affected ==> t.reqs[id] == s.reqs[id])
    && (forall id :: id in affected ==> id in s.reqs)
  }

  ghost predicate LoadsCut(s: State, t: State, num: map<Id, int>, affected: set<Id>) {
    && OnlyCut(s, t, affected)
    && (forall id :: id in affected ==>
          s.reqs[id].status == WaitingForRemoteKvs && t.reqs[id].computed < s.reqs[id].computed
          && Lowered(s.reqs[id], t.reqs[id], Get(num, id)))
  }

  ghost predicate RunningCut(s: State, t: State, num: map<Id, int>, affected: set<Id>) {
    && OnlyCut(s, t, affected)
    && (forall id :: id in affected ==>
          s.reqs[id].status == Running && t.reqs[id].computed <= s.reqs[id].computed - Get(num, id)
          && Lowered(s.reqs[id], t.reqs[id], Get(num, id)))
  }

  lemma {:induction false} FirstBatch(c: Config, s: State, num: map<Id, int>, ans: Answer)
    requires Partition(s, []) && CountsOk(s, num) && LoadsDisjoint(s, ans) && c.blockSize > 0
    ensures var loading := AsyncLoading(s, s.skipped);
            var o := Repair(ItemsFor(s, num, ans, loading), loading, ans.invalid, false, c.blockSize);
            LoadsCut(s, Repaired(s, o), num, o.affected)
  {
    hide Partition, Repaired, AsyncLoading, Repair, ItemsFor, CountsOk, LoadsDisjoint, NoDup, Lowered;
    var loading := AsyncLoading(s, s.skipped);
    LoadingsWait(s, num);
    RepairedBatch(s, num, ans, loading, false, c.blockSize);
    LoadsTruncated(s, num, ans, loading, c.blockSize);
  }

  lemma {:induction false} LoadingsWait(s: State, num: map<Id, int>)
    requires Partition(s, []) && CountsOk(s, num)
    ensures NoDup(AsyncLoading(s, s.skipped))
    ensures forall id :: id in AsyncLoading(s, s.skipped) ==>
      id in s.reqs && s.reqs[id].status == WaitingForRemoteKvs && 0 <= Get(num, id) <= s.reqs[id].computed
  {
    SkippedNoDup(s);
    AsyncLoadingFacts(s, s.skipped);
    hide AsyncLoading;
    forall id | id in AsyncLoading(s, s.skipped)
      ensures id in s.reqs && s.reqs[id].status == WaitingForRemoteKvs && 0 <= Get(num, id) <= s.reqs[id].computed
    {
      Member(s, [], id);
    }
  }

  lemma SecondBatch(c: Config, s: State, num: map<Id, int>, ans: Answer)
    requires NoDup(s.running) && CountsOk(s, num) && c.blockSize > 0
    ensures var o := Repair(ItemsFor(s, num, ans, s.running), s.running, ans.invalid, true, c.blockSize);
            RunningCut(s, Repaired(s, o), num, o.affected)
  {
    hide Repaired, Repair, ItemsFor;
    RepairedBatch(s, num, ans, s.running, true, c.blockSize);
  }

  lemma HandleInvalidOk(c: Config, s: State, num: map<Id, int>, ans: Answer)
    requires Partition(s, []) && CountsOk(s, num) && LoadsDisjoint(s, ans)
    ensures RecoveryOk(s, num, HandleInvalid(c, s, num, ans))
  {
    if ans.invalid != {} && c.blockSize != 0 {
      RunningNoDup(s, []);
      var loading := AsyncLoading(s, s.skipped);
      var a := Repair(ItemsFor(s, num, ans, loading), loading, ans.invalid, false, c.blockSize);
      var s1 := Repaired(s, a);
      FirstBatch(c, s, num, ans);
      CountsStay(s, s1, num, a.affected);
      var b := Repair(ItemsFor(s1, num, ans, s1.running), s1.running, ans.invalid, true, c.blockSize);
      SecondBatch(c, s1, num, ans);
      hide Repaired, Repair, ItemsFor, Partition, AsyncLoading;
      BothBatches(c, s, s1, Repaired(s1, b), num, a.affected, b.affected, HandleInvalid(c, s, num, ans));
    }
  }

  lemma CountsStay(s: State, t: State, num: map<Id, int>, affected: set<Id>)
    requires CountsOk(s, num) && LoadsCut(s, t, num, affected)
    ensures CountsOk(t, num)
  {
  }

  /** A load is truncated by the first batch only, a running request by the second only. */
  lemma CutOnce(s: State, s1: State, s2: State, num: map<Id, int>, a: set<Id>, b: set<Id>)
    requires LoadsCut(s, s1, num, a) && RunningCut(s1, s2, num, b)
    ensures s2 == s.(reqs := s2.reqs) && s2.reqs.Keys == s.reqs.Keys
    ensures forall id :: id in a ==>
      id in s.reqs && id !in b && s.reqs[id].status == WaitingForRemoteKvs && s2.reqs[id].computed < s.reqs[id].computed
    ensures forall id :: id in b ==> id in s.reqs && id !in a && s.reqs[id].status == Running
  {
  }

  lemma CutRequest(s: State, s1: State, s2: State, num: map<Id, int>, a: set<Id>, b: set<Id>, r: Recovery, id: Id)
    requires CountsOk(s, num) && LoadsCut(s, s1, num, a) && RunningCut(s1, s2, num, b) && id in s.reqs
    requires r.s.reqs == s2.reqs && (id in b ==> id in r.failed) && (id in r.failed ==> id in a || id in b)
    ensures id in s2.reqs && RecoveredRequest(s, num, r, id)
  {
    CutOnce(s, s1, s2, num, a, b);
  }

  lemma BothBatches(c: Config, s: State, s1: State, s2: State, num: map<Id, int>, a: set<Id>, b: set<Id>, r: Recovery)
    requires CountsOk(s, num) && LoadsCut(s, s1, num, a) && RunningCut(s1, s2, num, b)
    requires r == if a == {} && b == {} then Recovery(s2, {})
                  else if !c.recompute then Recovery(s2, a + b)
                  else Recovery(s2.(recvFailed := s2.recvFailed + a), b)
    ensures RecoveryOk(s, num, r)
  {
    hide RecoveredRequest, CountsOk, LoadsCut, RunningCut;
    CutOnce(s, s1, s2, num, a, b);
    forall id | id in s.reqs ensures RecoveredRequest(s, num, r, id) {
      CutRequest(s, s1, s2, num, a, b, r, id);
    }
  }

  // ---------------------------------------------------------- into the loop

  lemma CountsInFlight(c: Config, e: Engine)
    requires EngineInv(c, e) && e.pending.Some?
    ensures CountsOk(e.s, e.pending.value.num)
  {
    var num := e.pending.value.num;
    forall id | id in e.s.running ensures id in e.s.reqs && e.s.reqs[id].status == Running {
      RunningKnown(e.s, id);
    }
    forall id | id in e.s.reqs && !IsFinished(e.s.reqs[id].status)
      ensures 0 <= Get(num, id) <= e.s.reqs[id].computed
      ensures e.s.reqs[id].status == WaitingForRemoteKvs ==> Get(num, id) == 0
    {
      assert RequestOk(c, e, id);
    }
  }

  lemma LoweredKv(s: State, t: State, id: Id, d: seq<Token>)
    requires id in s.reqs && id in t.reqs && t.kv == s.kv
    requires t.reqs[id] == s.reqs[id].(computed := t.reqs[id].computed)
    requires 0 <= t.reqs[id].computed <= s.reqs[id].computed && t.reqs[id].computed <= |s.reqs[id].all|
    requires FlyingKv(s, id, d) && s.reqs[id].computed <= |s.reqs[id].all| + |d|
    ensures KvReady(t, id)
  {
    var v, w := s.reqs[id], t.reqs[id];
    PrefixOfPrefix(s.kv[id], v.all + d, v.all, v.computed, w.computed);
  }

  lemma RecoveredMidRequest(c: Config, e: Engine, r: Recovery, id: Id)
    requires EngineInv(c, e) && e.pending.Some? && id in e.s.reqs
    requires RecoveryOk(e.s, e.pending.value.num, r)
    ensures id in r.s.reqs && MidRequest(c, e.pending.value, r.failed, [], r.s, id)
  {
    var out := e.pending.value;
    var v, w := e.s.reqs[id], r.s.reqs[id];
    assert RequestOk(c, e, id) && RecoveredRequest(e.s, out.num, r, id);
    if InFlight(e, id) {
      if id in r.failed {
        LoweredKv(e.s, r.s, id, Drafts(out.specs, id));
      }
    } else if !IsFinished(v.status) {
      if w.computed < v.computed {
        TakeShorter(e.s.kv[id], v.all, v.computed, w.computed);
      }
    }
  }

  lemma RecoveredLoads(c: Config, e: Engine, r: Recovery)
    requires EngineInv(c, e) && e.pending.Some?
    requires RecoveryOk(e.s, e.pending.value.num, r)
    ensures LoadsOk(c, r.s) && PrevOk(r.s)
  {
    var num := e.pending.value.num;
    forall id | id in r.s.recvFailed
      ensures id in r.s.reqs && r.s.reqs[id].status == WaitingForRemoteKvs && r.s.reqs[id].computed < |r.s.reqs[id].all|
    {
      assert id in e.s.reqs && RecoveredRequest(e.s, num, r, id) && RequestOk(c, e, id);
    }
    forall id | id in r.s.reqs
      ensures r.s.reqs[id].status == e.s.reqs[id].status
      ensures id in r.s.prev ==> NotResumable(r.s.reqs[id])
    {
      assert RecoveredRequest(e.s, num, r, id);
    }
  }

  lemma RecoveredMid(c: Config, e: Engine, ans: Answer)
    requires EngineInv(c, e) && e.pending.Some? && LoadsDisjoint(e.s, ans)
    ensures var r := HandleInvalid(c, e.s, e.pending.value.num, ans);
      && MidInv(c, e.pending.value, r.failed, [], Acc(r.s, {}, {}, []))
      && RecoveryOk(e.s, e.pending.value.num, r)
  {
    var out := e.pending.value;
    var r := HandleInvalid(c, e.s, out.num, ans);
    CountsInFlight(c, e);
    assert Partition(e.s, []) && |e.s.running| <= c.maxRunning;
    hide HandleInvalid, MidRequest, LoadsDisjoint;
    HandleInvalidOk(c, e.s, out.num, ans);
    RecoveredLoads(c, e, r);
    forall id | id in r.s.reqs ensures MidRequest(c, out, r.failed, [], r.s, id) {
      RecoveredMidRequest(c, e, r, id);
    }
    var a := Acc(r.s, {}, {}, []);
    WithoutNothing(r.s.running, {});
    RecoveredStatuses(e.s, r, out.num);
    hide RecoveryOk, EngineInv, PrevOk, LoadsOk;
    PartitionByStatus(e.s, Settled(a));
  }

  lemma RecoveredStatuses(s: State, r: Recovery, num: map<Id, int>)
    requires RecoveryOk(s, num, r)
    ensures SameStatuses(s, r.s)
    ensures r.s.running == s.running && r.s.waiting == s.waiting && r.s.skipped == s.skipped
  {
    forall id | id in s.reqs ensures r.s.reqs[id].status == s.reqs[id].status {
      assert RecoveredRequest(s, num, r, id);
    }
  }
}
