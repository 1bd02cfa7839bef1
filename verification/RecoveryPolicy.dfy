/**
 * `_handle_invalid_blocks` as a whole: which requests fail or are tried again,
 * and exactly how much of each is kept.
 */
module RecoveryPolicy {
  import opened Seqs
  import opened Requests
  import opened InvalidBlocks
  import opened SchedulerSpec
  import opened QueuePartition
  import opened ScheduleStep
  import opened Engine
  import opened ReportStep
  import opened Recovering

  /** `computed` is where the first invalid block begins that nobody else recomputes, or what the request had before. */
  ghost predicate KeptPrefix(items: map<Id, Item>, ids: seq<Id>, k: nat, invalid: set<Block>, blockSize: nat, computed: int)
    requires blockSize > 0 && k < |ids| && forall id :: id in ids ==> id in items
  {
    var it := items[ids[k]];
    && (forall i :: CutAt(items, ids, k, i, invalid, blockSize) ==> computed == i * blockSize)
    && ((forall i :: !CutAt(items, ids, k, i, invalid, blockSize)) ==>
          computed == if it.Bad(invalid, blockSize) == {} then it.computed else it.Prior())
  }

  lemma NothingInvalid(it: Item, invalid: set<Block>, blockSize: nat)
    requires blockSize > 0 && invalid == {}
    ensures it.Bad(invalid, blockSize) == {}
  {
    if b :| b in it.Bad(invalid, blockSize) {
      var i := BadPosition(it, invalid, blockSize, b);
    }
  }

  /** One batch. */
  lemma BatchKept(s: State, num: map<Id, int>, ans: Answer, ids: seq<Id>, evict: bool, blockSize: nat, k: nat)
    requires blockSize > 0 && NoDup(ids) && k < |ids|
    requires forall id :: id in ids ==> id in s.reqs && 0 <= Get(num, id) <= s.reqs[id].computed
    ensures var items := ItemsFor(s, num, ans, ids);
            var o := Repair(items, ids, ans.invalid, evict, blockSize);
      && KeptPrefix(items, ids, k, ans.invalid, blockSize, Repaired(s, o).reqs[ids[k]].computed)
      && (ids[k] in o.affected <==> items[ids[k]].Bad(ans.invalid, blockSize) != {})
  {
    var items := ItemsFor(s, num, ans, ids);
    assert forall id :: id in ids ==> id in items && items[id] == ItemFor(s, num, ans, id);
    hide ItemsFor, Repair, CutAt, First;
    ValidPrefixIsKept(items, ids, ans.invalid, evict, blockSize, k);
    ReportedIff(items, ids, ans.invalid, evict, blockSize, ids[k]);
  }

  lemma OthersKept(s: State, num: map<Id, int>, ans: Answer, ids: seq<Id>, evict: bool, blockSize: nat)
    requires blockSize > 0 && NoDup(ids)
    requires forall id :: id in ids ==> id in s.reqs && 0 <= Get(num, id) <= s.reqs[id].computed
    ensures var o := Repair(ItemsFor(s, num, ans, ids), ids, ans.invalid, evict, blockSize);
      && Repaired(s, o) == s.(reqs := Repaired(s, o).reqs) && Repaired(s, o).reqs.Keys == s.reqs.Keys
      && (forall id :: id in s.reqs && id !in ids ==> Repaired(s, o).reqs[id] == s.reqs[id])
      && (forall id :: id in o.affected ==> id in ids)
  {
    var items := ItemsFor(s, num, ans, ids);
    assert forall id :: id in ids ==> id in items && items[id] == ItemFor(s, num, ans, id);
    hide ItemsFor;
    ExactlyTheAffected(items, ids, ans.invalid, evict, blockSize);
    hide Repair;
  }

  lemma SameItems(s: State, t: State, num: map<Id, int>, ans: Answer, ids: seq<Id>)
    requires forall id :: id in ids ==> At(t, id).computed == At(s, id).computed
    ensures ItemsFor(t, num, ans, ids) == ItemsFor(s, num, ans, ids)
  {
  }

  /** The two batches, spelled out. */
  lemma TwoBatches(c: Config, s: State, num: map<Id, int>, ans: Answer)
    requires Partition(s, []) && CountsOk(s, num) && c.blockSize > 0 && ans.invalid != {}
    ensures var loading := AsyncLoading(s, s.skipped);
            var a := Repair(ItemsFor(s, num, ans, loading), loading, ans.invalid, false, c.blockSize);
            var s1 := Repaired(s, a);
            var b := Repair(ItemsFor(s, num, ans, s.running), s.running, ans.invalid, true, c.blockSize);
            var r := HandleInvalid(c, s, num, ans);
      && r.s.reqs == Repaired(s1, b).reqs
      && r.failed == (if c.recompute then b.affected else a.affected + b.affected)
      && r.s.recvFailed == (if c.recompute then s.recvFailed + a.affected else s.recvFailed)
  {
    var loading := AsyncLoading(s, s.skipped);
    LoadingsWait(s, num);
    RunningNoDup(s, []);
    LoadsAside(s, num);
    hide AsyncLoading, Repair, ItemsFor, Repaired, Partition, CountsOk, NoDup, HandleInvalid;
    OthersKept(s, num, ans, loading, false, c.blockSize);
    var a := Repair(ItemsFor(s, num, ans, loading), loading, ans.invalid, false, c.blockSize);
    var s1 := Repaired(s, a);
    assert s1.running == s.running && s1.recvFailed == s.recvFailed;
    SameItems(s, s1, num, ans, s.running);
    OthersKept(s1, num, ans, s.running, true, c.blockSize);
    HandledAs(c, s, num, ans);
    var b := Repair(ItemsFor(s, num, ans, s.running), s.running, ans.invalid, true, c.blockSize);
    Policy(c, s, Repaired(s1, b), a.affected, b.affected);
  }

  lemma HandledAs(c: Config, s: State, num: map<Id, int>, ans: Answer)
    requires c.blockSize > 0 && ans.invalid != {}
    ensures var loading := AsyncLoading(s, s.skipped);
            var a := Repair(ItemsFor(s, num, ans, loading), loading, ans.invalid, false, c.blockSize);
            var s1 := Repaired(s, a);
            var b := Repair(ItemsFor(s1, num, ans, s1.running), s1.running, ans.invalid, true, c.blockSize);
      HandleInvalid(c, s, num, ans) == Verdict(c, Repaired(s1, b), a.affected, b.affected)
  {
    hide AsyncLoading, Repair, ItemsFor, Repaired;
  }

  function Verdict(c: Config, s: State, loads: set<Id>, running: set<Id>): Recovery {
    if loads == {} && running == {} then Recovery(s, {})
    else if !c.recompute then Recovery(s, loads + running)
    else Recovery(s.(recvFailed := s.recvFailed + loads), running)
  }

  lemma Policy(c: Config, s: State, t: State, loads: set<Id>, running: set<Id>)
    requires t.recvFailed == s.recvFailed
    ensures var r := Verdict(c, t, loads, running);
      && r.s.reqs == t.reqs
      && r.failed == (if c.recompute then running else loads + running)
      && r.s.recvFailed == (if c.recompute then s.recvFailed + loads else s.recvFailed)
  {
    assert s.recvFailed + {} == s.recvFailed;
  }

  lemma LoadsAside(s: State, num: map<Id, int>)
    requires Partition(s, []) && CountsOk(s, num)
    ensures forall id :: id in s.running ==>
      id in s.reqs && id !in AsyncLoading(s, s.skipped) && 0 <= Get(num, id) <= s.reqs[id].computed
  {
    SkippedNoDup(s);
    AsyncLoadingFacts(s, s.skipped);
    hide AsyncLoading;
    forall id | id in s.running
      ensures id in s.reqs && id !in AsyncLoading(s, s.skipped) && 0 <= Get(num, id) <= s.reqs[id].computed
    {
      RunningKnown(s, id);
    }
  }

  /**
   * A running request with an invalid block in what it had computed before the
   * step is passed over by the report, or failed, according to the policy; it
   * keeps exactly its valid prefix.
   */
  lemma RunningRecovered(c: Config, s: State, num: map<Id, int>, ans: Answer, k: nat)
    requires Partition(s, []) && CountsOk(s, num) && c.blockSize > 0 && k < |s.running|
    ensures var items := ItemsFor(s, num, ans, s.running);
            var r := HandleInvalid(c, s, num, ans);
            var id := s.running[k];
      && id in r.s.reqs && KeptPrefix(items, s.running, k, ans.invalid, c.blockSize, r.s.reqs[id].computed)
      && (id in r.failed <==> items[id].Bad(ans.invalid, c.blockSize) != {})
  {
    var items, id := ItemsFor(s, num, ans, s.running), s.running[k];
    LoadsAside(s, num);
    RunningNoDup(s, []);
    if ans.invalid == {} {
      NothingInvalid(items[id], ans.invalid, c.blockSize);
    } else {
      LoadingsWait(s, num);
      TwoBatches(c, s, num, ans);
      hide AsyncLoading, Repair, ItemsFor, Repaired, Partition, CountsOk, HandleInvalid, KeptPrefix, NoDup;
      var loading := AsyncLoading(s, s.skipped);
      OthersKept(s, num, ans, loading, false, c.blockSize);
      var a := Repair(ItemsFor(s, num, ans, loading), loading, ans.invalid, false, c.blockSize);
      var s1 := Repaired(s, a);
      SameItems(s, s1, num, ans, s.running);
      BatchKept(s1, num, ans, s.running, true, c.blockSize, k);
    }
  }

  /**
   * A load with an invalid block keeps exactly its valid prefix too; it is
   * failed, or noted for another try once it is reported as finished.
   */
  lemma LoadRecovered(c: Config, s: State, num: map<Id, int>, ans: Answer, k: nat)
    requires Partition(s, []) && CountsOk(s, num) && c.blockSize > 0 && k < |AsyncLoading(s, s.skipped)|
    ensures var ids := AsyncLoading(s, s.skipped);
            var items := ItemsFor(s, num, ans, ids);
            var r := HandleInvalid(c, s, num, ans);
            var id := ids[k];
            var bad := items[id].Bad(ans.invalid, c.blockSize) != {};
      && id in r.s.reqs && KeptPrefix(items, ids, k, ans.invalid, c.blockSize, r.s.reqs[id].computed)
      && (id in r.failed <==> bad && !c.recompute)
      && (id in r.s.recvFailed <==> id in s.recvFailed || (bad && c.recompute))
  {
    var ids := AsyncLoading(s, s.skipped);
    var items, id := ItemsFor(s, num, ans, ids), ids[k];
    LoadingsWait(s, num);
    LoadsAside(s, num);
    RunningNoDup(s, []);
    assert id in ids;
    if ans.invalid == {} {
      NothingInvalid(items[id], ans.invalid, c.blockSize);
    } else {
      TwoBatches(c, s, num, ans);
      hide AsyncLoading, Repair, ItemsFor, Repaired, Partition, CountsOk, HandleInvalid, KeptPrefix, NoDup;
      OthersKept(s, num, ans, ids, false, c.blockSize);
      BatchKept(s, num, ans, ids, false, c.blockSize, k);
      var a := Repair(ItemsFor(s, num, ans, ids), ids, ans.invalid, false, c.blockSize);
      var s1 := Repaired(s, a);
      SameItems(s, s1, num, ans, s.running);
      OthersKept(s1, num, ans, s.running, true, c.blockSize);
    }
  }

  /** Both, for every reachable state with a report to come. */
  lemma EveryReportRecovers(c: Config, run: seq<Event>, ans: Answer)
    requires LegalRun(c, INITIAL, run) && Legal(c, After(c, INITIAL, run), Event.Report(ans)) && c.blockSize > 0
    ensures After(c, INITIAL, run).pending.Some?
    ensures var s, num := After(c, INITIAL, run).s, After(c, INITIAL, run).pending.value.num;
            var r, ids := HandleInvalid(c, s, num, ans), AsyncLoading(s, s.skipped);
      && (forall k :: 0 <= k < |s.running| ==>
            var id := s.running[k];
            && id in r.s.reqs
            && KeptPrefix(ItemsFor(s, num, ans, s.running), s.running, k, ans.invalid, c.blockSize, r.s.reqs[id].computed))
      && (forall k :: 0 <= k < |ids| ==>
            && ids[k] in r.s.reqs
            && KeptPrefix(ItemsFor(s, num, ans, ids), ids, k, ans.invalid, c.blockSize, r.s.reqs[ids[k]].computed))
  {
    hide EngineInv, LegalRun, After, Legal, HandleInvalid, KeptPrefix, AsyncLoading, ItemsFor, CountsOk, Partition;
    InitialInv(c);
    RunKeepsInv(c, INITIAL, run);
    var e := After(c, INITIAL, run);
    LegalReport(c, e, ans);
    CountsInFlight(c, e);
    RestingQueues(c, e);
    forall k: nat | k < |e.s.running| { RunningRecovered(c, e.s, e.pending.value.num, ans, k); }
    forall k: nat | k < |AsyncLoading(e.s, e.s.skipped)| { LoadRecovered(c, e.s, e.pending.value.num, ans, k); }
  }

  lemma RestingQueues(c: Config, e: Engine)
    requires EngineInv(c, e)
    ensures Partition(e.s, [])
  {
  }
}
