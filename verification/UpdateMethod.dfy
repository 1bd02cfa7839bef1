/** `Scheduler.update_from_output`, in place: failed loads, tokens, stops, transfers. */
module UpdateMethod {
  import opened Seqs
  import opened Requests
  import opened InvalidBlocks
  import opened SchedulerSpec
  import opened RequestObject
  import opened SchedulerObject
  import Recovering

  // ---------------------------------------------------------------------- invalid blocks

  lemma {:induction false} FirstIs(blocks: seq<Block>, limit: nat, bad: set<Block>, k: nat)
    requires k <= limit <= |blocks| && (forall j :: 0 <= j < k ==> blocks[j] !in bad) && (k < limit ==> blocks[k] in bad)
    ensures First(blocks, limit, bad) == k
  {
  }

  /** The scan over the computed blocks of one request. */
  method ScanBlocks(it: Item, invalid: set<Block>, marked0: set<Block>, blockSize: nat)
    returns (affected: bool, cut: nat, marked: set<Block>)
    requires blockSize > 0
    ensures affected <==> it.Bad(invalid, blockSize) != {}
    ensures cut == First(it.blocks, it.Window(blockSize), invalid - marked0)
    ensures marked == marked0 + it.Bad(invalid, blockSize)
  {
    var w := it.Window(blockSize);
    affected, cut, marked := false, w, marked0;
    var found := false;
    var k := 0;
    assert it.blocks[..0] == [];
    while k < w
      invariant 0 <= k <= w && cut <= w
      invariant affected <==> BadAmong(it.blocks[..k], invalid) != {}
      invariant marked == marked0 + BadAmong(it.blocks[..k], invalid)
      invariant !found ==> cut == w && forall j :: 0 <= j < k ==> it.blocks[j] !in invalid - marked0
      invariant found ==> cut < k && it.blocks[cut] in invalid - marked0 && forall j :: 0 <= j < cut ==> it.blocks[j] !in invalid - marked0
    {
      var b := it.blocks[k];
      assert it.blocks[..k + 1][..k] == it.blocks[..k];
      if b in invalid {
        BadAmongIff(it.blocks[..k], invalid, b);
        affected := true;
        if b !in marked {
          marked := marked + {b};
          if !found {
            found, cut := true, k;
          }
        } else if !found {
          NotNew(it, invalid, marked0, k);
        }
      }
      k := k + 1;
    }
    FirstIs(it.blocks, w, invalid - marked0, cut);
  }

  /** A block that this request has just marked was new when it was first seen. */
  lemma {:induction false} NotNew(it: Item, invalid: set<Block>, marked0: set<Block>, k: nat)
    requires k < |it.blocks| && it.blocks[k] in marked0 + BadAmong(it.blocks[..k], invalid)
    requires forall j :: 0 <= j < k ==> it.blocks[j] !in invalid - marked0
    ensures it.blocks[k] !in invalid - marked0
  {
    BadAmongIff(it.blocks[..k], invalid, it.blocks[k]);
    if it.blocks[k] in BadAmong(it.blocks[..k], invalid) {
      var j :| 0 <= j < k && it.blocks[..k][j] == it.blocks[k];
      assert it.blocks[j] !in invalid - marked0;
    }
  }

  /** `_update_requests_with_invalid_blocks`, for one request. */
  method RepairRequest(sched: Scheduler, r: Request, it: Item, invalid: set<Block>, evict: bool, o0: Outcome) returns (o: Outcome)
    requires sched.Valid() && sched.Knows(r) && sched.c.blockSize > 0 && it.computed == r.Value().computed
    modifies r
    ensures sched.Valid() && o == RepairOne(o0, r.id, it, invalid, evict, sched.c.blockSize)
    ensures r.id in o.computed
    ensures sched.Model() == Put(old(sched.Model()), r.id, old(r.Value()).(computed := o.computed[r.id]))
  {
    hide Ids, Request.Value, Scheduler.Model, Scheduler.Values, Scheduler.Linked;
    r.ComputedIs();
    sched.ModelAt(r);
    var bs := sched.c.blockSize;
    var affected, cut, marked := ScanBlocks(it, invalid, o0.marked, bs);
    var prior := it.computed - it.scheduled;
    var kept := it.computed;
    var total, evicted := o0.total, o0.evict;
    if cut < it.Window(bs) {
      kept := cut * bs;
      total := total + (prior - kept);
      if evict {
        evicted := evicted + (set b | b in it.blocks[cut..]);
      }
    } else if affected {
      kept := prior;
      total := total + (it.computed - prior);
    }
    CutIsAffected(it, invalid, o0.marked, bs);
    sched.LowerComputed(r, kept);
    o := Outcome(o0.computed[r.id := kept], if affected then o0.affected + {r.id} else o0.affected, total, evicted, marked);
  }

  lemma {:induction false} CutIsAffected(it: Item, invalid: set<Block>, marked: set<Block>, blockSize: nat)
    requires blockSize > 0
    ensures First(it.blocks, it.Window(blockSize), invalid - marked) < it.Window(blockSize) ==> it.Bad(invalid, blockSize) != {}
    ensures it.Bad(invalid, blockSize) == {} ==> marked + it.Bad(invalid, blockSize) == marked
  {
    var k := First(it.blocks, it.Window(blockSize), invalid - marked);
    if k < it.Window(blockSize) {
      HitIsBad(it, invalid, blockSize, k);
    }
  }

  lemma RepairedOne(s: State, o: Outcome, id: Id, it: Item, invalid: set<Block>, evict: bool, blockSize: nat)
    requires blockSize > 0 && id in s.reqs && id !in o.computed
    ensures var q := RepairOne(o, id, it, invalid, evict, blockSize);
            && id in q.computed && Repaired(s, o).reqs[id] == s.reqs[id]
            && Put(Repaired(s, o), id, s.reqs[id].(computed := q.computed[id])) == Repaired(s, q)
  {
    var q := RepairOne(o, id, it, invalid, evict, blockSize);
    assert q.computed == o.computed[id := q.computed[id]];
    hide RepairOne;
    assert Put(Repaired(s, o), id, s.reqs[id].(computed := q.computed[id])).reqs == Repaired(s, q).reqs;
  }

  /** The next request of a batch. */
  method RepairNext(
      sched: Scheduler, q: seq<Request>, num: map<Id, int>, ans: Answer, evict: bool, k: nat, o0: Outcome,
      ghost s: State, ghost items: map<Id, Item>)
    returns (o: Outcome)
    requires sched.Valid() && sched.Linked(q) && sched.Closed(q) && k < |q| && sched.c.blockSize > 0
    requires items == ItemsFor(s, num, ans, Ids(q)) && q[k].id in items
    requires q[k].id !in o0.computed && sched.Model() == Repaired(s, o0)
    modifies q
    ensures sched.Valid() && sched.Model() == Repaired(s, o)
    ensures o == RepairOne(o0, q[k].id, items[q[k].id], ans.invalid, evict, sched.c.blockSize)
  {
    hide Ids, Request.Value, Scheduler.Model, Scheduler.Values, Scheduler.Linked, Scheduler.Closed, Repaired, RepairOne, NoDup;
    var r := q[k];
    KnownAt(sched, q, k);
    sched.ModelAt(r);
    KnownBefore(s, o0, r.id);
    RepairedOne(s, o0, r.id, items[r.id], ans.invalid, evict, sched.c.blockSize);
    r.ComputedIs();
    var it := Item(r.computed, if r.id in num then num[r.id] else 0, if r.id in ans.blocks then ans.blocks[r.id] else []);
    assert it == items[r.id];
    o := RepairRequest(sched, r, it, ans.invalid, evict, o0);
  }

  /** `_update_requests_with_invalid_blocks`. */
  method RepairBatch(sched: Scheduler, q: seq<Request>, num: map<Id, int>, ans: Answer, evict: bool) returns (o: Outcome)
    requires sched.Valid() && sched.Linked(q) && sched.Closed(q) && NoDup(Ids(q)) && sched.c.blockSize > 0
    modifies q
    ensures sched.Valid()
    ensures var s := old(sched.Model());
            && o == Repair(ItemsFor(s, num, ans, Ids(q)), Ids(q), ans.invalid, evict, sched.c.blockSize)
            && sched.Model() == Repaired(s, o)
  {
    hide Ids, Request.Value, Scheduler.Model, Scheduler.Values, Scheduler.Linked, Scheduler.Closed, Repaired, RepairOne, NoDup;
    ghost var s := sched.Model();
    ghost var ids := Ids(q);
    ghost var items := ItemsFor(s, num, ans, ids);
    o := NOTHING;
    var k := 0;
    NothingRepaired(s);
    assert ids[..0] == [];
    while k < |q|
      invariant 0 <= k <= |q| && sched.Valid()
      invariant o == Repair(items, ids[..k], ans.invalid, evict, sched.c.blockSize) && sched.Model() == Repaired(s, o)
    {
      NextOfBatch(items, ids, ans.invalid, evict, sched.c.blockSize, k);
      o := RepairNext(sched, q, num, ans, evict, k, o, s, items);
      k := k + 1;
    }
    assert ids[..k] == ids;
  }

  lemma NothingRepaired(s: State)
    ensures Repaired(s, NOTHING) == s
  {
    assert Repaired(s, NOTHING).reqs == s.reqs;
  }

  lemma KnownAt(sched: Scheduler, q: seq<Request>, k: nat)
    requires sched.Linked(q) && sched.Closed(q) && k < |q|
    ensures sched.Knows(q[k]) && Ids(q)[k] == q[k].id && q[k] in q
  {
  }

  lemma KnownBefore(s: State, o: Outcome, id: Id)
    ensures id in Repaired(s, o).reqs ==> id in s.reqs
  {
  }

  lemma {:induction false} NextOfBatch(items: map<Id, Item>, ids: seq<Id>, invalid: set<Block>, evict: bool, blockSize: nat, k: nat)
    requires blockSize > 0 && NoDup(ids) && k < |ids| && forall id :: id in ids ==> id in items
    ensures ids[k] in items && forall id :: id in ids[..k] ==> id in items
    ensures forall id :: id in ids[..k + 1] ==> id in items
    ensures Repair(items, ids[..k + 1], invalid, evict, blockSize)
         == RepairOne(Repair(items, ids[..k], invalid, evict, blockSize), ids[k], items[ids[k]], invalid, evict, blockSize)
    ensures ids[k] !in Repair(items, ids[..k], invalid, evict, blockSize).computed
  {
    assert ids[..k + 1][..k] == ids[..k] && ids[..k + 1][k] == ids[k];
    RepairKeys(items, ids[..k], invalid, evict, blockSize);
    hide RepairOne;
  }

  lemma {:induction false} RepairKeys(items: map<Id, Item>, ids: seq<Id>, invalid: set<Block>, evict: bool, blockSize: nat)
    requires blockSize > 0 && forall id :: id in ids ==> id in items
    ensures forall id :: id in Repair(items, ids, invalid, evict, blockSize).computed ==> id in ids
  {
    if ids != [] {
      RepairKeys(items, ids[..|ids| - 1], invalid, evict, blockSize);
    }
  }

  /** The asynchronously loading requests, in the order of `skipped_waiting`. */
  method LoadingRequests(sched: Scheduler) returns (q: seq<Request>)
    requires sched.Valid() && sched.Closed(sched.skipped)
    ensures Ids(q) == AsyncLoading(sched.Model(), Ids(sched.skipped))
    ensures sched.Linked(q) && sched.Closed(q) && forall r :: r in q ==> r in sched.skipped
  {
    ghost var s := sched.Model();
    ghost var ids := Ids(sched.skipped);
    sched.ModelOfAll();
    q := [];
    var k := 0;
    assert ids[..0] == [];
    while k < |sched.skipped|
      invariant 0 <= k <= |sched.skipped| && Ids(q) == AsyncLoading(s, ids[..k])
      invariant sched.Linked(q) && sched.Closed(q) && forall r :: r in q ==> r in sched.skipped
    {
      var r := sched.skipped[k];
      assert ids[..k + 1][..k] == ids[..k];
      if r.status == WaitingForRemoteKvs {
        IdsPush(r, q);
        q := q + [r];
      }
      k := k + 1;
    }
    assert ids[..k] == ids;
  }

  lemma {:induction false} HandleInvalidIs(c: Config, s: State, num: map<Id, int>, ans: Answer, a: Outcome, b: Outcome)
    requires ans.invalid != {} && c.blockSize > 0
    requires var loading := AsyncLoading(s, s.skipped);
      a == Repair(ItemsFor(s, num, ans, loading), loading, ans.invalid, false, c.blockSize)
    requires var t := Repaired(s, a);
      b == Repair(ItemsFor(t, num, ans, t.running), t.running, ans.invalid, true, c.blockSize)
    ensures var t := Repaired(Repaired(s, a), b);
      HandleInvalid(c, s, num, ans) ==
        if a.affected == {} && b.affected == {} then Recovery(t, {})
        else if !c.recompute then Recovery(t, a.affected + b.affected)
        else Recovery(t.(recvFailed := t.recvFailed + a.affected), b.affected)
  {
    hide Repaired, Repair, ItemsFor, AsyncLoading;
  }

  /** `_handle_invalid_blocks`. */
  method HandleInvalidBlocks(sched: Scheduler, num: map<Id, int>, ans: Answer) returns (failed: set<Id>)
    requires sched.Valid() && sched.Closed(sched.running) && sched.Closed(sched.skipped)
    requires NoDup(Ids(sched.running)) && NoDup(Ids(sched.skipped))
    modifies sched`recvFailed, sched.requests.Values
    ensures sched.Valid()
    ensures Recovery(sched.Model(), failed) == HandleInvalid(sched.c, old(sched.Model()), num, ans)
  {
    hide Ids, Request.Value, Scheduler.Model, Scheduler.Values, Scheduler.Linked, Scheduler.Closed, Repaired, Repair, NoDup, AsyncLoading,
         ItemsFor, HandleInvalid;
    if ans.invalid == {} || sched.c.blockSize == 0 {
      NothingInvalid(sched.c, sched.Model(), num, ans);
      return {};
    }
    ghost var s := sched.Model();
    sched.ModelQueues();
    var loading := LoadingRequests(sched);
    Recovering.AsyncLoadingFacts(s, s.skipped);
    AllKnown(sched, loading);
    var a := RepairBatch(sched, loading, num, ans, false);
    sched.ModelQueues();
    AllKnown(sched, sched.running);
    var b := RepairBatch(sched, sched.running, num, ans, true);
    HandleInvalidIs(sched.c, s, num, ans, a, b);
    if a.affected == {} && b.affected == {} {
      return {};
    }
    if !sched.c.recompute {
      return a.affected + b.affected;
    }
    sched.NoteFailedLoads(a.affected);
    return b.affected;
  }

  lemma NothingInvalid(c: Config, s: State, num: map<Id, int>, ans: Answer)
    requires ans.invalid == {} || c.blockSize == 0
    ensures HandleInvalid(c, s, num, ans) == Recovery(s, {})
  {
  }

  lemma AllKnown(sched: Scheduler, q: seq<Request>)
    requires sched.Valid() && sched.Linked(q) && sched.Closed(q)
    ensures forall r :: r in q ==> r in sched.requests.Values
  {
    forall r | r in q ensures r in sched.requests.Values {
      var k :| 0 <= k < |q| && q[k] == r;
      assert sched.requests[r.id] == r && r.id in sched.requests;
    }
  }

  // --------------------------------------------------------------------------- the loop

  /** The local variables of `update_from_output`. */
  datatype Collected = Collected(stoppedRunning: set<Id>, stoppedOther: set<Id>, msgs: seq<Message>)

  ghost function AccOf(s: State, l: Collected): Acc { Acc(s, l.stoppedRunning, l.stoppedOther, l.msgs) }

  lemma UpdateOneIs(c: Config, out: Output, ans: Answer, failed: set<Id>, a: Acc, id: Id)
    requires id !in failed && id in a.s.reqs && !IsFinished(a.s.reqs[id].status)
    ensures var v := a.s.reqs[id];
            var r := Receive(c, v, Drafts(out.specs, id), TokensFor(ans, id), id in ans.rejected);
            var s := Put(a.s, id, r.v);
            UpdateOne(c, out, ans, failed, a, id) ==
              if !r.stopped then
                a.(s := s, msgs := if r.toks != [] then a.msgs + [Message(id, r.toks, None)] else a.msgs)
              else
                var h := HandleStopped(s, id);
                Acc(if h.finished then Free(h.s, id, id in ans.delay) else h.s,
                    if v.status == Running then a.stoppedRunning + {id} else a.stoppedRunning,
                    if v.status == Running then a.stoppedOther else a.stoppedOther + {id},
                    a.msgs + [Message(id, r.toks, ReasonOf(r.v.status))])
  {
    hide Receive, HandleStopped, Free, Put, Drafts, TokensFor;
  }

  lemma UpdateOneSkipped(c: Config, out: Output, ans: Answer, failed: set<Id>, a: Acc, id: Id)
    requires id in failed || id !in a.s.reqs || IsFinished(a.s.reqs[id].status)
    ensures UpdateOne(c, out, ans, failed, a, id) == a
  {
  }

  /** The body of the loop over `num_scheduled_tokens`. */
  method UpdateRequest(sched: Scheduler, out: Output, ans: Answer, failed: set<Id>, id: Id, l0: Collected) returns (l: Collected)
    requires sched.Valid()
    modifies sched, sched.requests.Values
    ensures sched.Valid()
    ensures sched.requests.Keys <= old(sched.requests).Keys
         && forall x :: x in sched.requests ==> sched.requests[x] == old(sched.requests)[x]
    ensures AccOf(sched.Model(), l) == UpdateOne(sched.c, out, ans, failed, AccOf(old(sched.Model()), l0), id)
  {
    hide Ids, Request.Value, Scheduler.Model, Scheduler.Values, Scheduler.Linked, UpdateOne, Receive, HandleStopped, Free, Put, IsFinished;
    ghost var a := AccOf(sched.Model(), l0);
    sched.ModelOfAll();
    if id in failed || id !in sched.requests {
      UpdateOneSkipped(sched.c, out, ans, failed, a, id);
      return l0;
    }
    var r := sched.requests[id];
    sched.ModelKeys();
    sched.ModelAt(r);
    sched.StatusIs(r);
    if IsFinished(r.status) {
      UpdateOneSkipped(sched.c, out, ans, failed, a, id);
      return l0;
    }
    UpdateOneIs(sched.c, out, ans, failed, a, id);
    l := Deliver(sched, out, ans, r, l0);
  }

  /** An unfinished request that did not fail to load gets its tokens. */
  method Deliver(sched: Scheduler, out: Output, ans: Answer, r: Request, l0: Collected) returns (l: Collected)
    requires sched.Valid() && sched.Knows(r)
    modifies sched, r
    ensures sched.Valid()
    ensures sched.requests.Keys <= old(sched.requests).Keys
         && forall x :: x in sched.requests ==> sched.requests[x] == old(sched.requests)[x]
    ensures var v := old(r.Value());
            var a := Receive(sched.c, v, Drafts(out.specs, r.id), TokensFor(ans, r.id), r.id in ans.rejected);
            var s := Put(old(sched.Model()), r.id, a.v);
            AccOf(sched.Model(), l) ==
              if !a.stopped then
                AccOf(s, l0.(msgs := if a.toks != [] then l0.msgs + [Message(r.id, a.toks, None)] else l0.msgs))
              else
                var h := HandleStopped(s, r.id);
                Acc(if h.finished then Free(h.s, r.id, r.id in ans.delay) else h.s,
                    if v.status == Running then l0.stoppedRunning + {r.id} else l0.stoppedRunning,
                    if v.status == Running then l0.stoppedOther else l0.stoppedOther + {r.id},
                    l0.msgs + [Message(r.id, a.toks, ReasonOf(a.v.status))])
  {
    hide Ids, Request.Value, Scheduler.Model, Scheduler.Values, Scheduler.Linked, Receive, HandleStopped, Free, Put, Drafts, TokensFor;
    sched.StatusIs(r);
    var before := r.status;
    var drafts := DraftsOf(out, r.id);
    var gen := TokensOf(ans, r.id);
    var kept, stopped := sched.Receive(r, drafts, gen, r.id in ans.rejected);
    l := l0;
    if !stopped {
      if kept != [] {
        l := l.(msgs := l.msgs + [Message(r.id, kept, None)]);
      }
      return;
    }
    sched.StatusIs(r);
    var reason := ReasonOf(r.status);
    var finished := sched.HandleStoppedRequest(r);
    if finished {
      sched.FreeRequest(r, r.id in ans.delay);
    }
    if before == Running {
      l := l.(stoppedRunning := l.stoppedRunning + {r.id});
    } else {
      l := l.(stoppedOther := l.stoppedOther + {r.id});
    }
    l := l.(msgs := l.msgs + [Message(r.id, kept, reason)]);
  }

  method DraftsOf(out: Output, id: Id) returns (d: seq<Token>)
    ensures d == Drafts(out.specs, id)
  {
    d := if id in out.specs then out.specs[id] else [];
  }

  method TokensOf(ans: Answer, id: Id) returns (d: seq<Token>)
    ensures d == TokensFor(ans, id)
  {
    d := if id in ans.tokens then ans.tokens[id] else [];
  }

  lemma {:induction false} UpdateAllOnce(c: Config, out: Output, ans: Answer, failed: set<Id>, a: Acc, ids: seq<Id>, k: nat)
    requires k < |ids|
    ensures UpdateAll(c, out, ans, failed, a, ids[..k + 1])
         == UpdateOne(c, out, ans, failed, UpdateAll(c, out, ans, failed, a, ids[..k]), ids[k])
    ensures UpdateAll(c, out, ans, failed, a, ids[..0]) == a
  {
    assert ids[..k + 1][..k] == ids[..k] && ids[..k + 1][k] == ids[k];
    hide UpdateOne;
  }

  method UpdateRequests(sched: Scheduler, out: Output, ans: Answer, failed: set<Id>) returns (l: Collected)
    requires sched.Valid()
    modifies sched, sched.requests.Values
    ensures sched.Valid()
    ensures sched.requests.Keys <= old(sched.requests).Keys
         && forall x :: x in sched.requests ==> sched.requests[x] == old(sched.requests)[x]
    ensures AccOf(sched.Model(), l) == UpdateAll(sched.c, out, ans, failed, Acc(old(sched.Model()), {}, {}, []), out.order)
  {
    hide Ids, Request.Value, Scheduler.Model, Scheduler.Values, Scheduler.Linked, UpdateOne, UpdateAll;
    ghost var a := Acc(sched.Model(), {}, {}, []);
    l := Collected({}, {}, []);
    var k := 0;
    NothingUpdated(sched.c, out, ans, failed, a, out.order);
    while k < |out.order|
      invariant 0 <= k <= |out.order| && sched.Valid()
      invariant sched.requests.Keys <= old(sched.requests).Keys
             && forall x :: x in sched.requests ==> sched.requests[x] == old(sched.requests)[x]
      invariant AccOf(sched.Model(), l) == UpdateAll(sched.c, out, ans, failed, a, out.order[..k])
    {
      UpdateAllOnce(sched.c, out, ans, failed, a, out.order, k);
      l := UpdateRequest(sched, out, ans, failed, out.order[k], l);
      k := k + 1;
    }
    assert out.order[..k] == out.order;
  }

  lemma {:induction false} NothingUpdated(c: Config, out: Output, ans: Answer, failed: set<Id>, a: Acc, ids: seq<Id>)
    ensures UpdateAll(c, out, ans, failed, a, ids[..0]) == a
  {
    assert ids[..0] == [];
  }

  // --------------------------------------------------------------------------- afterwards

  /** One finish message for each queued request that the "fail" policy ends. */
  method EndMessages(q: seq<Id>, ids: set<Id>) returns (msgs: seq<Message>)
    ensures msgs == FailMessages(q, ids)
  {
    msgs := [];
    var k := 0;
    assert q[..0] == [];
    while k < |q|
      invariant 0 <= k <= |q| && msgs == FailMessages(q[..k], ids)
    {
      assert q[..k + 1][..k] == q[..k];
      if q[k] in ids {
        msgs := msgs + [Message(q[k], [], Some(FinishReason.Error))];
      }
      k := k + 1;
    }
    assert q[..k] == q;
  }

  /** Loads in `loaded` are done and the requests `freed` are gone. */
  function Moved(s: State, loaded: set<Id>, freed: set<Id>): State {
    s.(recvDone := s.recvDone + loaded, kv := s.kv - freed, reqs := s.reqs - freed)
  }

  lemma MovedMore(s: State, loaded: set<Id>, freed: set<Id>, id: Id)
    ensures Moved(s, {}, {}) == s
    ensures FreeBlocks(Moved(s, loaded, freed), id) == Moved(s, loaded, freed + {id})
    ensures var t := Moved(s, loaded, freed);
      t.(recvDone := t.recvDone + {id}) == Moved(s, loaded + {id}, freed)
    ensures id !in freed && id in s.reqs ==>
      id in Moved(s, loaded, freed).reqs && Moved(s, loaded, freed).reqs[id] == s.reqs[id]
    ensures id !in s.reqs ==> id !in Moved(s, loaded, freed).reqs
  {
    var t := Moved(s, loaded, freed);
    assert Moved(s, {}, {}).reqs == s.reqs && Moved(s, {}, {}).kv == s.kv && Moved(s, {}, {}).recvDone == s.recvDone;
    assert FreeBlocks(t, id).reqs == Moved(s, loaded, freed + {id}).reqs;
    assert FreeBlocks(t, id).kv == Moved(s, loaded, freed + {id}).kv;
    assert t.recvDone + {id} == Moved(s, loaded + {id}, freed).recvDone;
  }

  /** Whether a finished load makes its request schedulable, or is that of a finished request. */
  method TransferDone(sched: Scheduler, id: Id, ghost s: State, ghost loaded: set<Id>, ghost freed: set<Id>)
    returns (waits: bool)
    requires sched.Valid() && sched.Model() == Moved(s, loaded, freed) && id !in freed
    modifies sched`recvDone, sched`kv, sched`requests
    ensures sched.Valid() && waits == (id in WithStatus(s, {id}, WaitingForRemoteKvs))
    ensures sched.Model() == if waits then Moved(s, loaded + {id}, freed) else Moved(s, loaded, freed + {id})
  {
    hide Ids, Request.Value, Scheduler.Model, Scheduler.Values, Scheduler.Linked, Moved, FreeBlocks;
    MovedMore(s, loaded, freed, id);
    sched.ModelOfAll();
    waits := false;
    if id in sched.requests {
      sched.StatusIs(sched.requests[id]);
      waits := sched.requests[id].status == WaitingForRemoteKvs;
    }
    if waits {
      sched.NoteLoaded(id);
    } else {
      sched.FreeBlocksOf(id);
    }
  }

  lemma SplitStatus(s: State, ids: set<Id>, id: Id, waits: bool)
    requires waits == (id in WithStatus(s, {id}, WaitingForRemoteKvs)) && id !in ids
    ensures WithStatus(s, ids + {id}, WaitingForRemoteKvs)
         == (if waits then WithStatus(s, ids, WaitingForRemoteKvs) + {id} else WithStatus(s, ids, WaitingForRemoteKvs))
    ensures WithStatus(s, {}, WaitingForRemoteKvs) == {}
    ensures var loaded, all := WithStatus(s, ids, WaitingForRemoteKvs), WithStatus(s, ids + {id}, WaitingForRemoteKvs);
      ids + {id} - all == if waits then ids - loaded else ids - loaded + {id}
    ensures id !in ids - WithStatus(s, ids, WaitingForRemoteKvs)
  {
  }

  method Sends(sched: Scheduler, send: set<Id>, ghost s: State, ghost loaded: set<Id>, ghost freed: set<Id>)
    requires sched.Valid() && sched.Model() == Moved(s, loaded, freed)
    modifies sched`kv, sched`requests
    ensures sched.Valid() && sched.Model() == Moved(s, loaded, freed + send)
  {
    hide Ids, Request.Value, Scheduler.Model, Scheduler.Values, Scheduler.Linked, Moved, FreeBlocks;
    ghost var done: set<Id> := {};
    var todo := send;
    assert freed + {} == freed;
    while todo != {}
      invariant sched.Valid() && done !! todo && done + todo == send
      invariant sched.Model() == Moved(s, loaded, freed + done)
      decreases |todo|
    {
      var id :| id in todo;
      MovedMore(s, loaded, freed + done, id);
      sched.FreeBlocksOf(id);
      assert freed + done + {id} == freed + (done + {id});
      done := done + {id};
      todo := todo - {id};
    }
    assert done == send;
  }

  /** `_update_from_kv_xfer_finished`. */
  method UpdateFromTransfers(sched: Scheduler, recv: set<Id>, send: set<Id>)
    requires sched.Valid()
    modifies sched`recvDone, sched`kv, sched`requests
    ensures sched.Valid() && sched.Model() == TransfersFinished(old(sched.Model()), recv, send)
  {
    hide Ids, Request.Value, Scheduler.Model, Scheduler.Values, Scheduler.Linked, Moved, WithStatus, TransfersFinished, FreeBlocks;
    ghost var s := sched.Model();
    ghost var loaded := WithStatus(s, recv, WaitingForRemoteKvs);
    Receives(sched, recv);
    Sends(sched, send, s, loaded, recv - loaded);
    TransfersAre(s, recv, send);
  }

  lemma TransfersAre(s: State, recv: set<Id>, send: set<Id>)
    ensures var loaded := WithStatus(s, recv, WaitingForRemoteKvs);
      Moved(s, loaded, recv - loaded + send) == TransfersFinished(s, recv, send)
  {
    hide WithStatus;
  }

  method Receives(sched: Scheduler, recv: set<Id>)
    requires sched.Valid()
    modifies sched`recvDone, sched`kv, sched`requests
    ensures sched.Valid()
    ensures var loaded := WithStatus(old(sched.Model()), recv, WaitingForRemoteKvs);
      sched.Model() == Moved(old(sched.Model()), loaded, recv - loaded)
  {
    hide Ids, Request.Value, Scheduler.Model, Scheduler.Values, Scheduler.Linked, Moved, WithStatus;
    ghost var s := sched.Model();
    ghost var done: set<Id> := {};
    var todo := recv;
    NothingMoved(s);
    while todo != {}
      invariant sched.Valid() && done !! todo && done + todo == recv
      invariant var loaded := WithStatus(s, done, WaitingForRemoteKvs); sched.Model() == Moved(s, loaded, done - loaded)
      decreases |todo|
    {
      var id :| id in todo;
      ghost var loaded := WithStatus(s, done, WaitingForRemoteKvs);
      var waits := TransferDone(sched, id, s, loaded, done - loaded);
      SplitStatus(s, done, id, waits);
      done := done + {id};
      todo := todo - {id};
    }
    assert done == recv;
  }

  lemma NothingMoved(s: State)
    ensures WithStatus(s, {}, WaitingForRemoteKvs) == {} && Moved(s, {}, {}) == s
    ensures var none: set<Id> := {}; none - none == none
  {
    MovedMore(s, {}, {}, 0);
  }

  // -------------------------------------------------------------------------- the method

  lemma {:induction false} UpdateFromOutputIs(c: Config, s: State, out: Output, ans: Answer, failed: set<Id>, a: Acc)
    requires failed == HandleInvalid(c, s, out.num, ans).failed
    requires a == UpdateAll(c, out, ans, failed, Acc(HandleInvalid(c, s, out.num, ans).s, {}, {}, []), out.order)
    ensures var t := a.s.(running := Without(a.s.running, a.stoppedRunning), waiting := Without(a.s.waiting, a.stoppedOther));
            var failing := failed != {} && !c.recompute;
            var u := if failing then FinishRequests(t, failed, FinishedError, ans.delay) else t;
            SchedulerSpec.UpdateFromOutput(c, s, out, ans) ==
              Updated(TransfersFinished(u, ans.recv, ans.send),
                      if failing then a.msgs + FailMessages(s.skipped + s.running, failed) else a.msgs)
  {
    hide HandleInvalid, UpdateAll, FinishRequests, TransfersFinished, FailMessages, Without;
  }

  /** The stopped requests leave `running` and `waiting`. */
  method LeaveQueues(sched: Scheduler, l: Collected)
    requires sched.Valid()
    modifies sched`running, sched`waiting, sched`skipped
    ensures sched.Valid() && sched.requests == old(sched.requests)
    ensures var s := old(sched.Model());
      sched.Model() == s.(running := Without(s.running, l.stoppedRunning), waiting := Without(s.waiting, l.stoppedOther))
  {
    hide Ids, Request.Value, Scheduler.Model, Scheduler.Values, Scheduler.Linked, Without;
    sched.ModelQueues();
    var r := sched.RemoveAll(sched.running, l.stoppedRunning);
    var w := sched.RemoveAll(sched.waiting, l.stoppedOther);
    ghost var s := sched.Model();
    sched.SetQueues(r, w, sched.skipped);
    assert s.(skipped := s.skipped) == s;
  }

  /** `update_from_output`. */
  method UpdateFromOutput(sched: Scheduler, out: Output, ans: Answer) returns (msgs: seq<Message>)
    requires sched.Valid() && sched.Closed(sched.running) && sched.Closed(sched.skipped)
    requires NoDup(Ids(sched.running)) && NoDup(Ids(sched.skipped))
    modifies sched, sched.requests.Values
    ensures sched.Valid()
    ensures Updated(sched.Model(), msgs) == SchedulerSpec.UpdateFromOutput(sched.c, old(sched.Model()), out, ans)
  {
    hide Ids, Request.Value, Scheduler.Model, Scheduler.Values, Scheduler.Linked, Scheduler.Closed, NoDup, Without, HandleInvalid,
         UpdateAll, FinishRequests, TransfersFinished, FailMessages, SchedulerSpec.UpdateFromOutput;
    ghost var s := sched.Model();
    sched.ModelQueues();
    var queued := Ids(sched.skipped) + Ids(sched.running);
    var failed := HandleInvalidBlocks(sched, out.num, ans);
    var l := UpdateRequests(sched, out, ans, failed);
    UpdateFromOutputIs(sched.c, s, out, ans, failed, AccOf(sched.Model(), l));
    LeaveQueues(sched, l);
    msgs := l.msgs;
    if failed != {} && !sched.c.recompute {
      sched.FinishRequests(failed, FinishedError, ans.delay);
      var ends := EndMessages(queued, failed);
      msgs := msgs + ends;
    }
    UpdateFromTransfers(sched, ans.recv, ans.send);
  }
}
