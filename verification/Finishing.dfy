/** Aborts, transfers, arrivals, drafts and resets keep the engine invariant. */
module Finishing {
  import opened Seqs
  import opened Requests
  import opened SchedulerSpec
  import opened QueuePartition
  import opened Admission
  import opened Engine
  import opened Reporting

  /** `t` has the requests of `s` that it keeps, unless they finished. */
  ghost predicate Thinned(s: State, t: State) {
    forall id {:trigger id in t.reqs} {:trigger t.reqs[id]} :: id in t.reqs ==>
      id in s.reqs && (IsFinished(t.reqs[id].status) || t.reqs[id] == s.reqs[id])
  }

  lemma FinishViews(s: State, ids: set<Id>, st: Status, delay: set<Id>)
    requires IsFinished(st)
    ensures var t := FinishRequests(s, ids, st, delay);
            var valid := Finishable(s, ids);
            && Thinned(s, t)
            && (forall id :: id in s.reqs && id !in valid ==> id in t.reqs && t.reqs[id] == s.reqs[id])
            && (forall id :: id in t.reqs && id in valid ==>
                  t.reqs[id].status == st && id in DelayedFree(s, valid, delay))
            && Unfinished(t) == Unfinished(s) - valid
            && (forall id :: id in s.kv && id !in valid ==> id in t.kv && t.kv[id] == s.kv[id])
            && t.prev == s.prev && t.pause == s.pause
            && t.recvFailed == s.recvFailed - WithStatus(s, valid, WaitingForRemoteKvs)
  {
  }

  /** Taking `gone` out of every queue. */
  lemma {:induction false} ThinQueues(s: State, t: State, gone: set<Id>, run: set<Id>)
    requires Queued(s, []) == multiset(Unfinished(s)) && Unfinished(t) == Unfinished(s) - gone
    requires forall x :: x in s.running ==> (x in run <==> x in gone)
    requires forall x :: x in s.waiting || x in s.skipped ==> (x in gone - run <==> x in gone)
    requires t.running == Without(s.running, run)
    requires t.waiting == Without(s.waiting, gone - run) && t.skipped == Without(s.skipped, gone - run)
    ensures Queued(t, []) == multiset(Unfinished(t))
  {
    WithoutCounts(s.running, run);
    WithoutCounts(s.waiting, gone - run);
    WithoutCounts(s.skipped, gone - run);
    hide Without, Unfinished;
    forall x ensures Queued(t, [])[x] == multiset(Unfinished(t))[x] {
      assert Queued(s, [])[x] == multiset(Unfinished(s))[x];
      InQueues(s, x);
    }
  }

  lemma InQueues(s: State, x: Id)
    ensures multiset(s.running)[x] > 0 <==> x in s.running
    ensures multiset(s.waiting)[x] > 0 <==> x in s.waiting
    ensures multiset(s.skipped)[x] > 0 <==> x in s.skipped
  {
  }

  /** Of the queues, only membership matters here. */
  lemma {:induction false} ThinStatuses(s: State, t: State, gone: set<Id>, run: set<Id>)
    requires Partition(s, [])
    requires forall id :: id in s.reqs && id !in gone ==> id in t.reqs && t.reqs[id] == s.reqs[id]
    requires forall x :: x in s.running ==> (x in run <==> x in gone)
    requires forall x :: x in s.waiting || x in s.skipped ==> (x in gone - run <==> x in gone)
    requires t.running == Without(s.running, run)
    requires t.waiting == Without(s.waiting, gone - run) && t.skipped == Without(s.skipped, gone - run)
    ensures StatusesAgree(t, [])
  {
    StaysIn(s.running, run, gone);
    StaysIn(s.waiting, gone - run, gone);
    StaysIn(s.skipped, gone - run, gone);
    hide Without, Queued;
    forall x ensures x in t.running || x in t.waiting || x in t.skipped ==> At(t, x) == At(s, x) {
      Member(s, [], x);
    }
  }

  lemma {:induction false} StaysIn(q: seq<Id>, out: set<Id>, gone: set<Id>)
    requires forall x :: x in q ==> (x in out <==> x in gone)
    ensures forall x {:trigger x in Without(q, out)} :: x in Without(q, out) ==> x in q && x !in gone
  {
    WithoutCounts(q, out);
  }

  lemma FinishQueues(s: State, ids: set<Id>, st: Status, delay: set<Id>)
    requires Partition(s, []) && IsFinished(st)
    ensures Partition(FinishRequests(s, ids, st, delay), [])
    ensures |FinishRequests(s, ids, st, delay).running| <= |s.running|
  {
    var valid := Finishable(s, ids);
    var run := WithStatus(s, valid, Running);
    WithoutLength(s.running, run);
    FinishViews(s, ids, st, delay);
    FinishRemoves(s, ids);
    var t := FinishRequests(s, ids, st, delay);
    assert t.running == Without(s.running, run) && t.waiting == Without(s.waiting, valid - run)
      && t.skipped == Without(s.skipped, valid - run);
    hide FinishRequests, WithStatus, Finishable, DelayedFree, Without, StatusesAgree, Queued, Unfinished, Thinned;
    ThinQueues(s, t, valid, run);
    ThinStatuses(s, t, valid, run);
  }

  /** The queue each finished request is taken from is the one it is in. */
  lemma FinishRemoves(s: State, ids: set<Id>)
    requires Partition(s, [])
    ensures var valid := Finishable(s, ids);
            var run := WithStatus(s, valid, Running);
            && (forall x :: x in s.running ==> (x in run <==> x in valid))
            && (forall x :: x in s.waiting || x in s.skipped ==> (x in valid - run <==> x in valid))
  {
    forall x | x in s.running || x in s.waiting || x in s.skipped
      ensures x in s.reqs && (x in s.running <==> s.reqs[x].status == Running)
    {
      Member(s, [], x);
      ExactlyOneQueue(s, x);
    }
  }

  /** Each queue loses exactly the requests that are finished now, and keeps its order. */
  lemma FinishLeavesQueues(s: State, ids: set<Id>, st: Status, delay: set<Id>)
    requires Partition(s, [])
    ensures var t, gone := FinishRequests(s, ids, st, delay), Finishable(s, ids);
            && t.running == Without(s.running, gone)
            && t.waiting == Without(s.waiting, gone)
            && t.skipped == Without(s.skipped, gone)
  {
    hide Partition, Without;
    var valid := Finishable(s, ids);
    var run := WithStatus(s, valid, Running);
    FinishRemoves(s, ids);
    WithoutAlike(s.running, run, valid);
    WithoutAlike(s.waiting, valid - run, valid);
    WithoutAlike(s.skipped, valid - run, valid);
  }

  /** Requests that stay are as good as before. */
  lemma ThinnedRequest(c: Config, e: Engine, t: State, id: Id)
    requires id in t.reqs && Thinned(e.s, t)
    requires id in e.s.reqs ==> RequestOk(c, e, id)
    requires !IsFinished(t.reqs[id].status) && id in e.s.kv ==> id in t.kv && t.kv[id] == e.s.kv[id]
    ensures RequestOk(c, e.(s := t), id)
  {
  }

  lemma FinishKeepsInv(c: Config, e: Engine, ids: set<Id>, st: Status, delay: set<Id>)
    requires EngineInv(c, e) && IsFinished(st)
    ensures EngineInv(c, e.(s := FinishRequests(e.s, ids, st, delay)))
  {
    var t := FinishRequests(e.s, ids, st, delay);
    FinishQueues(e.s, ids, st, delay);
    FinishLoads(c, e.s, ids, st, delay);
    FinishOthers(c, e, ids, st, delay);
    hide FinishRequests, Partition, RequestOk, LoadsOk, PrevOk;
  }

  lemma FinishOthers(c: Config, e: Engine, ids: set<Id>, st: Status, delay: set<Id>)
    requires EngineInv(c, e) && IsFinished(st)
    ensures var t := FinishRequests(e.s, ids, st, delay);
      forall id :: id in t.reqs ==> RequestOk(c, e.(s := t), id) && id in e.seen
  {
    var t := FinishRequests(e.s, ids, st, delay);
    FinishViews(e.s, ids, st, delay);
    hide FinishRequests, Partition, RequestOk, DelayedFree, LoadsOk, PrevOk;
    forall id | id in t.reqs ensures RequestOk(c, e.(s := t), id) && id in e.seen {
      ThinnedRequest(c, e, t, id);
    }
  }

  lemma FinishLoads(c: Config, s: State, ids: set<Id>, st: Status, delay: set<Id>)
    requires LoadsOk(c, s) && PrevOk(s) && IsFinished(st)
    ensures LoadsOk(c, FinishRequests(s, ids, st, delay)) && PrevOk(FinishRequests(s, ids, st, delay))
  {
    var valid := Finishable(s, ids);
    var t := FinishRequests(s, ids, st, delay);
    FinishViews(s, ids, st, delay);
    FailedStay(c, s, valid);
    hide FinishRequests, DelayedFree, WithStatus, Finishable, LoadsOk, PrevOk;
    ThinLoads(c, s, t, valid);
  }

  lemma FailedStay(c: Config, s: State, valid: set<Id>)
    requires LoadsOk(c, s)
    ensures forall id :: id in s.recvFailed - WithStatus(s, valid, WaitingForRemoteKvs) ==> id in s.recvFailed && id !in valid
  {
  }

  lemma ThinLoads(c: Config, s: State, t: State, valid: set<Id>)
    requires LoadsOk(c, s) && PrevOk(s) && Thinned(s, t) && t.prev == s.prev
    requires forall id :: id in s.reqs && id !in valid ==> id in t.reqs && t.reqs[id] == s.reqs[id]
    requires forall id :: id in t.recvFailed ==> id in s.recvFailed && id !in valid
    ensures LoadsOk(c, t) && PrevOk(t)
  {
  }

  // ------------------------------------------------------------------ transfers

  lemma TransfersView(s: State, recv: set<Id>, send: set<Id>)
    requires forall id :: id in recv && id in s.reqs ==>
      s.reqs[id].status == WaitingForRemoteKvs || IsFinished(s.reqs[id].status)
    requires forall id :: id in send && id in s.reqs ==> IsFinished(s.reqs[id].status)
    ensures var t := TransfersFinished(s, recv, send);
            && Thinned(s, t)
            && Unfinished(t) == Unfinished(s)
            && (forall id :: id in t.reqs && !IsFinished(t.reqs[id].status) && id in s.kv ==> id in t.kv && t.kv[id] == s.kv[id])
            && (forall id :: id in s.reqs && !IsFinished(s.reqs[id].status) ==> id in t.reqs && t.reqs[id] == s.reqs[id])
            && t == s.(reqs := t.reqs, kv := t.kv, recvDone := t.recvDone)
  {
  }

  lemma TransfersKeepInv(c: Config, e: Engine, recv: set<Id>, send: set<Id>)
    requires EngineInv(c, e)
    requires forall id :: id in recv && id in e.s.reqs ==>
      e.s.reqs[id].status == WaitingForRemoteKvs || IsFinished(e.s.reqs[id].status)
    requires forall id :: id in send && id in e.s.reqs ==> IsFinished(e.s.reqs[id].status)
    ensures EngineInv(c, e.(s := TransfersFinished(e.s, recv, send)))
  {
    var t := TransfersFinished(e.s, recv, send);
    TransfersView(e.s, recv, send);
    hide TransfersFinished, RequestOk;
    TransfersPartition(e.s, t);
    forall id | id in t.reqs ensures RequestOk(c, e.(s := t), id) && id in e.seen {
      ThinnedRequest(c, e, t, id);
    }
    assert e.s.recvFailed == t.recvFailed;
  }

  lemma TransfersPartition(s: State, t: State)
    requires Partition(s, []) && Thinned(s, t) && Unfinished(t) == Unfinished(s)
    requires t.running == s.running && t.waiting == s.waiting && t.skipped == s.skipped
    ensures Partition(t, [])
  {
    assert Queued(t, []) == Queued(s, []);
    forall x | x in s.running || x in s.waiting || x in s.skipped ensures At(t, x) == At(s, x) {
      Member(s, [], x);
    }
  }
}
