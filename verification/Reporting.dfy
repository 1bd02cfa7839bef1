/** `update_from_output` keeps the engine invariant. */
module Reporting {
  import opened Seqs
  import opened Requests
  import opened SchedulerSpec
  import opened QueuePartition
  import opened Accounting
  import opened Planning
  import opened Admission
  import opened Engine
  import opened Receiving

  /** The state once the stopped requests have left `running`, which the code does after its loop. */
  ghost function Settled(a: Acc): State {
    a.s.(running := Without(a.s.running, a.stoppedRunning))
  }

  /** `id` still waits for its tokens in this report. */
  ghost predicate Busy(out: Output, failed: set<Id>, done: seq<Id>, id: Id) {
    id in out.order && id !in failed && id !in done
  }

  ghost predicate MidRequest(c: Config, out: Output, failed: set<Id>, done: seq<Id>, s: State, id: Id)
    requires id in s.reqs
  {
    if !IsFinished(s.reqs[id].status) && Busy(out, failed, done, id)
    then
      var d := Drafts(out.specs, id);
      Flying(c, s.reqs[id], Get(out.num, id), d) && FlyingKv(s, id, d)
    else
      Ready(c, s.reqs[id]) && KvReady(s, id)
  }

  /** The loop invariant of `update_from_output`. */
  ghost predicate MidInv(c: Config, out: Output, failed: set<Id>, done: seq<Id>, a: Acc) {
    && Partition(Settled(a), []) && |Settled(a).running| <= c.maxRunning
    && PrevOk(a.s) && LoadsOk(c, a.s) && a.stoppedOther == {}
    && forall id :: id in a.s.reqs ==> MidRequest(c, out, failed, done, a.s, id)
  }

  // --------------------------------------------------------- leaving the queues

  lemma LeaveRunningStatuses(s: State, id: Id)
    requires StatusesAgree(s, [])
    ensures StatusesAgree(s.(running := Without(s.running, {id})), [])
  {
    WithoutCounts(s.running, {id});
    hide Without;
  }

  lemma LeaveRunning(s: State, id: Id)
    requires Partition(s, []) && id in s.running
    ensures PartitionBut(s.(running := Without(s.running, {id})), [], id)
    ensures |Without(s.running, {id})| <= |s.running|
  {
    var t := s.(running := Without(s.running, {id}));
    Member(s, [], id);
    WithoutCounts(s.running, {id});
    WithoutLength(s.running, {id});
    assert multiset(s.running)[id] == 1 by {
      assert Queued(s, [])[id] == 1;
    }
    assert multiset(s.running) == multiset(t.running) + multiset{id};
    LeaveRunningStatuses(s, id);
    hide StatusesAgree, Without;
    assert Unfinished(t) == Unfinished(s);
    assert Queued(s, []) == Queued(t, []) + multiset{id};
  }

  lemma {:induction false} WithoutLength<T>(s: seq<T>, gone: set<T>)
    ensures |Without(s, gone)| <= |s|
  {
    if s != [] {
      WithoutLength(s[1..], gone);
    }
  }

  /** At most request `id` was added, removed or changed. */
  ghost predicate SameBut(s: State, t: State, id: Id) {
    forall x {:trigger x in t.reqs} {:trigger x in s.reqs} :: x != id ==>
      (x in t.reqs <==> x in s.reqs) && (x in s.reqs ==> t.reqs[x] == s.reqs[x])
  }

  lemma GoneStatuses(s: State, t: State, id: Id)
    requires StatusesAgree(s, []) && id !in Queued(s, []) && SameBut(s, t, id)
    requires t.running == s.running && t.waiting == s.waiting && t.skipped == s.skipped
    ensures StatusesAgree(t, [])
  {
    OthersUntouched(s, [], id);
    hide Queued;
  }

  /** A request taken out of its queue may finish, or vanish. */
  lemma Gone(s: State, t: State, id: Id)
    requires PartitionBut(s, [], id)
    requires t.running == s.running && t.waiting == s.waiting && t.skipped == s.skipped
    requires SameBut(s, t, id)
    requires id in t.reqs ==> IsFinished(t.reqs[id].status)
    ensures Partition(t, [])
  {
    GoneStatuses(s, t, id);
    assert Unfinished(t) == Unfinished(s) - {id};
    assert multiset(Unfinished(s)) - multiset{id} == multiset(Unfinished(t));
    hide StatusesAgree;
    assert Queued(t, []) == Queued(s, []) + multiset{id} - multiset{id};
  }

  /** ... or go to the end of `waiting` or `skipped`. */
  lemma Requeued(s: State, t: State, id: Id)
    requires PartitionBut(s, [], id)
    requires t.running == s.running && t.reqs == s.reqs[id := At(t, id)]
    requires !IsFinished(At(t, id).status) && At(t, id).status != Running
    requires (t.waiting == s.waiting + [id] && t.skipped == s.skipped && At(t, id).status == Waiting)
          || (t.waiting == s.waiting && t.skipped == s.skipped + [id])
    ensures Partition(t, [])
  {
    OthersUntouched(s, [], id);
    assert Unfinished(t) == Unfinished(s);
    assert Queued(t, []) == Queued(s, []) + multiset{id};
  }

  // ---------------------------------------------------------- one request

  /** The request being looked at is in flight. */
  ghost predicate Current(c: Config, out: Output, ans: Answer, failed: set<Id>, done: seq<Id>, a: Acc, id: Id) {
    && MidInv(c, out, failed, done, a) && Busy(out, failed, done, id)
    && id in a.s.reqs && !IsFinished(a.s.reqs[id].status)
    && TokensOk(a.s.reqs[id], Drafts(out.specs, id), TokensFor(ans, id))
    && NextInputFits(c, a.s.reqs[id])
  }

  lemma CurrentFacts(c: Config, out: Output, ans: Answer, failed: set<Id>, done: seq<Id>, a: Acc, id: Id)
    requires Current(c, out, ans, failed, done, a, id)
    ensures var d := Drafts(out.specs, id);
            && Flying(c, a.s.reqs[id], Get(out.num, id), d) && FlyingKv(a.s, id, d)
            && TokensOk(a.s.reqs[id], d, TokensFor(ans, id)) && NextInputFits(c, a.s.reqs[id])
    ensures a.s.reqs[id].status == Running && id in Settled(a).running && Partition(Settled(a), [])
    ensures id in Settled(a).reqs && !IsFinished(a.s.reqs[id].status)
  {
    assert MidRequest(c, out, failed, done, a.s, id);
    ExactlyOneQueue(Settled(a), id);
  }

  /** Writing back request `id` only; the other requests do not notice. */
  lemma OthersMid(c: Config, out: Output, failed: set<Id>, done: seq<Id>, s: State, t: State, id: Id)
    requires forall x :: x in s.reqs ==> MidRequest(c, out, failed, done, s, x)
    requires SameBut(s, t, id)
    requires forall x :: x in s.kv && x != id ==> x in t.kv && t.kv[x] == s.kv[x]
    requires id in t.reqs ==> Ready(c, t.reqs[id]) && KvReady(t, id)
    ensures forall x :: x in t.reqs ==> MidRequest(c, out, failed, done + [id], t, x)
  {
    forall x | x in t.reqs ensures MidRequest(c, out, failed, done + [id], t, x) {
      if x != id {
        assert MidRequest(c, out, failed, done, s, x);
      }
    }
  }

  lemma OthersLoads(c: Config, s: State, t: State, id: Id)
    requires LoadsOk(c, s) && PrevOk(s) && id in s.reqs && s.reqs[id].status != WaitingForRemoteKvs
    requires t.recvFailed == s.recvFailed && t.prev == s.prev
    requires SameBut(s, t, id)
    requires id in t.reqs ==> t.reqs[id].status != WaitingForRemoteKvs && NotResumable(t.reqs[id])
    ensures LoadsOk(c, t) && PrevOk(t)
  {
  }

  /** The four ways `UpdateOne` treats a request in flight. */
  datatype Outcome1 = GoOn | Finish | NextChunk | AwaitInput

  ghost function Treatment(r: Appended): Outcome1 {
    if !r.stopped then GoOn
    else if !r.v.resumable || (r.v.queue != [] && r.v.queue[0].None?) then Finish
    else if r.v.queue != [] then NextChunk
    else AwaitInput
  }

  /** The request afterwards, unless it is gone. */
  ghost function Treated(r: Appended): View {
    match Treatment(r)
    case GoOn => r.v
    case Finish => if r.v.resumable then r.v.(queue := r.v.queue[1..]) else r.v
    case NextChunk =>
      if r.v.queue != [] && r.v.queue[0].Some? then SessionView(r.v.(queue := r.v.queue[1..]), r.v.queue[0].value) else r.v
    case AwaitInput => r.v.(status := WaitingForStreamingReq)
  }

  /** What `_handle_stopped_request` makes of the request. */
  lemma HandledShape(s: State, id: Id, r: Appended)
    requires id in s.reqs && s.reqs[id] == r.v
    ensures r.stopped ==>
      var h, how := HandleStopped(s, id), Treatment(r);
      && h.finished == how.Finish?
      && h.s == s.(reqs := s.reqs[id := Treated(r)],
                   waiting := if how.NextChunk? then s.waiting + [id] else s.waiting,
                   skipped := if how.AwaitInput? then s.skipped + [id] else s.skipped,
                   numStreaming := h.s.numStreaming)
  {
    assert s.reqs[id := r.v] == s.reqs;
  }

  lemma UpdateOneShape(c: Config, out: Output, ans: Answer, failed: set<Id>, a: Acc, id: Id)
    requires id !in failed && id in a.s.reqs && !IsFinished(a.s.reqs[id].status) && a.s.reqs[id].status == Running
    ensures var r := Receive(c, a.s.reqs[id], Drafts(out.specs, id), TokensFor(ans, id), id in ans.rejected);
            var b := UpdateOne(c, out, ans, failed, a, id);
            var how := Treatment(r);
            && b.stoppedOther == a.stoppedOther
            && b.stoppedRunning == (if how.GoOn? then a.stoppedRunning else a.stoppedRunning + {id})
            && b.s.running == a.s.running && b.s.prev == a.s.prev && b.s.recvFailed == a.s.recvFailed
            && b.s.reqs == (if how.Finish? && id !in ans.delay then a.s.reqs - {id} else a.s.reqs[id := Treated(r)])
            && b.s.kv == (if how.Finish? && id !in ans.delay then a.s.kv - {id} else a.s.kv)
            && b.s.waiting == (if how.NextChunk? then a.s.waiting + [id] else a.s.waiting)
            && b.s.skipped == (if how.AwaitInput? then a.s.skipped + [id] else a.s.skipped)
            && b.s.pause == a.s.pause && b.s.recvDone == a.s.recvDone
  {
    hide Receive, Drafts, TokensFor, HandleStopped, ReasonOf;
    var r := Receive(c, a.s.reqs[id], Drafts(out.specs, id), TokensFor(ans, id), id in ans.rejected);
    HandledShape(Put(a.s, id, r.v), id, r);
  }

  lemma SettledLater(a: Acc, b: Acc, id: Id)
    requires b.s.running == a.s.running && b.stoppedRunning == a.stoppedRunning + {id}
    ensures Settled(b) == b.s.(running := Without(Settled(a).running, {id}))
  {
    WithoutTwice(a.s.running, a.stoppedRunning, {id});
  }

  lemma GoOnPartition(c: Config, a: Acc, b: Acc, id: Id, v: View)
    requires Partition(Settled(a), []) && id in a.s.reqs && !IsFinished(a.s.reqs[id].status)
    requires v.status == a.s.reqs[id].status
    requires b.s.reqs == a.s.reqs[id := v] && b.stoppedRunning == a.stoppedRunning
    requires b.s.running == a.s.running && b.s.waiting == a.s.waiting && b.s.skipped == a.s.skipped
    ensures Partition(Settled(b), []) && Settled(b).running == Settled(a).running
  {
    PutSameStatus(Settled(a), id, v, []);
    SamePartition(Put(Settled(a), id, v), Settled(b), []);
  }

  lemma StopPartition(c: Config, a: Acc, b: Acc, id: Id, how: Outcome1, v: View, kept: bool)
    requires Partition(Settled(a), []) && id in Settled(a).running
    requires !how.GoOn? && (kept || how.Finish?)
    requires b.s.running == a.s.running && b.stoppedRunning == a.stoppedRunning + {id}
    requires b.s.reqs == if kept then a.s.reqs[id := v] else a.s.reqs - {id}
    requires b.s.waiting == (if how.NextChunk? then a.s.waiting + [id] else a.s.waiting)
    requires b.s.skipped == (if how.AwaitInput? then a.s.skipped + [id] else a.s.skipped)
    requires how.Finish? ==> IsFinished(v.status)
    requires how.NextChunk? ==> v.status == Waiting
    requires how.AwaitInput? ==> v.status == WaitingForStreamingReq
    ensures Partition(Settled(b), []) && |Settled(b).running| <= |Settled(a).running|
  {
    hide Partition, PartitionBut, Without;
    LeaveRunning(Settled(a), id);
    SettledLater(a, b, id);
    var s := Settled(a).(running := Without(Settled(a).running, {id}));
    if how.Finish? {
      Gone(s, Settled(b), id);
    } else {
      Requeued(s, Settled(b), id);
    }
  }

  /** A treated request is ready for what comes next. */
  lemma TreatedReady(c: Config, v: View, n: int, d: seq<Token>, gen: seq<Token>, rejected: bool)
    requires Flying(c, v, n, d) && TokensOk(v, d, gen) && NextInputFits(c, v)
    ensures var r := Receive(c, v, d, gen, rejected);
            var w := Treated(r);
            var how := Treatment(r);
            && Ready(c, w)
            && (how.GoOn? ==> w.status == Running)
            && (how.Finish? ==> IsFinished(w.status))
            && (how.NextChunk? ==> w.status == Waiting && w.computed > 0)
            && (how.AwaitInput? ==> w.status == WaitingForStreamingReq && w.computed > 0)
  {
    var r := Receive(c, v, d, gen, rejected);
    GoesOn(c, v, n, d, gen, rejected);
    ReceiveShape(c, v, d, gen, rejected);
    StoppedSession(c, v, n, d, gen, rejected);
    hide Receive;
    if Treatment(r).NextChunk? {
      SessionContinues(r.v.(queue := r.v.queue[1..]), r.v.queue[0].value);
    }
  }

  lemma TreatedKv(c: Config, s: State, t: State, id: Id, n: int, d: seq<Token>, gen: seq<Token>, rejected: bool)
    requires id in s.reqs && Flying(c, s.reqs[id], n, d) && FlyingKv(s, id, d)
    requires TokensOk(s.reqs[id], d, gen)
    requires id in t.reqs && t.kv == s.kv && t.reqs[id] == Treated(Receive(c, s.reqs[id], d, gen, rejected))
    ensures KvReady(t, id)
  {
    var v := s.reqs[id];
    var r := Receive(c, v, d, gen, rejected);
    KvAfterReceive(c, s.kv[id], v, n, d, gen, rejected);
    ReceiveShape(c, v, d, gen, rejected);
    StoppedSession(c, v, n, d, gen, rejected);
    hide Receive;
    if Treatment(r).NextChunk? {
      SessionContinues(r.v.(queue := r.v.queue[1..]), r.v.queue[0].value);
    }
  }

  /** Nothing happens for a request that failed to load, is unknown or has finished. */
  lemma UpdateOneSkips(c: Config, out: Output, ans: Answer, failed: set<Id>, done: seq<Id>, a: Acc, id: Id)
    requires MidInv(c, out, failed, done, a)
    requires id in failed || id !in a.s.reqs || IsFinished(a.s.reqs[id].status)
    ensures MidInv(c, out, failed, done + [id], a)
  {
    forall x | x in a.s.reqs ensures MidRequest(c, out, failed, done + [id], a.s, x) {
      assert MidRequest(c, out, failed, done, a.s, x);
    }
  }

  lemma MidParts(c: Config, out: Output, failed: set<Id>, done: seq<Id>, a: Acc)
    requires MidInv(c, out, failed, done, a)
    ensures Partition(Settled(a), []) && |Settled(a).running| <= c.maxRunning
    ensures PrevOk(a.s) && LoadsOk(c, a.s) && a.stoppedOther == {}
    ensures forall id :: id in a.s.reqs ==> MidRequest(c, out, failed, done, a.s, id)
  {
  }

  lemma TreatedPartition(c: Config, out: Output, ans: Answer, failed: set<Id>, a: Acc, id: Id, r: Appended)
    requires id !in failed && id in a.s.reqs && !IsFinished(a.s.reqs[id].status) && a.s.reqs[id].status == Running
    requires Partition(Settled(a), []) && id in Settled(a).running
    requires r == Receive(c, a.s.reqs[id], Drafts(out.specs, id), TokensFor(ans, id), id in ans.rejected)
    requires Treatment(r).GoOn? ==> Treated(r).status == Running
    requires Treatment(r).Finish? ==> IsFinished(Treated(r).status)
    requires Treatment(r).NextChunk? ==> Treated(r).status == Waiting
    requires Treatment(r).AwaitInput? ==> Treated(r).status == WaitingForStreamingReq
    ensures var b := UpdateOne(c, out, ans, failed, a, id);
      Partition(Settled(b), []) && |Settled(b).running| <= |Settled(a).running|
  {
    hide Treatment, Treated, Receive, Partition, Settled, UpdateOne;
    var b := UpdateOne(c, out, ans, failed, a, id);
    UpdateOneShape(c, out, ans, failed, a, id);
    if Treatment(r).GoOn? {
      GoOnPartition(c, a, b, id, Treated(r));
    } else {
      StopPartition(c, a, b, id, Treatment(r), Treated(r), !(Treatment(r).Finish? && id !in ans.delay));
    }
  }

  lemma TreatedRequests(
      c: Config, out: Output, ans: Answer, failed: set<Id>, done: seq<Id>, a: Acc, id: Id, r: Appended)
    requires id !in failed && id in a.s.reqs && !IsFinished(a.s.reqs[id].status) && a.s.reqs[id].status == Running
    requires MidInv(c, out, failed, done, a)
    requires r == Receive(c, a.s.reqs[id], Drafts(out.specs, id), TokensFor(ans, id), id in ans.rejected)
    requires Ready(c, Treated(r)) && NotResumable(Treated(r)) && Treated(r).status != WaitingForRemoteKvs
    requires forall t: State {:trigger KvReady(t, id)} ::
      id in t.reqs && t.reqs[id] == Treated(r) && t.kv == a.s.kv ==> KvReady(t, id)
    ensures var b := UpdateOne(c, out, ans, failed, a, id);
      && (forall x :: x in b.s.reqs ==> MidRequest(c, out, failed, done + [id], b.s, x))
      && PrevOk(b.s) && LoadsOk(c, b.s) && b.stoppedOther == {}
  {
    hide Treatment, Treated, Receive, Partition, Settled, UpdateOne, MidInv, MidRequest, PrevOk, LoadsOk, Ready, KvReady, NotResumable;
    var b := UpdateOne(c, out, ans, failed, a, id);
    UpdateOneShape(c, out, ans, failed, a, id);
    MidParts(c, out, failed, done, a);
    OthersMid(c, out, failed, done, a.s, b.s, id);
    OthersLoads(c, a.s, b.s, id);
  }

  lemma UpdateOneActs(c: Config, out: Output, ans: Answer, failed: set<Id>, done: seq<Id>, a: Acc, id: Id)
    requires Current(c, out, ans, failed, done, a, id)
    ensures MidInv(c, out, failed, done + [id], UpdateOne(c, out, ans, failed, a, id))
  {
    var v, d, gen := a.s.reqs[id], Drafts(out.specs, id), TokensFor(ans, id);
    var rejected := id in ans.rejected;
    var n := Get(out.num, id);
    var r := Receive(c, v, d, gen, rejected);
    CurrentFacts(c, out, ans, failed, done, a, id);
    assert MidInv(c, out, failed, done, a) && id !in failed;
    hide Current, MidInv, MidRequest, Flying, FlyingKv, TokensOk, NextInputFits, Receive, Treated, Treatment, UpdateOne,
         Partition, Settled, PrevOk, LoadsOk, Ready, KvReady, Drafts, TokensFor, Get, NotResumable;
    MidParts(c, out, failed, done, a);
    TreatedReady(c, v, n, d, gen, rejected);
    TreatedNotResumable(Treatment(r), Treated(r));
    TreatedPartition(c, out, ans, failed, a, id, r);
    forall t: State | id in t.reqs && t.reqs[id] == Treated(r) && t.kv == a.s.kv ensures KvReady(t, id) {
      TreatedKv(c, a.s, t, id, n, d, gen, rejected);
    }
    TreatedRequests(c, out, ans, failed, done, a, id, r);
    MidWhole(c, out, failed, done + [id], UpdateOne(c, out, ans, failed, a, id));
  }

  lemma TreatedNotResumable(how: Outcome1, w: View)
    requires how.GoOn? ==> w.status == Running
    requires how.Finish? ==> IsFinished(w.status)
    requires how.NextChunk? ==> w.status == Waiting && w.computed > 0
    requires how.AwaitInput? ==> w.status == WaitingForStreamingReq && w.computed > 0
    ensures NotResumable(w) && w.status != WaitingForRemoteKvs
  {
  }

  lemma MidWhole(c: Config, out: Output, failed: set<Id>, done: seq<Id>, a: Acc)
    requires Partition(Settled(a), []) && |Settled(a).running| <= c.maxRunning
    requires PrevOk(a.s) && LoadsOk(c, a.s) && a.stoppedOther == {}
    requires forall id :: id in a.s.reqs ==> MidRequest(c, out, failed, done, a.s, id)
    ensures MidInv(c, out, failed, done, a)
  {
  }

  /** What the report must say about the requests that are still in flight. */
  ghost predicate ReportsOk(c: Config, out: Output, ans: Answer, failed: set<Id>, done: seq<Id>, s: State) {
    forall id :: id in s.reqs && !IsFinished(s.reqs[id].status) && Busy(out, failed, done, id) ==>
      TokensOk(s.reqs[id], Drafts(out.specs, id), TokensFor(ans, id)) && NextInputFits(c, s.reqs[id])
  }

  /** One iteration of the loop, whoever it is about. */
  lemma UpdateStep(c: Config, out: Output, ans: Answer, failed: set<Id>, done: seq<Id>, a: Acc, id: Id)
    requires id in out.order && id !in done
    requires MidInv(c, out, failed, done, a) && ReportsOk(c, out, ans, failed, done, a.s)
    ensures var b := UpdateOne(c, out, ans, failed, a, id);
      MidInv(c, out, failed, done + [id], b) && ReportsOk(c, out, ans, failed, done + [id], b.s)
  {
    hide MidInv, UpdateOne, TokensOk, NextInputFits;
    var b := UpdateOne(c, out, ans, failed, a, id);
    if id in failed || id !in a.s.reqs || IsFinished(a.s.reqs[id].status) {
      UpdateOneSkips(c, out, ans, failed, done, a, id);
      UpdateOneNothing(c, out, ans, failed, a, id);
    } else {
      UpdateOneActs(c, out, ans, failed, done, a, id);
      UpdateOneOthers(c, out, ans, failed, a, id);
    }
  }

  lemma NextInOrder(order: seq<Id>, n: nat)
    requires NoDup(order) && n < |order|
    ensures order[n] in order && order[n] !in order[..n]
    ensures order[..n + 1] == order[..n] + [order[n]]
  {
    assert forall k :: 0 <= k < n ==> order[..n][k] == order[k];
  }

  lemma {:induction false} UpdateAllInv(c: Config, out: Output, ans: Answer, failed: set<Id>, a: Acc, n: nat)
    requires NoDup(out.order) && n <= |out.order|
    requires MidInv(c, out, failed, [], a) && ReportsOk(c, out, ans, failed, [], a.s)
    ensures var b := UpdateAll(c, out, ans, failed, a, out.order[..n]);
      MidInv(c, out, failed, out.order[..n], b) && ReportsOk(c, out, ans, failed, out.order[..n], b.s)
  {
    hide MidInv, ReportsOk, UpdateOne;
    if n > 0 {
      UpdateAllInv(c, out, ans, failed, a, n - 1);
      NextInOrder(out.order, n - 1);
      var ids := out.order[..n];
      assert ids[..n - 1] == out.order[..n - 1] && ids[n - 1] == out.order[n - 1];
      var b := UpdateAll(c, out, ans, failed, a, out.order[..n - 1]);
      UpdateStep(c, out, ans, failed, out.order[..n - 1], b, out.order[n - 1]);
    } else {
      assert out.order[..0] == [];
    }
  }

  lemma UpdateOneNothing(c: Config, out: Output, ans: Answer, failed: set<Id>, a: Acc, id: Id)
    requires id in failed || id !in a.s.reqs || IsFinished(a.s.reqs[id].status)
    ensures UpdateOne(c, out, ans, failed, a, id) == a
  {
    hide Receive;
  }

  lemma UpdateOneOthers(c: Config, out: Output, ans: Answer, failed: set<Id>, a: Acc, id: Id)
    requires id !in failed && id in a.s.reqs && !IsFinished(a.s.reqs[id].status)
    ensures SameBut(a.s, UpdateOne(c, out, ans, failed, a, id).s, id)
  {
    hide Receive;
  }
}
