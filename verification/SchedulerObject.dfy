/**
 * The `Scheduler` class: its queues, its map of requests and its counters are
 * updated in place. Each method is proved to do what SchedulerSpec computes.
 */
module SchedulerObject {
  import opened Seqs
  import opened Requests
  import opened SchedulerSpec
  import opened RequestObject

  /** Ids of the requests in a queue. */
  function Ids(q: seq<Request>): (r: seq<Id>)
    ensures |r| == |q| && forall i :: 0 <= i < |q| ==> r[i] == q[i].id
  {
    seq(|q|, i requires 0 <= i < |q| => q[i].id)
  }

  lemma IdsPush(r: Request, q: seq<Request>)
    ensures Ids([r] + q) == [r.id] + Ids(q) && Ids(q + [r]) == Ids(q) + [r.id]
  {
  }

  lemma {:induction false} WithoutFrom(s: seq<Id>, gone: set<Id>, k: nat)
    requires k <= |s|
    ensures Without(s[k..], gone) ==
      if k == |s| then [] else (if s[k] in gone then [] else [s[k]]) + Without(s[k + 1..], gone)
    ensures Ids([]) == [] && s[0..] == s
  {
    if k < |s| {
      assert s[k..][1..] == s[k + 1..];
    }
  }

  lemma IdsRemoveAt(q: seq<Request>, k: nat)
    requires k < |q|
    ensures Ids(RemoveAt(q, k)) == RemoveAt(Ids(q), k)
  {
  }

  lemma PreemptIs(s: State, id: Id, t: State)
    requires id in s.reqs
    requires var v := s.reqs[id];
      t == s.(reqs := s.reqs[id := v.(status := Preempted, computed := 0, spec := [], preemptions := v.preemptions + 1)],
              kv := s.kv - {id}, waiting := [id] + s.waiting)
    ensures t == Preempt(s, id)
  {
  }

  lemma {:induction false} PreemptLastFirst(s: State)
    ensures PreemptAll(s) ==
      if s.running == [] then s
      else PreemptAll(Preempt(s.(running := s.running[..|s.running| - 1]), s.running[|s.running| - 1]))
  {
    hide Preempt;
  }

  // ------------------------------------------------------- finishing, one request at a time

  /** The second pass of `finish_requests`, for one request. */
  function FinishOne(s: State, id: Id, st: Status, delay: bool): State {
    var v := At(s, id);
    var loading := v.status == WaitingForRemoteKvs;
    var t := if loading then s.(recvDone := s.recvDone - {id}, recvFailed := s.recvFailed - {id}) else s;
    Free(Put(t, id, v.(status := st)), id, delay || (loading && id !in s.recvDone))
  }

  /** The state when the requests `done` have been through the second pass. */
  ghost function Ending(s: State, valid: set<Id>, delay: set<Id>, st: Status, done: set<Id>): State {
    var freed := done - DelayedFree(s, valid, delay);
    var remote := WithStatus(s, done, WaitingForRemoteKvs);
    s.(reqs := map id | id in s.reqs.Keys - freed :: if id in done then s.reqs[id].(status := st) else s.reqs[id],
       finishedIds := s.finishedIds + done,
       recvDone := s.recvDone - remote,
       recvFailed := s.recvFailed - remote,
       kv := s.kv - freed)
  }

  lemma EndNobody(s: State, valid: set<Id>, delay: set<Id>, st: Status)
    ensures Ending(s, valid, delay, st, {}) == s
  {
    var t := Ending(s, valid, delay, st, {});
    assert WithStatus(s, {}, WaitingForRemoteKvs) == {};
    assert t.reqs == s.reqs && t.kv == s.kv && t.finishedIds == s.finishedIds;
    assert t.recvDone == s.recvDone && t.recvFailed == s.recvFailed;
  }

  lemma EndOneReqs(s: State, t: map<Id, View>, st: Status, done: set<Id>, freed: set<Id>, id: Id, more: set<Id>)
    requires id in s.reqs && id !in done && freed <= done && (more == {} || more == {id})
    requires t == map x | x in s.reqs.Keys - freed :: if x in done then s.reqs[x].(status := st) else s.reqs[x]
    ensures id in t && t[id] == s.reqs[id]
    ensures t[id := s.reqs[id].(status := st)] - more
         == map x | x in s.reqs.Keys - (freed + more) :: if x in done + {id} then s.reqs[x].(status := st) else s.reqs[x]
  {
  }

  lemma EndOneSets(s: State, done: set<Id>, id: Id, d: set<Id>)
    requires id in s.reqs && id !in done
    ensures WithStatus(s, done + {id}, WaitingForRemoteKvs)
         == WithStatus(s, done, WaitingForRemoteKvs) + (if s.reqs[id].status == WaitingForRemoteKvs then {id} else {})
    ensures (done + {id}) - d == (done - d) + (if id in d then {} else {id})
    ensures id !in WithStatus(s, done, WaitingForRemoteKvs)
  {
  }

  lemma EndOne(s: State, valid: set<Id>, delay: set<Id>, st: Status, done: set<Id>, id: Id)
    requires id in valid && id !in done && id in s.reqs
    ensures id in Ending(s, valid, delay, st, done).reqs
    ensures FinishOne(Ending(s, valid, delay, st, done), id, st, id in delay) == Ending(s, valid, delay, st, done + {id})
  {
    var d := DelayedFree(s, valid, delay);
    assert id in d <==> id in delay || (s.reqs[id].status == WaitingForRemoteKvs && id !in s.recvDone);
    EndOneReqs(s, Ending(s, valid, delay, st, done).reqs, st, done, done - d, id, if id in d then {} else {id});
    EndOneSets(s, done, id, d);
    hide WithStatus, DelayedFree;
    EndOneFields(s, valid, delay, st, done, id, d, WithStatus(s, done, WaitingForRemoteKvs));
  }

  lemma EndOneFields(s: State, valid: set<Id>, delay: set<Id>, st: Status, done: set<Id>, id: Id, d: set<Id>, remote: set<Id>)
    requires id in s.reqs && d == DelayedFree(s, valid, delay) && remote == WithStatus(s, done, WaitingForRemoteKvs)
    requires id in d <==> id in delay || (s.reqs[id].status == WaitingForRemoteKvs && id !in s.recvDone)
    requires id !in remote && (done + {id}) - d == (done - d) + (if id in d then {} else {id})
    requires WithStatus(s, done + {id}, WaitingForRemoteKvs)
          == remote + (if s.reqs[id].status == WaitingForRemoteKvs then {id} else {})
    requires var t, w := Ending(s, valid, delay, st, done), Ending(s, valid, delay, st, done + {id});
      && id in t.reqs && t.reqs[id] == s.reqs[id]
      && t.reqs[id := s.reqs[id].(status := st)] - (if id in d then {} else {id}) == w.reqs
    ensures FinishOne(Ending(s, valid, delay, st, done), id, st, id in delay) == Ending(s, valid, delay, st, done + {id})
  {
    hide WithStatus, DelayedFree;
    var t, w := Ending(s, valid, delay, st, done), Ending(s, valid, delay, st, done + {id});
    var u := FinishOne(t, id, st, id in delay);
    if id in d {
      assert t.reqs[id := s.reqs[id].(status := st)] - {} == t.reqs[id := s.reqs[id].(status := st)];
      assert u.kv == w.kv;
    } else {
      assert u.kv == w.kv;
    }
    assert u.recvDone == w.recvDone && u.recvFailed == w.recvFailed && u.finishedIds == w.finishedIds;
  }

  /** The state after the first pass. */
  function Leaving(s: State, valid: set<Id>, run: set<Id>): State {
    s.(running := Without(s.running, run), waiting := Without(s.waiting, valid - run),
       skipped := Without(s.skipped, valid - run),
       numStreaming := s.numStreaming - |WithStatus(s, valid, WaitingForStreamingReq)|)
  }

  lemma {:induction false} LeavingIs(s: State, t: State, valid: set<Id>, run: set<Id>, r: seq<Id>, w: seq<Id>, k: seq<Id>)
    requires t == s.(numStreaming := s.numStreaming - |WithStatus(s, valid, WaitingForStreamingReq)|)
    requires r == Without(s.running, run) && w == Without(s.waiting, valid - run) && k == Without(s.skipped, valid - run)
    ensures t.(running := r, waiting := w, skipped := k) == Leaving(s, valid, run)
  {
    hide Without, WithStatus;
  }

  lemma NobodyYet(s: State)
    ensures Finishable(s, {}) == {} && WithStatus(s, {}, Running) == {} && WithStatus(s, {}, WaitingForStreamingReq) == {}
  {
  }

  lemma OneMoreValid(s: State, ids: set<Id>, id: Id)
    requires id !in ids
    ensures var before, after := Finishable(s, ids), Finishable(s, ids + {id});
            var valid := id in s.reqs && !IsFinished(s.reqs[id].status);
            && after == (if valid then before + {id} else before)
            && id !in WithStatus(s, before, WaitingForStreamingReq)
            && WithStatus(s, after, Running)
                 == WithStatus(s, before, Running) + (if valid && s.reqs[id].status == Running then {id} else {})
            && WithStatus(s, after, WaitingForStreamingReq)
                 == WithStatus(s, before, WaitingForStreamingReq)
                    + (if valid && s.reqs[id].status == WaitingForStreamingReq then {id} else {})
  {
  }

  lemma ValidKnown(s: State, ids: set<Id>)
    ensures forall id :: id in Finishable(s, ids) ==> id in s.reqs
  {
  }

  /** The first pass takes requests off the queues, the second ends them. */
  lemma EndAll(s: State, ids: set<Id>, st: Status, delay: set<Id>)
    ensures var valid := Finishable(s, ids);
            var t := Leaving(s, valid, WithStatus(s, valid, Running));
      Ending(t, valid, delay, st, valid) == SchedulerSpec.FinishRequests(s, ids, st, delay)
  {
    var valid := Finishable(s, ids);
    var t := Leaving(s, valid, WithStatus(s, valid, Running));
    assert DelayedFree(t, valid, delay) == DelayedFree(s, valid, delay);
    assert WithStatus(t, valid, WaitingForRemoteKvs) == WithStatus(s, valid, WaitingForRemoteKvs);
    hide Without;
  }

  lemma HandleStoppedIs(s: State, id: Id)
    requires id in s.reqs
    ensures var v := s.reqs[id];
      HandleStopped(s, id) ==
        if !v.resumable then Handled(s, true)
        else if v.queue == [] then
          Handled(Enqueue(Put(s, id, v.(status := WaitingForStreamingReq)).(numStreaming := s.numStreaming + 1), id), false)
        else
          var t := Put(s, id, v.(queue := v.queue[1..]));
          if v.queue[0].None? then Handled(t, true) else Handled(Enqueue(Session(t, id, v.queue[0].value), id), false)
  {
    hide Enqueue, Session, Put;
  }

  class Scheduler {
    const c: Config
    var requests: map<Id, Request>
    var running: seq<Request>
    var waiting: seq<Request>
    var skipped: seq<Request>
    var finishedIds: set<Id>
    var prev: set<Id>
    var numStreaming: int
    var recvDone: set<Id>
    var recvFailed: set<Id>
    var pause: Pause
    var kv: map<Id, seq<Token>>

    ghost function Values(): map<Id, View>
      reads this`requests, requests.Values
    {
      map id | id in requests :: requests[id].Value()
    }

    /** The abstract value of the scheduler. */
    ghost function Model(): State
      reads this, requests.Values
    {
      State(Values(), Ids(running), Ids(waiting), Ids(skipped), finishedIds, prev, numStreaming, recvDone, recvFailed, pause, kv)
    }

    /** Objects in the queues are the ones that `requests` knows under their id. */
    ghost predicate Linked(q: seq<Request>)
      reads this`requests
    {
      forall i :: 0 <= i < |q| && q[i].id in requests ==> requests[q[i].id] == q[i]
    }

    ghost predicate Valid()
      reads this
    {
      (forall id :: id in requests ==> requests[id].id == id) && Linked(running) && Linked(waiting) && Linked(skipped)
    }

    ghost predicate Knows(r: Request)
      reads this`requests
    {
      r.id in requests && requests[r.id] == r
    }

    constructor (c: Config)
      ensures Valid() && this.c == c && Model() == State(map[], [], [], [], {}, {}, 0, {}, {}, Unpaused, map[])
    {
      this.c := c;
      requests, running, waiting, skipped := map[], [], [], [];
      finishedIds, prev, numStreaming, recvDone, recvFailed, pause, kv := {}, {}, 0, {}, {}, Unpaused, map[];
    }

    /** Only the value of `r` changed since. */
    twostate predicate OnlyChanged(r: Request)
      reads this, requests.Values
    {
      && requests == old(requests)
      && forall id :: id in requests && id != r.id ==> unchanged(requests[id])
    }

    twostate lemma ValuesAfter(r: Request)
      requires Knows(r) && OnlyChanged(r)
      ensures Values() == old(Values())[r.id := r.Value()]
    {
    }

    lemma LinkedPush(r: Request, q: seq<Request>)
      requires Linked(q) && Knows(r)
      ensures Linked([r] + q) && Linked(q + [r])
      ensures Closed(q) ==> Closed([r] + q)
    {
    }

    /** `_preempt_request`: the caller has taken `r` off `running`. */
    method PreemptRequest(r: Request)
      requires Valid() && Knows(r)
      modifies this`kv, this`waiting, r
      ensures Valid() && Model() == Preempt(old(Model()), r.id)
      ensures old(Closed(waiting)) ==> Closed(waiting)
    {
      hide Ids, Linked, SchedulerSpec.Preempt;
      IdsPush(r, waiting);
      LinkedPush(r, waiting);
      kv, waiting := kv - {r.id}, [r] + waiting;
      r.Preempt();
      ValuesAfter(r);
      PreemptIs(old(Model()), r.id, Model());
    }

    /** `_enqueue_waiting_request`. */
    method EnqueueWaitingRequest(r: Request)
      requires Valid() && Knows(r)
      modifies this`waiting, this`skipped
      ensures Valid() && Model() == Enqueue(old(Model()), r.id)
    {
      hide Ids, Linked;
      if IsBlocked(r.status) {
        IdsPush(r, skipped);
        LinkedPush(r, skipped);
        skipped := skipped + [r];
      } else {
        IdsPush(r, waiting);
        LinkedPush(r, waiting);
        waiting := waiting + [r];
      }
    }

    /** `_update_request_as_session`. */
    method UpdateRequestAsSession(r: Request, u: Update)
      requires Valid() && Knows(r)
      modifies this`numStreaming, r
      ensures Valid() && Model() == Session(old(Model()), r.id, u)
    {
      if r.status == WaitingForStreamingReq {
        numStreaming := numStreaming - 1;
      }
      r.ContinueWith(u);
      ValuesAfter(r);
      hide SessionView;
    }

    /** `_handle_stopped_request`. */
    method HandleStoppedRequest(r: Request) returns (finished: bool)
      requires Valid() && Knows(r)
      modifies this`numStreaming, this`waiting, this`skipped, r
      ensures Valid() && Handled(Model(), finished) == HandleStopped(old(Model()), r.id)
    {
      hide Enqueue, Session, Ids, Linked, HandleStopped, Request.Value, Scheduler.Model, Scheduler.Values;
      ModelAt(r);
      r.QueueIs();
      HandleStoppedIs(Model(), r.id);
      if !r.resumable {
        return true;
      }
      if r.queue != [] {
        var u := NextChunkOf(r);
        if u.None? {
          return true;
        }
        UpdateRequestAsSession(r, u.value);
      } else {
        AwaitInput(r);
      }
      EnqueueWaitingRequest(r);
      return false;
    }

    method NextChunkOf(r: Request) returns (u: Option<Update>)
      requires Valid() && Knows(r) && r.queue != []
      modifies r
      ensures Valid() && u == old(r.queue)[0]
      ensures Model() == Put(old(Model()), r.id, old(r.Value()).(queue := old(r.queue)[1..]))
    {
      hide Ids, Linked;
      u := r.NextChunk();
      PutAfter(r);
    }

    method AwaitInput(r: Request)
      requires Valid() && Knows(r)
      modifies this`numStreaming, r
      ensures Valid()
      ensures Model() == Put(old(Model()), r.id, old(r.Value()).(status := WaitingForStreamingReq))
                           .(numStreaming := old(Model()).numStreaming + 1)
    {
      hide Ids, Linked;
      r.SetStatus(WaitingForStreamingReq);
      ValuesAfter(r);
      numStreaming := numStreaming + 1;
    }

    /** `_free_request`. */
    method FreeRequest(r: Request, delay: bool)
      requires Valid() && Knows(r)
      modifies this`finishedIds, this`kv, this`requests
      ensures Valid() && Model() == Free(old(Model()), r.id, delay)
      ensures requests == if delay then old(requests) else old(requests) - {r.id}
    {
      finishedIds := finishedIds + {r.id};
      if !delay {
        kv := kv - {r.id};
        requests := requests - {r.id};
        assert Values() == old(Values()) - {r.id};
      }
    }

    /** Every queued request is known. */
    ghost predicate Closed(q: seq<Request>)
      reads this`requests
    {
      forall i :: 0 <= i < |q| ==> q[i].id in requests
    }

    lemma PopLast(q: seq<Request>)
      requires q != [] && Linked(q) && Closed(q)
      ensures var n := |q| - 1;
        Linked(q[..n]) && Closed(q[..n]) && Knows(q[n]) && Ids(q[..n]) == Ids(q)[..n] && Ids(q)[n] == q[n].id
    {
    }

    /** `reset_prefix_cache`: the running requests go back to `waiting`, last first. */
    method ResetPrefixCache(resetRunning: bool)
      requires Valid() && Closed(running)
      modifies this`running, this`kv, this`waiting, this`prev, requests.Values
      ensures Valid() && Model() == SchedulerSpec.ResetPrefixCache(old(Model()), resetRunning)
    {
      hide Ids, Linked, Closed, Preempt, Request.Value, PreemptAll, Scheduler.Model, Scheduler.Values;
      if resetRunning {
        while running != []
          invariant Valid() && Closed(running)
          invariant PreemptAll(Model()) == PreemptAll(old(Model()))
          decreases |running|
        {
          ModelQueues();
          PreemptLastFirst(Model());
          PreemptLast();
        }
        ModelQueues();
        PreemptLastFirst(Model());
        ForgetPrev();
      }
    }

    /** `running.pop()`, and back to `waiting` with it. */
    method PreemptLast()
      requires Valid() && Closed(running) && running != []
      modifies this`running, this`kv, this`waiting, requests.Values
      ensures Valid() && Closed(running) && |running| == |old(running)| - 1
      ensures var s := old(Model());
        s.running != [] && Model() == Preempt(s.(running := s.running[..|s.running| - 1]), s.running[|s.running| - 1])
    {
      hide Ids, Linked, Closed, Preempt, Request.Value;
      var n := |running| - 1;
      var r := running[n];
      PopLast(running);
      running := running[..n];
      PreemptRequest(r);
    }

    method ForgetPrev()
      requires Valid()
      modifies this`prev
      ensures Valid() && Model() == old(Model()).(prev := {})
    {
      hide Ids, Linked, Request.Value;
      prev := {};
      assert Values() == old(Values());
    }

    /** `update_draft_token_ids`. */
    method UpdateDraftTokenIds(drafts: map<Id, seq<Token>>)
      requires Valid()
      modifies requests.Values
      ensures Valid() && Model() == UpdateDrafts(old(Model()), drafts)
    {
      hide Ids, Linked, WithDrafts, Request.Value, Scheduler.Values;
      SetAllDrafts(drafts);
      DraftedIs(drafts);
    }

    /** Every request has its new drafts, and nothing else changed. */
    twostate lemma DraftedIs(drafts: map<Id, seq<Token>>)
      requires unchanged(this)
      requires forall id :: id in requests ==>
        requests[id].Value() ==
          if id in drafts then WithDrafts(old(requests[id].Value()), drafts[id]) else old(requests[id].Value())
      ensures Model() == UpdateDrafts(old(Model()), drafts)
    {
      hide Ids, WithDrafts, Request.Value;
      assert Values() == UpdateDrafts(old(Model()), drafts).reqs;
    }

    method SetAllDrafts(drafts: map<Id, seq<Token>>)
      requires Valid()
      modifies requests.Values
      ensures Valid()
      ensures forall id :: id in requests ==>
        requests[id].Value() ==
          if id in drafts then WithDrafts(old(requests[id].Value()), drafts[id]) else old(requests[id].Value())
    {
      hide Ids, Linked, WithDrafts, Request.Value;
      var todo := drafts.Keys;
      while todo != {}
        invariant todo <= drafts.Keys
        invariant forall id :: id in requests ==>
          requests[id].Value() == if id in drafts && id !in todo
                                  then WithDrafts(old(requests[id].Value()), drafts[id]) else old(requests[id].Value())
        decreases |todo|
      {
        var id :| id in todo;
        todo := todo - {id};
        if id in requests {
          requests[id].SetDrafts(drafts[id]);
        }
      }
    }

    lemma StatusIs(r: Request)
      ensures r.Value().status == r.status
    {
    }

    lemma ModelAt(r: Request)
      requires Knows(r)
      ensures r.id in Model().reqs && Model().reqs[r.id] == r.Value() && At(Model(), r.id) == r.Value()
    {
    }

    lemma ModelKeys()
      ensures forall id :: id in Model().reqs <==> id in requests
      ensures Valid() ==> forall id :: id in requests ==> Knows(requests[id])
    {
    }

    /** Only `r` changed since, and no field of the scheduler. */
    twostate lemma PutAfter(r: Request)
      requires Knows(r) && unchanged(this) && OnlyChanged(r)
      ensures Model() == Put(old(Model()), r.id, r.Value())
    {
      ValuesAfter(r);
      hide Scheduler.Values, Request.Value, Ids;
    }

    lemma ModelOfAll()
      ensures forall id :: id in requests <==> id in Model().reqs
      ensures forall id :: id in requests ==> requests[id].Value() == Model().reqs[id]
    {
    }

    lemma ModelQueues()
      ensures Model().running == Ids(running) && Model().waiting == Ids(waiting) && Model().skipped == Ids(skipped)
      ensures Model().numStreaming == numStreaming
    {
    }

    lemma ModelHolders()
      ensures Model().kv == kv
    {
    }

    lemma ModelPause()
      ensures Model().pause == pause
    {
    }

    lemma ModelFinished()
      ensures Model().finishedIds == finishedIds
    {
    }

    lemma RunningAt(k: int)
      requires Closed(running) && Valid() && 0 <= k < |running|
      ensures Knows(running[k]) && Model().running[k] == running[k].id
    {
    }

    method SetQueues(r: seq<Request>, w: seq<Request>, k: seq<Request>)
      requires Valid() && Linked(r) && Linked(w) && Linked(k)
      modifies this`running, this`waiting, this`skipped
      ensures Valid() && Model() == old(Model()).(running := Ids(r), waiting := Ids(w), skipped := Ids(k))
    {
      hide Ids, Linked, Request.Value;
      running, waiting, skipped := r, w, k;
      assert Values() == old(Values());
    }

    method SetCounter(n: int)
      requires Valid()
      modifies this`numStreaming
      ensures Valid() && numStreaming == n && Model() == old(Model()).(numStreaming := n)
    {
      hide Ids, Linked, Request.Value;
      numStreaming := n;
      assert Values() == old(Values());
    }

    method ForgetLoad(id: Id)
      requires Valid()
      modifies this`recvDone, this`recvFailed
      ensures Valid() && Model() == old(Model()).(recvDone := old(recvDone) - {id}, recvFailed := old(recvFailed) - {id})
      ensures recvDone == old(recvDone) - {id}
    {
      recvDone, recvFailed := recvDone - {id}, recvFailed - {id};
    }

    lemma ModelSets()
      ensures Model().recvDone == recvDone && Model().recvFailed == recvFailed
    {
    }

    /** The second pass of `finish_requests`, for one request. */
    method EndRequest(r: Request, st: Status, delay: bool)
      requires Valid() && Knows(r)
      modifies this`recvDone, this`recvFailed, this`finishedIds, this`kv, this`requests, r
      ensures Valid() && Model() == FinishOne(old(Model()), r.id, st, delay)
      ensures requests.Keys <= old(requests).Keys && forall id :: id in requests ==> requests[id] == old(requests)[id]
    {
      hide Ids, Linked, Free, Request.Value, Scheduler.Model, Scheduler.Values, Put, At;
      StatusIs(r);
      ModelAt(r);
      ModelSets();
      var loading := r.status == WaitingForRemoteKvs;
      var later := delay || (loading && r.id !in recvDone);
      if loading {
        ForgetLoad(r.id);
      }
      label B:
      r.SetStatus(st);
      PutAfter@B(r);
      FreeRequest(r, later);
    }

    /** `remove_all` and `remove_requests`: drop the listed requests, keeping the order of the rest. */
    method RemoveAll(q: seq<Request>, gone: set<Id>) returns (rest: seq<Request>)
      requires Linked(q)
      ensures Ids(rest) == Without(Ids(q), gone) && Linked(rest) && (Closed(q) ==> Closed(rest))
    {
      hide Ids, Without;
      rest := [];
      var k := 0;
      WithoutFrom(Ids(q), gone, 0);
      while k < |q|
        invariant 0 <= k <= |q| && Linked(rest) && (Closed(q) ==> Closed(rest))
        invariant Without(Ids(q), gone) == Ids(rest) + Without(Ids(q)[k..], gone)
      {
        WithoutFrom(Ids(q), gone, k);
        if q[k].id !in gone {
          IdsPush(q[k], rest);
          rest := rest + [q[k]];
        }
        k := k + 1;
      }
      WithoutFrom(Ids(q), gone, k);
    }

    /** `finish_requests`. */
    method FinishRequests(ids: set<Id>, st: Status, delay: set<Id>)
      requires Valid()
      modifies this, requests.Values
      ensures Valid() && Model() == SchedulerSpec.FinishRequests(old(Model()), ids, st, delay)
      ensures requests.Keys <= old(requests).Keys && forall id :: id in requests ==> requests[id] == old(requests)[id]
    {
      hide Ids, Linked, Finishable, FinishOne, Ending, SchedulerSpec.FinishRequests, WithStatus, DelayedFree, Without,
           Request.Value, Leaving;
      ghost var s := Model();
      var valid, run := TakeOff(ids);
      ghost var t := Model();
      EndAll(s, ids, st, delay);
      EndNobody(t, valid, delay, st);
      ValidKnown(s, ids);
      var todo := valid;
      assert valid - todo == {};
      while todo != {}
        invariant todo <= valid && Valid()
        invariant Model() == Ending(t, valid, delay, st, valid - todo)
        invariant requests.Keys <= old(requests).Keys && forall id :: id in requests ==> requests[id] == old(requests)[id]
        decreases |todo|
      {
        var id :| id in todo;
        EndOne(t, valid, delay, st, valid - todo, id);
        assert id in Values();
        EndRequest(requests[id], st, id in delay);
        assert valid - todo + {id} == valid - (todo - {id});
        todo := todo - {id};
      }
      assert valid - todo == valid;
    }

    /** The first pass of `finish_requests`: which requests end, and from which queue. */
    method Classify(ids: set<Id>) returns (valid: set<Id>, run: set<Id>)
      modifies this`numStreaming
      requires Valid()
      ensures Valid() && valid == Finishable(old(Model()), ids) && run == WithStatus(old(Model()), valid, Running)
      ensures Model() == old(Model()).(
        numStreaming := old(numStreaming) - |WithStatus(old(Model()), valid, WaitingForStreamingReq)|)
    {
      hide Ids, Linked, Finishable, WithStatus, Request.Value, Scheduler.Model, Scheduler.Values;
      valid, run := {}, {};
      ghost var s := Model();
      ghost var seen: set<Id> := {};
      var todo := ids;
      NobodyYet(s);
      ModelQueues();
      while todo != {}
        invariant seen !! todo && seen + todo == ids && Valid()
        invariant valid == Finishable(s, seen) && run == WithStatus(s, valid, Running)
        invariant numStreaming == s.numStreaming - |WithStatus(s, valid, WaitingForStreamingReq)|
        invariant Model() == s.(numStreaming := numStreaming)
        decreases |todo|
      {
        var id :| id in todo;
        valid, run := ClassifyOne(id, valid, run, s, seen);
        seen := seen + {id};
        todo := todo - {id};
      }
      assert seen == ids;
    }

    method ClassifyOne(id: Id, valid: set<Id>, run: set<Id>, ghost s: State, ghost seen: set<Id>)
      returns (validNow: set<Id>, runNow: set<Id>)
      requires Valid() && id !in seen
      requires valid == Finishable(s, seen) && run == WithStatus(s, valid, Running)
      requires numStreaming == s.numStreaming - |WithStatus(s, valid, WaitingForStreamingReq)|
      requires Model() == s.(numStreaming := numStreaming)
      modifies this`numStreaming
      ensures Valid() && validNow == Finishable(s, seen + {id}) && runNow == WithStatus(s, validNow, Running)
      ensures numStreaming == s.numStreaming - |WithStatus(s, validNow, WaitingForStreamingReq)|
      ensures Model() == s.(numStreaming := numStreaming)
    {
      hide Ids, Linked, Finishable, WithStatus, IsFinished, Request.Value, Scheduler.Model, Scheduler.Values;
      OneMoreValid(s, seen, id);
      ModelOfAll();
      validNow, runNow := valid, run;
      if id in requests {
        StatusIs(requests[id]);
        if !IsFinished(requests[id].status) {
          validNow := valid + {id};
          if requests[id].status == Running {
            runNow := run + {id};
          } else if requests[id].status == WaitingForStreamingReq {
            SetCounter(numStreaming - 1);
          }
        }
      }
    }

    /** The first pass of `finish_requests`: the requests to end leave their queues. */
    method TakeOff(ids: set<Id>) returns (valid: set<Id>, run: set<Id>)
      requires Valid()
      modifies this`running, this`waiting, this`skipped, this`numStreaming
      ensures Valid() && valid == Finishable(old(Model()), ids) && run == WithStatus(old(Model()), valid, Running)
      ensures Model() == Leaving(old(Model()), valid, run)
    {
      hide Ids, Linked, Without, Finishable, WithStatus, Request.Value, Scheduler.Model, Scheduler.Values, Leaving;
      ModelQueues();
      ghost var s := Model();
      valid, run := Classify(ids);
      var r := RemoveAll(running, run);
      var w := RemoveAll(waiting, valid - run);
      var k := RemoveAll(skipped, valid - run);
      ghost var t := Model();
      SetQueues(r, w, k);
      LeavingIs(s, t, valid, run, Ids(r), Ids(w), Ids(k));
    }

    /** A new request becomes known. */
    method Register(r: Request)
      requires Valid() && r.id !in requests && Closed(running) && Closed(waiting) && Closed(skipped)
      modifies this`requests
      ensures Valid() && Knows(r) && Model() == Put(old(Model()), r.id, r.Value())
    {
      hide Ids, Request.Value;
      requests := requests[r.id := r];
      assert Values() == old(Values())[r.id := r.Value()];
    }

    method QueueChunkOf(r: Request, u: Option<Update>)
      requires Valid() && Knows(r)
      modifies r
      ensures Valid() && Model() == Put(old(Model()), r.id, old(r.Value()).(queue := old(r.Value()).queue + [u]))
    {
      hide Ids, Linked;
      r.QueueChunk(u);
      PutAfter(r);
    }

    /** `add_request`: a new request is queued, a known one is a session that gets its next chunk. */
    method AddRequest(r: Request, delay: set<Id>)
      requires Valid() && Closed(running) && Closed(waiting) && Closed(skipped)
      modifies this, requests.Values
      ensures Valid() && Model() == SchedulerSpec.AddRequest(old(Model()), r.id, old(r.Value()), delay)
    {
      hide Ids, Linked, Request.Value, Scheduler.Model, Scheduler.Values, Closed, SchedulerSpec.FinishRequests, Session, Enqueue,
           UpdateOf;
      ModelOfAll();
      if r.id in requests {
        var known := requests[r.id];
        ModelAt(known);
        StatusIs(known);
        var u := r.AsUpdate();
        if known.status != WaitingForStreamingReq {
          QueueChunkOf(known, u);
        } else if u.Some? {
          UpdateRequestAsSession(known, u.value);
        } else {
          FinishRequests({r.id}, FinishedAborted, delay);
        }
      } else {
        Register(r);
        EnqueueWaitingRequest(r);
      }
    }

    method SetPauseState(pause: Pause)
      modifies this`pause
      ensures Valid() == old(Valid()) && Model() == old(Model()).(pause := pause)
    {
      hide Ids, Linked, Request.Value;
      this.pause := pause;
      assert Values() == old(Values());
    }

    lemma ModelSizes()
      ensures |Model().reqs| == |requests| && |Model().running| == |running|
           && |Model().waiting| == |waiting| && |Model().skipped| == |skipped|
    {
      hide Request.Value;
      assert Model().reqs.Keys == requests.Keys;
    }

    /** `get_num_unfinished_requests`. */
    method GetNumUnfinishedRequests() returns (n: int)
      ensures n == NumUnfinished(Model())
    {
      ModelSizes();
      hide Ids, Request.Value;
      if pause == PausedAll {
        return 0;
      }
      if pause == PausedNew {
        return |running|;
      }
      var waits := |waiting| + |skipped| - numStreaming;
      n := waits + |running|;
    }

    /** `has_finished_requests`. */
    method HasFinishedRequests() returns (b: bool)
      ensures b == HasFinished(c, Model())
    {
      ModelSizes();
      hide Ids, Request.Value;
      if finishedIds != {} {
        return true;
      }
      if !c.connector {
        return false;
      }
      var queued := |waiting| + |skipped| + |running|;
      b := |requests| > queued;
    }

    /** `running.pop()` and `running.remove(...)`. */
    method RemoveRunning(k: nat)
      requires Valid() && Closed(running) && k < |running|
      modifies this`running
      ensures Valid() && Closed(running) && |running| == |old(running)| - 1
      ensures Model() == old(Model()).(running := RemoveAt(old(Model()).running, k))
      ensures Knows(old(running)[k])
    {
      hide Ids, Request.Value;
      IdsRemoveAt(running, k);
      running := RemoveAt(running, k);
      assert Values() == old(Values());
    }

    method MarkWaiting(r: Request)
      requires Valid() && Knows(r)
      modifies r
      ensures Valid() && Model() == Put(old(Model()), r.id, old(r.Value()).(status := Waiting))
    {
      hide Ids, Linked;
      r.SetStatus(Waiting);
      PutAfter(r);
    }

    method BeginLoading(r: Request, computed: int)
      requires Valid() && Knows(r)
      modifies r
      ensures Valid() && Model() == Put(old(Model()), r.id, old(r.Value()).(status := WaitingForRemoteKvs, computed := computed))
    {
      hide Ids, Linked;
      r.StartLoading(computed);
      PutAfter(r);
    }

    method BeginRunning(r: Request, computed: int)
      requires Valid() && Knows(r)
      modifies r
      ensures Valid() && Model() == Put(old(Model()), r.id, old(r.Value()).(status := Running, computed := computed))
    {
      hide Ids, Linked;
      r.StartRunning(computed);
      PutAfter(r);
    }

    /** A load is over; a failed one that left nothing valid also gives its blocks back. */
    method FinishLoad(id: Id, drop: bool)
      requires Valid()
      modifies this`kv, this`recvDone, this`recvFailed
      ensures Valid()
      ensures Model() == old(Model()).(kv := if drop then old(Model()).kv - {id} else old(Model()).kv,
                                       recvDone := old(Model()).recvDone - {id}, recvFailed := old(Model()).recvFailed - {id})
    {
      hide Ids, Linked, Request.Value;
      kv := if drop then kv - {id} else kv;
      recvDone, recvFailed := recvDone - {id}, recvFailed - {id};
      assert Values() == old(Values());
    }

    /** Take position `k` off `skipped` or `waiting`. */
    method PopAt(fromSkipped: bool, k: nat)
      requires Valid() && Closed(waiting) && Closed(skipped) && k < if fromSkipped then |skipped| else |waiting|
      modifies this`waiting, this`skipped
      ensures Valid() && Closed(waiting) && Closed(skipped)
      ensures |waiting| + |skipped| == |old(waiting)| + |old(skipped)| - 1
      ensures var s := old(Model());
        Model() == if fromSkipped then s.(skipped := RemoveAt(s.skipped, k)) else s.(waiting := RemoveAt(s.waiting, k))
    {
      hide Ids, Request.Value;
      if fromSkipped {
        IdsRemoveAt(skipped, k);
        skipped := RemoveAt(skipped, k);
      } else {
        IdsRemoveAt(waiting, k);
        waiting := RemoveAt(waiting, k);
      }
      assert Values() == old(Values());
    }

    /** Slots granted: the request starts from a cached or loaded prefix of its tokens. */
    method GrantSlots(r: Request, computed: int)
      requires Valid() && Knows(r)
      modifies this`kv
      ensures Valid() && Model() == old(Model()).(kv := StartKv(old(Model()), r.id, computed))
    {
      hide Ids, Linked;
      ModelAt(r);
      kv := kv[r.id := if r.computed == 0 then Take(r.all, computed) else if r.id in kv then kv[r.id] else []];
      assert Values() == old(Values());
    }

    method AppendRunning(r: Request)
      requires Valid() && Knows(r) && Closed(running)
      modifies this`running
      ensures Valid() && Closed(running) && Model() == old(Model()).(running := old(Model()).running + [r.id])
    {
      hide Ids, Request.Value;
      IdsPush(r, running);
      running := running + [r];
      assert Values() == old(Values());
    }

    /** `prepend_requests`: the requests skipped in this step go in front of the older skipped ones. */
    method RequeueSkipped(q: seq<Request>)
      requires Valid() && Linked(q) && Closed(q) && Closed(skipped)
      modifies this`skipped
      ensures Valid() && Closed(skipped) && Model() == old(Model()).(skipped := Reverse(Ids(q)) + old(Model()).skipped)
    {
      hide Ids, Request.Value, Linked, Closed;
      var k := 0;
      while k < |q|
        invariant 0 <= k <= |q| && Valid() && Closed(skipped)
        invariant Reverse(Ids(q)) + old(Model()).skipped == Reverse(Ids(q)[k..]) + Model().skipped
        invariant Model() == old(Model()).(skipped := Model().skipped)
      {
        PrependOne(q, k);
        ReverseHead(Ids(q)[k..]);
        assert Ids(q)[k..][1..] == Ids(q)[k + 1..];
        PushSkipped(q[k]);
        k := k + 1;
      }
      assert Ids(q)[k..] == [];
    }

    lemma PrependOne(q: seq<Request>, k: nat)
      requires Linked(q) && Closed(q) && k < |q|
      ensures Knows(q[k])
    {
    }

    method PushSkipped(r: Request)
      requires Valid() && Knows(r) && Closed(skipped)
      modifies this`skipped
      ensures Valid() && Closed(skipped) && Model() == old(Model()).(skipped := [r.id] + old(Model()).skipped)
    {
      hide Ids, Request.Value;
      IdsPush(r, skipped);
      skipped := [r] + skipped;
      assert Values() == old(Values());
    }

    /** `_update_after_schedule`, for one request. */
    method Advance(r: Request, n: int)
      requires Valid() && Knows(r)
      modifies r
      ensures Valid() && Model() == Put(old(Model()), r.id, SchedulerSpec.Advance(old(r.Value()), n))
    {
      hide Ids, Linked;
      r.AdvanceBy(n);
      PutAfter(r);
    }

    /** The worker writes KV for the scheduled positions. */
    method WriteKvOf(num: map<Id, int>, specs: map<Id, seq<Token>>)
      requires Valid()
      modifies this`kv
      ensures Valid()
      ensures Model() == old(Model()).(
        kv := map id | id in old(Model()).kv ::
                if id in num then WriteKv(old(Model()).kv[id], At(old(Model()), id), num[id], Drafts(specs, id))
                else old(Model()).kv[id])
    {
      hide Ids, Linked, WriteKv, Drafts, Request.Value, Scheduler.Model, Scheduler.Values, At;
      ModelHolders();
      ModelViews();
      SetKv(map id | id in kv ::
        if id in num then WriteKv(kv[id], if id in requests then requests[id].Value() else NOBODY, num[id], Drafts(specs, id))
        else kv[id]);
    }

    method SetKv(kv: map<Id, seq<Token>>)
      requires Valid()
      modifies this`kv
      ensures Valid() && Model() == old(Model()).(kv := kv)
    {
      hide Ids, Linked, Request.Value;
      this.kv := kv;
      assert Values() == old(Values());
    }

    lemma ModelViews()
      ensures forall id :: At(Model(), id) == if id in requests then requests[id].Value() else NOBODY
    {
    }

    /** The end of a step: who was scheduled is remembered, who finished is not reported again. */
    method EndStep(order: seq<Id>)
      requires Valid()
      modifies this`prev, this`finishedIds
      ensures Valid() && Model() == old(Model()).(prev := (set id | id in order), finishedIds := {})
    {
      hide Ids, Linked, Request.Value;
      prev, finishedIds := (set id | id in order), {};
      assert Values() == old(Values());
    }

    /** Tokens arrive for one request. */
    method Receive(r: Request, drafts: seq<Token>, gen: seq<Token>, rejected: bool) returns (kept: seq<Token>, stopped: bool)
      requires Valid() && Knows(r)
      modifies r
      ensures Valid()
      ensures var a := SchedulerSpec.Receive(c, old(r.Value()), drafts, gen, rejected);
        Model() == Put(old(Model()), r.id, a.v) && kept == a.toks && stopped == a.stopped && r.Value() == a.v
    {
      hide Ids, Linked, SchedulerSpec.Receive;
      kept, stopped := r.ReceiveTokens(c, drafts, gen, rejected);
      PutAfter(r);
    }

    /** A lower computed count, after a failed load. */
    method LowerComputed(r: Request, computed: int)
      requires Valid() && Knows(r)
      modifies r
      ensures Valid() && Model() == Put(old(Model()), r.id, old(r.Value()).(computed := computed))
    {
      hide Ids, Linked;
      r.SetComputed(computed);
      PutAfter(r);
    }

    method NoteFailedLoads(ids: set<Id>)
      requires Valid()
      modifies this`recvFailed
      ensures Valid() && Model() == old(Model()).(recvFailed := old(Model()).recvFailed + ids)
    {
      hide Ids, Linked, Request.Value;
      recvFailed := recvFailed + ids;
      assert Values() == old(Values());
    }

    method NoteLoaded(id: Id)
      requires Valid()
      modifies this`recvDone
      ensures Valid() && Model() == old(Model()).(recvDone := old(Model()).recvDone + {id})
    {
      hide Ids, Linked, Request.Value;
      recvDone := recvDone + {id};
      assert Values() == old(Values());
    }

    /** `_free_blocks`. */
    method FreeBlocksOf(id: Id)
      requires Valid()
      modifies this`kv, this`requests
      ensures Valid() && Model() == FreeBlocks(old(Model()), id) && requests == old(requests) - {id}
    {
      hide Ids, Request.Value;
      kv, requests := kv - {id}, requests - {id};
      assert Values() == old(Values()) - {id};
    }
  }

  lemma {:induction false} ReverseHead(s: seq<Id>)
    requires s != []
    ensures forall t: seq<Id> :: Reverse(s) + t == Reverse(s[1..]) + ([s[0]] + t)
  {
  }
}