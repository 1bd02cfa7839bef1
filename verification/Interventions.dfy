/** Arrivals, drafts, resets and pauses keep the engine invariant. */
module Interventions {
  import opened Seqs
  import opened Requests
  import opened SchedulerSpec
  import opened QueuePartition
  import opened Accounting
  import opened Planning
  import opened Admission
  import opened ScheduleStep
  import opened Engine
  import opened EngineStep
  import opened Receiving
  import opened Finishing

  lemma InvParts(c: Config, e: Engine)
    requires EngineInv(c, e)
    ensures Partition(e.s, []) && |e.s.running| <= c.maxRunning && PrevOk(e.s) && LoadsOk(c, e.s) && PendingOk(e)
    ensures forall id :: id in e.s.reqs ==> RequestOk(c, e, id) && id in e.seen
  {
  }

  lemma InvQueues(c: Config, e: Engine)
    requires EngineInv(c, e)
    ensures Partition(e.s, []) && |e.s.running| <= c.maxRunning
  {
  }

  // ------------------------------------------------------------------- one request

  /** Replacing one request, without moving it, by one that is as good. */
  lemma ReplaceKeepsInv(c: Config, e: Engine, t: State, id: Id)
    requires EngineInv(c, e) && id in e.s.reqs && !IsFinished(e.s.reqs[id].status)
    requires t == e.s.(reqs := e.s.reqs[id := At(t, id)], numStreaming := t.numStreaming)
    requires RequestOk(c, e.(s := t), id)
    requires Partition(t, [])
    requires e.s.reqs[id].status == WaitingForRemoteKvs || At(t, id).status == WaitingForRemoteKvs ==>
      At(t, id).status == e.s.reqs[id].status && At(t, id).computed == e.s.reqs[id].computed && At(t, id).all == e.s.reqs[id].all
    requires NotResumable(e.s.reqs[id]) ==> NotResumable(At(t, id))
    ensures EngineInv(c, e.(s := t))
  {
    var f := e.(s := t);
    InvParts(c, e);
    forall x | x in t.reqs ensures RequestOk(c, f, x) && x in e.seen {
      if x != id {
        assert RequestOk(c, e, x);
      }
    }
    hide RequestOk, Partition, EngineInv;
    ReplacedLoads(c, e.s, t, id);
    Whole(c, f);
  }

  lemma ReplacedLoads(c: Config, s: State, t: State, id: Id)
    requires LoadsOk(c, s) && PrevOk(s) && id in s.reqs
    requires t.reqs == s.reqs[id := At(t, id)] && t.recvFailed == s.recvFailed && t.prev == s.prev
    requires s.reqs[id].status == WaitingForRemoteKvs || At(t, id).status == WaitingForRemoteKvs ==>
      At(t, id).status == s.reqs[id].status && At(t, id).computed == s.reqs[id].computed && At(t, id).all == s.reqs[id].all
    requires NotResumable(s.reqs[id]) ==> NotResumable(At(t, id))
    ensures LoadsOk(c, t) && PrevOk(t)
  {
  }

  /** A further input chunk is queued while the session is busy. */
  lemma QueueChunk(c: Config, e: Engine, id: Id, u: Option<Update>)
    requires EngineInv(c, e) && id in e.s.reqs && !IsFinished(e.s.reqs[id].status)
    requires e.s.reqs[id].status != WaitingForStreamingReq
    ensures var v := e.s.reqs[id];
      EngineInv(c, e.(s := Put(e.s, id, v.(queue := v.queue + [u]))))
  {
    var v := e.s.reqs[id];
    var t := Put(e.s, id, v.(queue := v.queue + [u]));
    InvParts(c, e);
    assert RequestOk(c, e, id);
    PutSameStatus(e.s, id, v.(queue := v.queue + [u]), []);
    hide EngineInv, Partition;
    ReplaceKeepsInv(c, e, t, id);
  }

  /** A session that awaits input takes its next chunk, and stays in `skipped` until it is scheduled. */
  lemma NextChunkArrives(c: Config, e: Engine, id: Id, u: Update)
    requires EngineInv(c, e) && id in e.s.reqs && e.s.reqs[id].status == WaitingForStreamingReq
    requires u.prompt != [] && e.s.reqs[id].computed + |u.prompt| < c.maxModelLen
    ensures EngineInv(c, e.(s := Session(e.s, id, u)))
  {
    var v := e.s.reqs[id];
    var t := Session(e.s, id, u);
    InvParts(c, e);
    assert RequestOk(c, e, id) && !InFlight(e, id);
    SessionContinues(v, u);
    SkippedMayWait(e.s, t, id);
    hide EngineInv, Partition, Flying, FlyingKv;
    ReplaceKeepsInv(c, e, t, id);
  }

  lemma SkippedMayWait(s: State, t: State, id: Id)
    requires Partition(s, []) && id in s.reqs && IsBlocked(s.reqs[id].status)
    requires t.reqs == s.reqs[id := At(t, id)] && At(t, id).status == Waiting
    requires t.running == s.running && t.waiting == s.waiting && t.skipped == s.skipped
    ensures Partition(t, [])
  {
    ExactlyOneQueue(s, id);
    assert multiset(s.skipped)[id] >= 1 && multiset(s.running)[id] == 0 && multiset(s.waiting)[id] == 0;
    assert id !in s.running && id !in s.waiting;
    assert Unfinished(t) == Unfinished(s);
    assert Queued(t, []) == Queued(s, []);
    hide Queued;
  }

  // -------------------------------------------------------------------- new requests

  lemma EnqueueNew(s: State, id: Id, v: View)
    requires Partition(s, []) && id !in s.reqs
    requires !IsFinished(v.status) && v.status != Running && (v.status in {Waiting, Preempted} || IsBlocked(v.status))
    ensures Partition(Enqueue(Put(s, id, v), id), [])
  {
    var t := Enqueue(Put(s, id, v), id);
    NewCounts(s, t, id);
    FinishedInNoQueue(s, id);
    hide Queued;
  }

  lemma NewCounts(s: State, t: State, id: Id)
    requires Queued(s, []) == multiset(Unfinished(s)) && id !in s.reqs
    requires t.reqs == s.reqs[id := At(t, id)] && !IsFinished(At(t, id).status) && t.running == s.running
    requires (t.waiting == s.waiting + [id] && t.skipped == s.skipped) || (t.waiting == s.waiting && t.skipped == s.skipped + [id])
    ensures Queued(t, []) == multiset(Unfinished(t))
  {
    assert Unfinished(t) == Unfinished(s) + {id};
    hide Unfinished;
    assert id !in multiset(Unfinished(s));
    assert multiset(Unfinished(t)) == multiset(Unfinished(s)) + multiset{id};
  }

  lemma EnqueueOnlyQueues(s: State, id: Id)
    ensures var t := Enqueue(s, id);
      t == s.(waiting := t.waiting, skipped := t.skipped)
  {
  }

  lemma NewArrives(c: Config, e: Engine, id: Id, v: View)
    requires EngineInv(c, e) && id !in e.seen && NewRequest(c, v)
    ensures EngineInv(c, e.(s := Enqueue(Put(e.s, id, v), id), seen := e.seen[id := v], arrivals := e.arrivals + [id]))
  {
    InvParts(c, e);
    var t := Enqueue(Put(e.s, id, v), id);
    EnqueueNew(e.s, id, v);
    EnqueueOnlyQueues(Put(e.s, id, v), id);
    var f := e.(s := t, seen := e.seen[id := v], arrivals := e.arrivals + [id]);
    hide Enqueue, Partition, EngineInv;
    NewOthers(c, e, f, id, v);
    NewLoads(c, e.s, t, id, v);
    Whole(c, f);
  }

  lemma NewOthers(c: Config, e: Engine, f: Engine, id: Id, v: View)
    requires id !in e.seen && id !in e.s.reqs && NewRequest(c, v) && PendingOk(e)
    requires forall x :: x in e.s.reqs ==> RequestOk(c, e, x) && x in e.seen
    requires f.s.reqs == e.s.reqs[id := v] && f.s.kv == e.s.kv && f.pending == e.pending && f.seen == e.seen[id := v]
    ensures PendingOk(f) && forall x :: x in f.s.reqs ==> RequestOk(c, f, x) && x in f.seen
  {
    forall x | x in f.s.reqs ensures RequestOk(c, f, x) && x in f.seen {
      if x != id {
        assert RequestOk(c, e, x);
      } else {
        assert v.prompt + v.output == v.prompt;
      }
    }
  }

  lemma NewLoads(c: Config, s: State, t: State, id: Id, v: View)
    requires LoadsOk(c, s) && PrevOk(s) && id !in s.reqs && NewRequest(c, v)
    requires t.reqs == s.reqs[id := v] && t.recvFailed == s.recvFailed && t.prev == s.prev
    ensures LoadsOk(c, t) && PrevOk(t)
  {
  }

  lemma AddKeepsInv(c: Config, e: Engine, id: Id, v: View, late: set<Id>)
    requires EngineInv(c, e) && Legal(c, e, Event.Add(id, v, late))
    ensures EngineInv(c, Next(c, e, Event.Add(id, v, late)))
  {
    InvParts(c, e);
    if id in e.s.reqs {
      var w := e.s.reqs[id];
      if w.status != WaitingForStreamingReq {
        QueueChunk(c, e, id, UpdateOf(v));
      } else if v.resumable {
        NextChunkArrives(c, e, id, UpdateOf(v).value);
      } else {
        FinishKeepsInv(c, e, {id}, FinishedAborted, late);
      }
      hide EngineInv, FinishRequests, Session;
    } else {
      NewArrives(c, e, id, v);
      hide EngineInv, Enqueue;
    }
  }

  // --------------------------------------------------------------------------- drafts

  lemma DraftedRequest(c: Config, e: Engine, f: Engine, id: Id, d: seq<Token>)
    requires id in e.s.reqs && RequestOk(c, e, id) && e.pending.None? && f.pending.None?
    requires id in f.s.reqs && f.s.kv == e.s.kv
    requires f.s.reqs[id] == e.s.reqs[id] || f.s.reqs[id] == WithDrafts(e.s.reqs[id], d)
    requires e.s.reqs[id].resumable ==> d == []
    ensures RequestOk(c, f, id)
  {
  }

  lemma DraftKeepsInv(c: Config, e: Engine, drafts: map<Id, seq<Token>>)
    requires EngineInv(c, e) && Legal(c, e, Event.Draft(drafts))
    ensures EngineInv(c, Next(c, e, Event.Draft(drafts)))
  {
    InvParts(c, e);
    var f := e.(s := UpdateDrafts(e.s, drafts));
    DraftViews(e.s, drafts);
    assert e.pending.None? && forall id :: id in drafts && id in e.s.reqs && e.s.reqs[id].resumable ==> drafts[id] == [];
    hide EngineInv, UpdateDrafts, Partition, RequestOk, WithDrafts;
    forall id | id in f.s.reqs ensures RequestOk(c, f, id) && id in f.seen {
      DraftedRequest(c, e, f, id, if id in drafts then drafts[id] else []);
    }
    DraftLoads(c, e.s, f.s);
    PartitionByStatus(e.s, f.s);
    Whole(c, f);
  }

  lemma DraftViews(s: State, drafts: map<Id, seq<Token>>)
    ensures var t := UpdateDrafts(s, drafts);
            && OnlyDrafts(s, t)
            && SameStatuses(s, t)
            && (forall id :: id in s.reqs ==>
                  t.reqs[id] == if id in drafts then WithDrafts(s.reqs[id], drafts[id]) else s.reqs[id])
  {
  }

  lemma DraftLoads(c: Config, s: State, t: State)
    requires LoadsOk(c, s) && PrevOk(s) && OnlyDrafts(s, t)
    ensures LoadsOk(c, t) && PrevOk(t)
  {
    forall id | id in t.prev && id in t.reqs ensures NotResumable(t.reqs[id]) {
      assert NotResumable(s.reqs[id]);
    }
  }

  // ----------------------------------------------------------------------------- reset

  /** What holds while the running requests are preempted one after the other. */
  ghost predicate Resetting(c: Config, s: State, t: State) {
    && Partition(t, []) && AllReady(c, t) && AllKv(t) && LoadsOk(c, t)
    && t.reqs.Keys == s.reqs.Keys && |t.running| <= |s.running|
  }

  lemma ResetOne(c: Config, s: State, t: State)
    requires Resetting(c, s, t) && t.running != []
    ensures var n := |t.running| - 1;
      Resetting(c, s, Preempt(t.(running := t.running[..n]), t.running[n]))
  {
    var n := |t.running| - 1;
    var id := t.running[n];
    var u := Preempt(t.(running := t.running[..n]), id);
    assert RemoveAt(t.running, n) == t.running[..n];
    RunningKnown(t, id);
    PreemptKeeps(t, n, []);
    hide Partition, KvReady;
    assert Ready(c, t.reqs[id]);
    OthersKeepKv(t, u, id);
    ResetLoads(c, t, u, id);
  }

  lemma OthersKeepKv(s: State, t: State, id: Id)
    requires AllKv(s) && id in s.reqs && t.reqs == s.reqs[id := At(t, id)] && t.kv == s.kv - {id}
    requires At(t, id).computed == 0 && At(t, id).status == Preempted
    ensures AllKv(t)
  {
    forall x | x in t.reqs ensures KvReady(t, x) {
      assert KvReady(s, x);
    }
  }

  lemma ResetLoads(c: Config, s: State, t: State, id: Id)
    requires AllReady(c, s) && LoadsOk(c, s) && id in s.reqs && s.reqs[id].status == Running
    requires t.reqs == s.reqs[id := At(t, id)] && t.recvFailed == s.recvFailed
    requires At(t, id).status == Preempted && Ready(c, At(t, id))
    ensures AllReady(c, t) && LoadsOk(c, t)
  {
    hide Ready;
  }

  lemma {:induction false} PreemptAllOk(c: Config, s: State, t: State)
    requires Resetting(c, s, t)
    ensures Resetting(c, s, PreemptAll(t))
    decreases |t.running|
  {
    if t.running != [] {
      ResetOne(c, s, t);
      var n := |t.running| - 1;
      hide Resetting, Preempt;
      var u := Preempt(t.(running := t.running[..n]), t.running[n]);
      PreemptShortens(t);
      PreemptAllOk(c, s, u);
    }
  }

  lemma PreemptShortens(t: State)
    requires t.running != []
    ensures var n := |t.running| - 1;
      |Preempt(t.(running := t.running[..n]), t.running[n]).running| == n
  {
  }

  lemma ResetKeepsInv(c: Config, e: Engine, running: bool)
    requires EngineInv(c, e) && Legal(c, e, Event.Reset(running))
    ensures EngineInv(c, Next(c, e, Event.Reset(running)))
  {
    if running {
      AtRest(c, e);
      InvParts(c, e);
      RestParts(c, e.s);
      hide EngineInv, PreemptAll, Rest;
      PreemptAllOk(c, e.s, e.s);
      ResetDone(c, e, PreemptAll(e.s));
    }
  }

  lemma ResetDone(c: Config, e: Engine, t: State)
    requires EngineInv(c, e) && e.pending.None? && Resetting(c, e.s, t)
    ensures EngineInv(c, e.(s := t.(prev := {})))
  {
    InvParts(c, e);
    var f := e.(s := t.(prev := {}));
    forall id | id in f.s.reqs ensures RequestOk(c, f, id) && id in f.seen {
      assert id in e.s.reqs.Keys;
      assert Ready(c, t.reqs[id]) && KvReady(t, id);
    }
    hide EngineInv, RequestOk, Ready, KvReady;
    SamePartition(t, f.s, []);
    hide Partition;
    assert LoadsOk(c, t);
    Whole(c, f);
  }

  // ------------------------------------------------------------------------- the rest

  lemma PauseKeepsInv(c: Config, e: Engine, pause: Pause)
    requires EngineInv(c, e)
    ensures EngineInv(c, e.(s := e.s.(pause := pause)))
  {
    InvParts(c, e);
    var f := e.(s := e.s.(pause := pause));
    forall id | id in f.s.reqs ensures RequestOk(c, f, id) && id in f.seen {
      assert RequestOk(c, e, id);
    }
    hide EngineInv, RequestOk;
    SamePartition(e.s, f.s, []);
    hide Partition;
    Whole(c, f);
  }
}
