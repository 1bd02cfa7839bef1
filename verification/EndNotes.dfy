/** Each request that ends is told to the worker once, with the next step (`finished_req_ids`). */
module EndNotes {
  import opened Seqs
  import opened Requests
  import opened SchedulerSpec
  import opened QueuePartition
  import opened Frames
  import opened Accounting
  import opened ScheduleStep
  import opened Engine
  import opened EngineStep
  import opened Receiving
  import opened Reporting
  import opened Finishing
  import opened Interventions
  import opened ReportStep

  /** Whoever ends on the way from `s` to `t` is noted, and nobody else. */
  ghost predicate Noted(s: State, t: State) {
    && Unfinished(t) <= Unfinished(s)
    && t.finishedIds == s.finishedIds + (Unfinished(s) - Unfinished(t))
  }

  lemma NotedTwice(s: State, t: State, u: State)
    requires Noted(s, t) && Noted(t, u)
    ensures Noted(s, u)
  {
  }

  lemma FinishNotes(s: State, ids: set<Id>, st: Status, delay: set<Id>)
    requires IsFinished(st)
    ensures Noted(s, FinishRequests(s, ids, st, delay))
  {
    FinishViews(s, ids, st, delay);
    assert FinishRequests(s, ids, st, delay).finishedIds == s.finishedIds + Finishable(s, ids);
    assert Finishable(s, ids) <= Unfinished(s);
    hide FinishRequests, DelayedFree, Finishable;
  }

  lemma RecoveryNotes(c: Config, s: State, num: map<Id, int>, ans: Answer)
    ensures Noted(s, HandleInvalid(c, s, num, ans).s)
  {
    hide AsyncLoading, ItemsFor;
    assert Unfinished(HandleInvalid(c, s, num, ans).s) == Unfinished(s);
  }

  lemma OneNoted(s: State, t: State, id: Id)
    requires SameBut(s, t, id) && id in s.reqs && !IsFinished(s.reqs[id].status)
    requires t.finishedIds == s.finishedIds + (if id in t.reqs && !IsFinished(t.reqs[id].status) then {} else {id})
    ensures Noted(s, t)
  {
    assert Unfinished(s) - {id} == Unfinished(t) - {id};
  }

  /** `_handle_stopped_request` says that a request has finished iff it has. */
  lemma HandledNotes(s: State, id: Id)
    requires id in s.reqs && IsFinished(s.reqs[id].status)
    ensures var h := HandleStopped(s, id);
      && h.s.finishedIds == s.finishedIds && id in h.s.reqs && (h.finished <==> IsFinished(h.s.reqs[id].status))
  {
  }

  lemma UpdateOneNotes(c: Config, out: Output, ans: Answer, failed: set<Id>, a: Acc, id: Id)
    requires id !in failed && id in a.s.reqs && !IsFinished(a.s.reqs[id].status)
    ensures Noted(a.s, UpdateOne(c, out, ans, failed, a, id).s)
  {
    var r := Receive(c, a.s.reqs[id], Drafts(out.specs, id), TokensFor(ans, id), id in ans.rejected);
    var b := UpdateOne(c, out, ans, failed, a, id);
    ReceiveShape(c, a.s.reqs[id], Drafts(out.specs, id), TokensFor(ans, id), id in ans.rejected);
    UpdateOneOthers(c, out, ans, failed, a, id);
    if r.stopped {
      HandledNotes(Put(a.s, id, r.v), id);
    }
    hide Receive, HandleStopped, Drafts, TokensFor, ReasonOf, SameBut, Noted, Unfinished;
    OneNoted(a.s, b.s, id);
  }

  lemma {:induction false} UpdateAllNotes(c: Config, out: Output, ans: Answer, failed: set<Id>, a: Acc, ids: seq<Id>)
    ensures Noted(a.s, UpdateAll(c, out, ans, failed, a, ids).s)
  {
    hide UpdateOne, Noted;
    if ids == [] {
      SameNotes(a.s, a.s);
    } else {
      var n := |ids| - 1;
      UpdateAllNotes(c, out, ans, failed, a, ids[..n]);
      var b := UpdateAll(c, out, ans, failed, a, ids[..n]);
      if ids[n] in failed || ids[n] !in b.s.reqs || IsFinished(b.s.reqs[ids[n]].status) {
        UpdateOneNothing(c, out, ans, failed, b, ids[n]);
      } else {
        UpdateOneNotes(c, out, ans, failed, b, ids[n]);
        NotedTwice(a.s, b.s, UpdateOne(c, out, ans, failed, b, ids[n]).s);
      }
    }
  }

  lemma SameNotes(s: State, t: State)
    requires Unfinished(t) == Unfinished(s) && t.finishedIds == s.finishedIds
    ensures Noted(s, t)
  {
  }

  lemma LoopNotes(c: Config, s: State, out: Output, ans: Answer)
    ensures Noted(s, Settled(Loop(c, s, out, ans)))
  {
    hide HandleInvalid, UpdateAll, Noted, Without;
    var r := HandleInvalid(c, s, out.num, ans);
    var a := Loop(c, s, out, ans);
    RecoveryNotes(c, s, out.num, ans);
    UpdateAllNotes(c, out, ans, r.failed, Acc(r.s, {}, {}, []), out.order);
    NotedTwice(s, r.s, a.s);
    assert Unfinished(Settled(a)) == Unfinished(a.s);
    SameNotes(a.s, Settled(a));
    NotedTwice(s, a.s, Settled(a));
  }

  lemma ReportNotes(c: Config, e: Engine, ans: Answer)
    requires EngineInv(c, e) && Legal(c, e, Event.Report(ans))
    ensures Noted(e.s, Next(c, e, Event.Report(ans)).s)
  {
    hide EngineInv, Legal, Noted, AfterFail, Loop, Settled, FailedNow, FinishRequests, TransfersFinished, Next;
    ReportStages(c, e, ans);
    var out := e.pending.value;
    var t, u, failed := Settled(Loop(c, e.s, out, ans)), AfterFail(c, e.s, out, ans), FailedNow(c, e.s, out, ans);
    AfterFailIs(c, e.s, out, ans);
    LoopNotes(c, e.s, out, ans);
    if failed != {} {
      FinishNotes(t, failed, FinishedError, ans.delay);
      NotedTwice(e.s, t, u);
    }
    TransfersView(u, ans.recv, ans.send);
    SameNotes(u, TransfersFinished(u, ans.recv, ans.send));
    NotedTwice(e.s, u, TransfersFinished(u, ans.recv, ans.send));
  }

  lemma FramedNotes(c: Config, s: State, t: State)
    requires Framed(c, s, t)
    ensures Unfinished(t) == Unfinished(s) && t.finishedIds == s.finishedIds
  {
    forall id | id in s.reqs ensures IsFinished(t.reqs[id].status) <==> IsFinished(s.reqs[id].status) {
      assert Touched(c, s.reqs[id], t.reqs[id]);
    }
  }

  /** A step takes the notes along and starts anew. */
  lemma StepNotes(c: Config, e: Engine, env: Env)
    requires EngineInv(c, e) && Legal(c, e, Event.Step(env))
    ensures var t := Next(c, e, Event.Step(env)).s;
            && OutputOf(SchedulePass(c, env, e.s)).finishedIds == e.s.finishedIds
            && t.finishedIds == {} && Unfinished(t) == Unfinished(e.s)
  {
    AtRest(c, e);
    StepParts(c, e, env);
    StepNext(c, e, env);
    var p := SchedulePass(c, env, e.s);
    hide SchedulePass, Next, EngineInv, Legal, Rest, EnvOk, PassOk, Unfinished;
    SchedulePassOk(c, env, e.s);
    PassOkParts(c, e.s, p);
    FramedNotes(c, e.s, p.s);
    AdvancedNotes(p);
  }

  lemma AdvancedNotes(p: Pass)
    ensures var t := AfterSchedule(p.s, p.order, p.num, p.specs); Unfinished(t) == Unfinished(p.s) && t.finishedIds == {}
  {
    hide WriteKv;
  }

  lemma {:induction false} ResetNotes(s: State)
    requires Partition(s, [])
    ensures Unfinished(PreemptAll(s)) == Unfinished(s) && PreemptAll(s).finishedIds == s.finishedIds
    decreases |s.running|
  {
    if s.running != [] {
      var n := |s.running| - 1;
      var x := s.running[n];
      assert RemoveAt(s.running, n) == s.running[..n];
      RunningKnown(s, x);
      PreemptKeeps(s, n, []);
      PreemptShortens(s);
      var t := Preempt(s.(running := s.running[..n]), x);
      hide Partition;
      assert Unfinished(t) == Unfinished(s);
      hide Preempt, Unfinished;
      ResetNotes(t);
    }
  }

  lemma AddNotes(c: Config, e: Engine, id: Id, v: View, late: set<Id>)
    requires EngineInv(c, e) && Legal(c, e, Event.Add(id, v, late))
    ensures var t := AddRequest(e.s, id, v, late);
      if id in e.s.reqs then Noted(e.s, t)
      else id !in e.seen && Unfinished(t) == Unfinished(e.s) + {id} && t.finishedIds == e.s.finishedIds
  {
    hide EngineInv, FinishRequests, Noted, Unfinished, Enqueue;
    if id in e.s.reqs {
      ChunkNotes(e.s, id, v, late);
    } else {
      NewNotes(e.s, id, v);
    }
  }

  lemma ChunkNotes(s: State, id: Id, v: View, late: set<Id>)
    requires id in s.reqs && !IsFinished(s.reqs[id].status)
    ensures Noted(s, AddRequest(s, id, v, late))
  {
    FinishNotes(s, {id}, FinishedAborted, late);
    hide FinishRequests, Noted, Unfinished;
    if s.reqs[id].status != WaitingForStreamingReq || v.resumable {
      OneNoted(s, AddRequest(s, id, v, late), id);
    }
  }

  lemma NewNotes(s: State, id: Id, v: View)
    requires !IsFinished(v.status)
    ensures var t := Enqueue(Put(s, id, v), id); Unfinished(t) == Unfinished(s) + {id} && t.finishedIds == s.finishedIds
  {
  }

  /** Each event but a step notes those that it ends. */
  lemma NextNotes(c: Config, e: Engine, ev: Event)
    requires EngineInv(c, e) && Legal(c, e, ev) && !ev.Step?
    ensures var f := Next(c, e, ev);
      && f.s.finishedIds == e.s.finishedIds + (Unfinished(e.s) - Unfinished(f.s))
      && (if ev.Add? && ev.id !in e.s.reqs
          then ev.id !in e.seen && f.seen.Keys == e.seen.Keys + {ev.id} && Unfinished(f.s) == Unfinished(e.s) + {ev.id}
          else f.seen == e.seen && Unfinished(f.s) <= Unfinished(e.s))
  {
    hide Unfinished;
    match ev {
      case Report(ans) =>
        ReportNotes(c, e, ans);
        hide EngineInv, Legal, UpdateFromOutput;
      case Draft(drafts) =>
        DraftNotes(e.s, drafts);
        hide EngineInv, Legal, UpdateDrafts;
      case Add(id, v, late) =>
        AddNotes(c, e, id, v, late);
        hide EngineInv, Legal, AddRequest;
      case Abort(ids, st, late) =>
        FinishNotes(e.s, ids, st, late);
        hide EngineInv, FinishRequests;
      case Reset(running) =>
        InvParts(c, e);
        ResetNotes(e.s);
        hide PreemptAll, EngineInv;
        PauseNotes(PreemptAll(e.s), PreemptAll(e.s).(prev := {}));
      case SetPause(pause) =>
        hide EngineInv;
        PauseNotes(e.s, e.s.(pause := pause));
    }
  }

  lemma DraftNotes(s: State, drafts: map<Id, seq<Token>>)
    ensures Noted(s, UpdateDrafts(s, drafts))
  {
    assert Unfinished(UpdateDrafts(s, drafts)) == Unfinished(s);
  }

  lemma PauseNotes(s: State, t: State)
    requires t.reqs == s.reqs
    ensures Unfinished(t) == Unfinished(s)
  {
  }

  // ---------------------------------------------------------------------------- whole runs

  /** The ids that the steps of a run told the worker to forget. */
  function ToldGone(c: Config, run: seq<Event>): set<Id> {
    if run == [] then {}
    else
      var front := run[..|run| - 1];
      ToldGone(c, front) +
        match run[|run| - 1]
        case Step(env) => OutputOf(SchedulePass(c, env, After(c, INITIAL, front).s)).finishedIds
        case _ => {}
  }

  lemma NotesFollow(told: set<Id>, before: set<Id>, seen: set<Id>, open: set<Id>, after: set<Id>, still: set<Id>, came: set<Id>)
    requires told + before == seen - open && told !! before && open <= seen && came !! seen
    requires after == before + (open - still) && ((still <= open && came == {}) || still == open + came)
    ensures told + after == seen + came - still && told !! after
  {
  }

  lemma NoteStep(c: Config, e: Engine, ev: Event, told: set<Id>)
    requires EngineInv(c, e) && Legal(c, e, ev)
    requires told + e.s.finishedIds == e.seen.Keys - Unfinished(e.s) && told !! e.s.finishedIds
    ensures var f := Next(c, e, ev);
            var more := told + match ev case Step(env) => OutputOf(SchedulePass(c, env, e.s)).finishedIds case _ => {};
            && more + f.s.finishedIds == f.seen.Keys - Unfinished(f.s) && more !! f.s.finishedIds
  {
    InvParts(c, e);
    assert Unfinished(e.s) <= e.seen.Keys;
    hide EngineInv, Legal, Unfinished, Partition, RequestOk;
    if ev.Step? {
      StepNotes(c, e, ev.env);
      hide SchedulePass, Schedule;
    } else {
      NextNotes(c, e, ev);
      var f := Next(c, e, ev);
      hide Next;
      NotesFollow(told, e.s.finishedIds, e.seen.Keys, Unfinished(e.s), f.s.finishedIds, Unfinished(f.s),
                  if ev.Add? && ev.id !in e.s.reqs then {ev.id} else {});
    }
  }

  /**
   * After every run, the requests that have ended are those that some step told
   * the worker and those that the next step will tell; none is told twice.
   */
  lemma {:induction false} EveryEndIsToldOnce(c: Config, run: seq<Event>)
    requires LegalRun(c, INITIAL, run)
    ensures var e, told := After(c, INITIAL, run), ToldGone(c, run);
      told + e.s.finishedIds == e.seen.Keys - Unfinished(e.s) && told !! e.s.finishedIds
    ensures forall env :: Legal(c, After(c, INITIAL, run), Event.Step(env)) ==>
      OutputOf(SchedulePass(c, env, After(c, INITIAL, run).s)).finishedIds == After(c, INITIAL, run).s.finishedIds
  {
    InitialInv(c);
    hide EngineInv, Legal, Next, SchedulePass, Unfinished;
    RunKeepsInv(c, INITIAL, run);
    forall env | Legal(c, After(c, INITIAL, run), Event.Step(env))
      ensures OutputOf(SchedulePass(c, env, After(c, INITIAL, run).s)).finishedIds == After(c, INITIAL, run).s.finishedIds
    {
      StepNotes(c, After(c, INITIAL, run), env);
    }
    if run != [] {
      var front := run[..|run| - 1];
      EveryEndIsToldOnce(c, front);
      RunKeepsInv(c, INITIAL, front);
      NoteStep(c, After(c, INITIAL, front), run[|run| - 1], ToldGone(c, front));
    } else {
      NobodyYet();
    }
  }

  lemma NobodyYet()
    ensures Unfinished(EMPTY) == {}
  {
  }
}
