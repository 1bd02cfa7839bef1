/**
 * The scheduler object in a synchronous run: whatever happens next, the method
 * that the engine calls may be called, and leaves the object in the state that
 * the run has next. So all that is proved of runs holds of the object.
 */
module EngineMethod {
  import opened Seqs
  import opened SchedulerSpec
  import opened QueuePartition
  import opened Engine
  import opened Interventions
  import opened ReportStep
  import opened RequestObject
  import opened SchedulerObject
  import ScheduleMethod
  import UpdateMethod

  /** In a reachable state every queued object is known, and in its queue once. */
  lemma QueuesClosed(sched: Scheduler)
    requires sched.Valid() && Partition(sched.Model(), [])
    ensures sched.Closed(sched.running) && sched.Closed(sched.waiting) && sched.Closed(sched.skipped)
    ensures ScheduleMethod.Ready(sched, [])
    ensures NoDup(Ids(sched.running)) && NoDup(Ids(sched.skipped))
  {
    hide Partition, Request.Value;
    var s := sched.Model();
    sched.ModelQueues();
    sched.ModelKeys();
    RunningNoDup(s, []);
    Recovering.SkippedNoDup(s);
    QueueClosed(sched, sched.running);
    QueueClosed(sched, sched.waiting);
    QueueClosed(sched, sched.skipped);
  }

  lemma QueueClosed(sched: Scheduler, q: seq<Request>)
    requires Partition(sched.Model(), [])
    requires q == sched.running || q == sched.waiting || q == sched.skipped
    ensures sched.Closed(q)
  {
    hide Partition, Request.Value;
    sched.ModelQueues();
    sched.ModelKeys();
    forall i | 0 <= i < |q| ensures q[i].id in sched.requests {
      assert q[i].id == Ids(q)[i];
      Member(sched.Model(), [], q[i].id);
    }
  }

  lemma LegalPending(c: Config, e: Engine, ev: Event)
    requires Legal(c, e, ev)
    ensures (ev.Step? || ev.Draft? ==> e.pending.None?) && (ev.Report? ==> e.pending.Some?)
  {
  }

  lemma NextIs(c: Config, e: Engine, ev: Event)
    requires ev.Report? ==> e.pending.Some?
    ensures var t := Next(c, e, ev);
      && t.s == (match ev
                 case Step(env) => Schedule(c, env, e.s)
                 case Report(ans) => UpdateFromOutput(c, e.s, e.pending.value, ans).s
                 case Draft(drafts) => UpdateDrafts(e.s, drafts)
                 case Add(id, v, late) => AddRequest(e.s, id, v, late)
                 case Abort(ids, st, late) => FinishRequests(e.s, ids, st, late)
                 case Reset(running) => ResetPrefixCache(e.s, running)
                 case SetPause(pause) => e.s.(pause := pause))
      && t.pending == (if ev.Step? then Some(OutputOf(SchedulePass(c, ev.env, e.s))) else if ev.Report? then None else e.pending)
      && t.log == (if ev.Report? then e.log + UpdateFromOutput(c, e.s, e.pending.value, ev.ans).msgs else e.log + [])
  {
    hide Schedule, SchedulePass, UpdateFromOutput, UpdateDrafts, AddRequest, FinishRequests, ResetPrefixCache;
  }

  /** One event of the run, carried out on the object. */
  method Perform(sched: Scheduler, pending: Option<Output>, ev: Event, ghost e: Engine)
    returns (pendingNow: Option<Output>, msgs: seq<Message>)
    requires sched.Valid() && sched.Model() == e.s && pending == e.pending
    requires EngineInv(sched.c, e) && Legal(sched.c, e, ev)
    modifies sched, sched.requests.Values
    ensures sched.Valid() && EngineInv(sched.c, Next(sched.c, e, ev))
    ensures sched.Model() == Next(sched.c, e, ev).s && pendingNow == Next(sched.c, e, ev).pending
    ensures Next(sched.c, e, ev).log == e.log + msgs
  {
    hide EngineInv, Legal, Next, Partition, Ids, NoDup, Request.Value, Scheduler.Model, Scheduler.Values, Scheduler.Linked,
         Scheduler.Closed, Scheduler.Valid, Schedule, SchedulePass, UpdateFromOutput, UpdateDrafts, AddRequest, FinishRequests,
         ResetPrefixCache;
    NextKeepsInv(sched.c, e, ev);
    LegalPending(sched.c, e, ev);
    NextIs(sched.c, e, ev);
    InvQueues(sched.c, e);
    QueuesClosed(sched);
    pendingNow, msgs := pending, [];
    match ev {
      case Step(env) =>
        var out := ScheduleMethod.Schedule(sched, env);
        pendingNow := Some(out);
      case Report(ans) =>
        msgs := UpdateMethod.UpdateFromOutput(sched, pending.value, ans);
        pendingNow := None;
      case Draft(drafts) => sched.UpdateDraftTokenIds(drafts);
      case Add(id, v, late) =>
        var r := new Request(id, v);
        sched.AddRequest(r, late);
      case Abort(ids, st, late) => sched.FinishRequests(ids, st, late);
      case Reset(running) => sched.ResetPrefixCache(running);
      case SetPause(pause) => sched.SetPauseState(pause);
    }
  }
}
