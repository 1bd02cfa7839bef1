/** `Scheduler.schedule`, in place: two loops over the queues that preempt, schedule and admit. */
module ScheduleMethod {
  import opened Seqs
  import opened Requests
  import opened SchedulerSpec
  import opened Urgency
  import opened RequestObject
  import opened SchedulerObject

  /** The local variables of `schedule`. */
  datatype Locals = Locals(
    idx: int, budget: int, encBudget: int, order: seq<Id>, num: map<Id, int>, specs: map<Id, seq<Token>>,
    encs: map<Id, int>, preempted: seq<Id>, loras: set<nat>, newly: seq<Id>, resumed: seq<Id>, stop: bool, invalid: bool)

  ghost function PassOf(s: State, l: Locals, stepSkipped: seq<Id>): Pass {
    Pass(s, l.idx, l.budget, l.encBudget, l.order, l.num, l.specs, l.encs, l.preempted, l.loras, l.newly, l.resumed,
         stepSkipped, l.stop, l.invalid)
  }

  // -------------------------------------------------------------------------- preemption

  lemma {:induction false} LeastUrgentOfOne(s: State, q: seq<Id>)
    requires |q| == 1
    ensures LeastUrgent(s, q) == 0
  {
  }

  lemma {:induction false} LeastUrgentOfMore(s: State, q: seq<Id>, n: nat)
    requires 1 <= n < |q|
    ensures var k := LeastUrgent(s, q[..n]);
      LeastUrgent(s, q[..n + 1]) == if MoreUrgent(At(s, q[k]), At(s, q[n])) then n else k
  {
    assert q[..n + 1][..n] == q[..n];
  }

  /** `max(running, key=(priority, arrival_time))`: the first of the least urgent. */
  method LeastUrgentRunning(sched: Scheduler) returns (k: nat)
    requires sched.Valid() && sched.Closed(sched.running) && sched.running != []
    ensures k == LeastUrgent(sched.Model(), sched.Model().running)
    ensures FirstLeastUrgent(sched.Model(), sched.Model().running, k)
  {
    hide LeastUrgent, FirstLeastUrgent;
    ghost var s := sched.Model();
    ghost var ids := Ids(sched.running);
    sched.ModelOfAll();
    LeastUrgentOfOne(s, ids[..1]);
    k := 0;
    var n := 1;
    while n < |sched.running|
      invariant 1 <= n <= |sched.running| && k < n && k == LeastUrgent(s, ids[..n])
    {
      LeastUrgentOfMore(s, ids, n);
      var a, b := sched.running[k], sched.running[n];
      if a.priority < b.priority || (a.priority == b.priority && a.arrival < b.arrival) {
        k := n;
      }
      n := n + 1;
    }
    assert ids[..n] == ids;
    FirstLeastUrgentIff(s, ids, k);
  }

  method Victim(sched: Scheduler) returns (k: nat)
    requires sched.Valid() && sched.Closed(sched.running) && sched.running != []
    ensures k == VictimIndex(sched.c, sched.Model()) && k < |sched.running|
  {
    if sched.c.priority {
      k := LeastUrgentRunning(sched);
    } else {
      k := |sched.running| - 1;
    }
  }

  /** Take back what this step had already scheduled for the victim. */
  method TakeBack(l: Locals, id: Id, ghost s: State) returns (r: Locals)
    ensures PassOf(s, r, []) == Unschedule(PassOf(s, l, []), id)
  {
    r := l.(order := Remove(l.order, id));
    if id in l.num {
      r := r.(budget := r.budget + l.num[id], num := r.num - {id});
    } else {
      assert l.num - {id} == l.num;
    }
    r := r.(specs := r.specs - {id});
    if id in l.encs {
      r := r.(encBudget := r.encBudget + l.encs[id], encs := r.encs - {id});
    } else {
      assert l.encs - {id} == l.encs;
    }
    r := r.(idx := r.idx - 1);
  }

  lemma PreemptedIs(c: Config, s: State, l: Locals, r: Locals, k: nat)
    requires s.running != [] && k == VictimIndex(c, s) && k < |s.running|
    requires PassOf(s, r, []) == if c.priority && s.running[k] in l.order
                                 then Unschedule(PassOf(s, l, []), s.running[k]) else PassOf(s, l, [])
    ensures var id := s.running[k];
      PassOf(Preempt(s.(running := RemoveAt(s.running, k)), id), r.(preempted := r.preempted + [id]), [])
        == PreemptVictim(c, PassOf(s, l, []))
  {
    hide VictimIndex, Preempt, Unschedule;
  }

  method PreemptOne(sched: Scheduler, l: Locals) returns (r: Locals, victim: Request)
    requires Ready(sched, []) && sched.running != []
    modifies sched`running, sched`kv, sched`waiting, sched.requests.Values
    ensures Ready(sched, [])
    ensures var p := PassOf(old(sched.Model()), l, []);
            && PassOf(sched.Model(), r, []) == PreemptVictim(sched.c, p)
            && victim.id == p.s.running[VictimIndex(sched.c, p.s)]
    ensures |sched.running| == |old(sched.running)| - 1
  {
    hide Ids, Scheduler.Linked, Request.Value, Scheduler.Model, Scheduler.Values, VictimIndex, Preempt, Unschedule, PreemptVictim,
         RemoveAt;
    sched.ModelQueues();
    ghost var s := sched.Model();
    var k := Victim(sched);
    victim := sched.running[k];
    r := l;
    if sched.c.priority && victim.id in l.order {
      r := TakeBack(l, victim.id, s);
    }
    sched.RemoveRunning(k);
    sched.PreemptRequest(victim);
    PreemptedIs(sched.c, s, l, r, k);
    r := r.(preempted := r.preempted + [victim.id]);
  }

  lemma {:induction false} MakeRoomOnce(c: Config, env: Env, p: Pass, id: Id, tokens: int)
    ensures SlotAsk(p.s.kv.Keys, id, tokens) !in env.refused ==> MakeRoom(c, env, p, id, tokens) == SchedulerSpec.Room(p, true)
    ensures SlotAsk(p.s.kv.Keys, id, tokens) in env.refused && p.s.running == [] ==>
      MakeRoom(c, env, p, id, tokens) == SchedulerSpec.Room(p, false)
    ensures SlotAsk(p.s.kv.Keys, id, tokens) in env.refused && p.s.running != [] ==>
      MakeRoom(c, env, p, id, tokens)
        == if p.s.running[VictimIndex(c, p.s)] == id then SchedulerSpec.Room(PreemptVictim(c, p), false)
           else MakeRoom(c, env, PreemptVictim(c, p), id, tokens)
  {
  }

  /** Allocate slots for `r`, preempting until it works or `r` itself is preempted. */
  method MakeRoomFor(sched: Scheduler, env: Env, r: Request, tokens: int, l0: Locals) returns (l: Locals, ok: bool)
    requires Ready(sched, [])
    modifies sched`running, sched`kv, sched`waiting, sched.requests.Values
    ensures Ready(sched, [])
    ensures SchedulerSpec.Room(PassOf(sched.Model(), l, []), ok)
         == MakeRoom(sched.c, env, PassOf(old(sched.Model()), l0, []), r.id, tokens)
  {
    hide Ids, Scheduler.Linked, Scheduler.Closed, Request.Value, Scheduler.Model, Scheduler.Values, VictimIndex, PreemptVictim,
         MakeRoom;
    ghost var p0 := PassOf(sched.Model(), l0, []);
    l, ok := l0, false;
    var looking := true;
    while looking
      invariant Ready(sched, [])
      invariant looking ==> !ok
      invariant looking ==>
        MakeRoom(sched.c, env, PassOf(sched.Model(), l, []), r.id, tokens) == MakeRoom(sched.c, env, p0, r.id, tokens)
      invariant !looking ==>
        SchedulerSpec.Room(PassOf(sched.Model(), l, []), ok) == MakeRoom(sched.c, env, p0, r.id, tokens)
      decreases looking, |sched.running|
    {
      sched.ModelQueues();
      sched.ModelHolders();
      MakeRoomOnce(sched.c, env, PassOf(sched.Model(), l, []), r.id, tokens);
      if SlotAsk(sched.kv.Keys, r.id, tokens) !in env.refused {
        ok, looking := true, false;
      } else if sched.running == [] {
        assert sched.Model().running == [];
        looking := false;
      } else {
        var victim: Request;
        l, victim := PreemptOne(sched, l);
        if victim.id == r.id {
          looking := false;
        }
      }
    }
  }

  // ---------------------------------------------------------------------- the first loop

  /** How many tokens to give a running request, and which encoder budget is left then. */
  method PlanRunning(sched: Scheduler, env: Env, r: Request, l: Locals) returns (plan: EncoderPlan)
    requires sched.Knows(r)
    ensures plan == RunningPlan(sched.c, env, PassOf(sched.Model(), l, []), r.id)
  {
    hide RunningWant, EncoderFor, Aligned, Request.Value, Scheduler.Model, At;
    sched.ModelAt(r);
    r.ComputedIs();
    var n := r.WantRunning(sched.c, l.budget);
    plan := r.PlanEncoder(env, r.computed, n, l.encBudget);
    var aligned := r.AlignedTo(sched.c, r.computed, plan.n);
    plan := plan.(n := aligned);
  }

  /** "Schedule the request". */
  method Enter(sched: Scheduler, r: Request, plan: EncoderPlan, l0: Locals) returns (l: Locals)
    requires sched.Valid() && sched.Knows(r)
    modifies r
    ensures sched.Valid()
    ensures PassOf(sched.Model(), l, []) == ScheduleRunning(PassOf(old(sched.Model()), l0, []), r.id, plan)
  {
    hide Ids, Scheduler.Linked, Request.Value, Scheduler.Model, Scheduler.Values, DraftsFor;
    sched.ModelAt(r);
    l := l0.(order := l0.order + [r.id], num := l0.num[r.id := plan.n], budget := l0.budget - plan.n, idx := l0.idx + 1);
    var drafts := r.TakeDrafts(plan.n);
    sched.PutAfter(r);
    if drafts != [] {
      l := l.(specs := l.specs[r.id := drafts]);
    }
    if plan.embeds != [] {
      l := l.(encs := l.encs[r.id := Total(plan.embeds)], encBudget := plan.budget);
    }
  }

  lemma {:induction false} StepIs(c: Config, env: Env, p: Pass)
    requires !RunningDone(p)
    ensures var id := p.s.running[p.idx];
            var plan := RunningPlan(c, env, p, id);
            RunningStep(c, env, p) ==
              if plan.n == 0 then p.(idx := p.idx + 1)
              else
                var room := MakeRoom(c, env, p, id, At(p.s, id).computed + plan.n + c.lookahead);
                if room.ok then ScheduleRunning(room.p, id, plan) else room.p.(stop := true)
  {
    hide MakeRoom, RunningPlan, ScheduleRunning, At;
  }

  /** The body of the first loop. */
  method RunningIteration(sched: Scheduler, env: Env, l0: Locals) returns (l: Locals)
    requires Ready(sched, []) && !RunningDone(PassOf(sched.Model(), l0, []))
    modifies sched`running, sched`kv, sched`waiting, sched.requests.Values
    ensures Ready(sched, [])
    ensures PassOf(sched.Model(), l, []) == RunningStep(sched.c, env, PassOf(old(sched.Model()), l0, []))
  {
    hide Ids, Scheduler.Linked, Scheduler.Closed, Request.Value, Scheduler.Model, Scheduler.Values, MakeRoom, RunningPlan,
         ScheduleRunning, RunningStep, At;
    sched.ModelQueues();
    StepIs(sched.c, env, PassOf(sched.Model(), l0, []));
    sched.RunningAt(l0.idx);
    var r := sched.running[l0.idx];
    sched.ModelAt(r);
    var plan := PlanRunning(sched, env, r, l0);
    if plan.n == 0 {
      return l0.(idx := l0.idx + 1);
    }
    r.ComputedIs();
    var ok: bool;
    l, ok := MakeRoomFor(sched, env, r, r.computed + plan.n + sched.c.lookahead, l0);
    if !ok {
      return l.(stop := true);
    }
    l := Enter(sched, r, plan, l);
  }

  method RunningRequests(sched: Scheduler, env: Env, l0: Locals) returns (l: Locals)
    requires Ready(sched, [])
    modifies sched`running, sched`kv, sched`waiting, sched.requests.Values
    ensures Ready(sched, [])
    ensures PassOf(sched.Model(), l, []) == RunningLoop(sched.c, env, PassOf(old(sched.Model()), l0, []))
  {
    hide Ids, Scheduler.Linked, Scheduler.Closed, Request.Value, Scheduler.Model, Scheduler.Values, RunningStep;
    ghost var p0 := PassOf(sched.Model(), l0, []);
    l := l0;
    sched.ModelQueues();
    while !l.stop && l.budget > 0 && 0 <= l.idx < |sched.running|
      invariant Ready(sched, []) && |sched.Model().running| == |sched.running|
      invariant RunningLoop(sched.c, env, PassOf(sched.Model(), l, [])) == RunningLoop(sched.c, env, p0)
      decreases !l.stop, |sched.running| - l.idx
    {
      ghost var p := PassOf(sched.Model(), l, []);
      RunningShorter(sched.c, env, p);
      l := RunningIteration(sched, env, l);
      sched.ModelQueues();
    }
  }

  lemma {:induction false} RunningShorter(c: Config, env: Env, p: Pass)
    requires !RunningDone(p)
    ensures var q := RunningStep(c, env, p);
            && RunningLoop(c, env, q) == RunningLoop(c, env, p)
            && !p.stop && (q.stop || |q.s.running| - q.idx < |p.s.running| - p.idx)
  {
    hide RunningPlan, MakeRoom;
  }

  // --------------------------------------------------------------------- the second loop

  /** `_try_promote_blocked_waiting_request`, for a request whose status may also need no promotion. */
  method PromoteIfBlocked(sched: Scheduler, env: Env, r: Request) returns (ok: bool)
    requires sched.Valid() && sched.Knows(r)
    modifies sched`kv, sched`recvDone, sched`recvFailed, r
    ensures sched.Valid()
    ensures var p := Promote(env, old(sched.Model()), r.id);
      ok == p.Some? && sched.Model() == if ok then p.value else old(sched.Model())
  {
    hide Ids, Scheduler.Linked, Request.Value, Scheduler.Model, Scheduler.Values;
    sched.ModelAt(r);
    sched.StatusIs(r);
    match r.status {
      case WaitingForRemoteKvs => ok := PromoteLoaded(sched, r);
      case WaitingForGrammar =>
        ok := r.id in env.grammarReady;
        if ok {
          sched.MarkWaiting(r);
        }
      case WaitingForToolCall =>
        ok := r.id in env.toolReady;
        if ok {
          sched.MarkWaiting(r);
        }
      case WaitingForStreamingReq => ok := false;
      case _ => ok := true;
    }
  }

  /** What `Promote` does to a request whose load was reported as finished. */
  function Loaded(s: State, id: Id): State {
    var v := At(s, id);
    var fixed := if id in s.recvFailed || v.computed != |v.all| then v else v.(computed := |v.all| - 1);
    var kv := if id in s.recvFailed && v.computed == 0 then s.kv - {id} else s.kv;
    Put(s, id, fixed.(status := if v.preemptions > 0 then Preempted else Waiting))
      .(kv := kv, recvDone := s.recvDone - {id}, recvFailed := s.recvFailed - {id})
  }

  /** `_update_waiting_for_remote_kv`, once the load is done. */
  method PromoteLoaded(sched: Scheduler, r: Request) returns (ok: bool)
    requires sched.Valid() && sched.Knows(r) && r.status == WaitingForRemoteKvs
    modifies sched`kv, sched`recvDone, sched`recvFailed, r
    ensures sched.Valid() && ok == (r.id in old(sched.recvDone))
    ensures old(sched.recvDone) == old(sched.Model()).recvDone && At(old(sched.Model()), r.id).status == WaitingForRemoteKvs
    ensures sched.Model() == if ok then Loaded(old(sched.Model()), r.id) else old(sched.Model())
  {
    hide Ids, Scheduler.Linked, Request.Value, Scheduler.Model, Scheduler.Values, At;
    sched.ModelAt(r);
    sched.StatusIs(r);
    sched.ModelSets();
    sched.ModelHolders();
    if r.id !in sched.recvDone {
      return false;
    }
    ghost var s := sched.Model();
    var failed, nothing := r.id in sched.recvFailed, r.computed == 0;
    r.ComputedIs();
    sched.FinishLoad(r.id, failed && nothing);
    label B:
    r.FinishLoad(failed);
    sched.PutAfter@B(r);
    return true;
  }

  lemma {:induction false} SmallestOfOne(s: State, q: seq<Id>)
    requires |q| == 1
    ensures Smallest(s, q) == 0
  {
  }

  lemma {:induction false} SmallestOfMore(s: State, q: seq<Id>, n: nat)
    requires 1 <= n < |q|
    ensures var k := Smallest(s, q[..n]);
      Smallest(s, q[..n + 1]) == if Before(s, q[n], q[k]) then n else k
  {
    assert q[..n + 1][..n] == q[..n];
  }

  /** `q[i] < q[j]`. */
  method LessOf(sched: Scheduler, q: seq<Request>, i: nat, j: nat) returns (less: bool)
    requires sched.Valid() && sched.Linked(q) && sched.Closed(q) && i < |q| && j < |q|
    ensures less == Before(sched.Model(), Ids(q)[i], Ids(q)[j])
  {
    hide Ids, Request.Value, Scheduler.Model, Scheduler.Values;
    sched.ModelOfAll();
    less := q[i].Less(q[j]);
  }

  /** Smallest request of a priority queue. */
  method SmallestOf(sched: Scheduler, q: seq<Request>) returns (k: nat)
    requires sched.Valid() && sched.Linked(q) && sched.Closed(q) && q != []
    ensures k < |q| && k == Smallest(sched.Model(), Ids(q)) && Minimum(sched.Model(), Ids(q), k)
  {
    hide Minimum, Smallest, Before, Ids, Request.Value, Scheduler.Model, Scheduler.Values;
    ghost var s := sched.Model();
    ghost var ids := Ids(q);
    sched.ModelOfAll();
    SmallestOfOne(s, ids[..1]);
    k := 0;
    var n := 1;
    while n < |q|
      invariant 1 <= n <= |q| && k < n && k == Smallest(s, ids[..n])
    {
      SmallestOfMore(s, ids, n);
      var less := LessOf(sched, q, n, k);
      if less {
        k := n;
      }
      n := n + 1;
    }
    assert ids[..n] == ids;
    SmallestIsMinimum(s, ids);
  }

  method HeadOf(sched: Scheduler, q: seq<Request>) returns (k: nat)
    requires sched.Valid() && sched.Linked(q) && sched.Closed(q) && q != []
    ensures k < |q| && k == HeadIndex(sched.c, sched.Model(), Ids(q))
  {
    k := 0;
    if sched.c.priority {
      k := SmallestOf(sched, q);
    }
  }

  /** `_select_waiting_queue_for_scheduling` and `peek_request`. */
  method PeekHead(sched: Scheduler) returns (fromSkipped: bool, k: nat)
    requires sched.Valid() && sched.Closed(sched.waiting) && sched.Closed(sched.skipped)
    requires sched.waiting != [] || sched.skipped != []
    ensures var s := sched.Model();
            && fromSkipped == UseSkipped(sched.c, s)
            && (fromSkipped ==> s.skipped != [] && k == HeadIndex(sched.c, s, s.skipped))
            && (!fromSkipped ==> s.waiting != [] && k == HeadIndex(sched.c, s, s.waiting))
    ensures k < if fromSkipped then |sched.skipped| else |sched.waiting|
    ensures Peek(sched.c, sched.Model()) == (if fromSkipped then sched.skipped[k] else sched.waiting[k]).id
  {
    hide Smallest, HeadIndex, Request.Value, Scheduler.Model, Scheduler.Values;
    sched.ModelQueues();
    sched.ModelOfAll();
    if sched.skipped == [] {
      fromSkipped := false;
      k := HeadOf(sched, sched.waiting);
      return;
    }
    k := HeadOf(sched, sched.skipped);
    fromSkipped := true;
    if sched.c.priority && sched.waiting != [] {
      var w := HeadOf(sched, sched.waiting);
      var less := sched.waiting[w].Less(sched.skipped[k]);
      if less {
        fromSkipped, k := false, w;
      }
    }
  }

  /** What the second loop decides about the head of the queue. */
  datatype Verdict = GiveUp | Skip | Load(computed: int) | Enter(computed: int, plan: EncoderPlan)

  ghost function ChoiceOf(s: State, v: Verdict): Choice {
    match v
    case GiveUp => Halt(s)
    case Skip => SkipOver(s)
    case Load(computed) => LoadRemote(s, computed)
    case Enter(computed, plan) => Admit(s, computed, plan)
  }

  /** `allocate_slots` for a waiting request. */
  method AskSlots(sched: Scheduler, env: Env, r: Request, computed: int, n: int) returns (granted: bool)
    ensures granted == Granted(sched.c, env, sched.Model(), r.Value(), r.id, computed, n)
  {
    sched.ModelHolders();
    var tokens := computed + n + (if r.computed == 0 then 0 else sched.c.lookahead);
    granted := SlotAsk(sched.kv.Keys, r.id, if sched.c.reserveFull then Max(tokens, |r.all|) else tokens) !in env.refused;
  }

  method PlanWaiting(sched: Scheduler, env: Env, r: Request, l: Locals, computed: int, want: int) returns (plan: EncoderPlan)
    requires want == WaitingWant(sched.c, r.Value(), computed)
    ensures forall s: State, q :: plan == WaitingPlan(sched.c, env, PassOf(s, l, q), r.Value(), r.id, computed)
  {
    hide EncoderFor, Aligned, WaitingWant, Request.Value;
    plan := r.PlanEncoder(env, computed, Min(want, l.budget), l.encBudget);
    var n := r.AlignedTo(sched.c, computed, plan.n);
    plan := plan.(n := n);
  }

  /** The request at the head, once it is not blocked: LoRA limit, cached tokens, plan, slots. */
  method Decide(sched: Scheduler, env: Env, r: Request, l: Locals, ghost p: Pass) returns (v: Verdict)
    requires sched.Valid() && sched.Knows(r)
    requires p == PassOf(p.s, l, p.stepSkipped) && Promote(env, p.s, r.id) == Some(sched.Model())
    ensures ChoiceOf(sched.Model(), v) == Consider(sched.c, env, p, r.id)
  {
    hide Promote, Granted, WaitingPlan, WaitingWant, Request.Value, Scheduler.Model, Scheduler.Values, Scheduler.Linked, PassOf;
    sched.ModelAt(r);
    r.ComputedIs();
    r.LoraIs();
    PassFields(p.s, l, p.stepSkipped);
    var c := sched.c;
    if c.lora && r.lora != 0 && |l.loras| == c.maxLoras && r.lora !in l.loras {
      return Skip;
    }
    var asks := r.computed == 0 && c.connector;
    if asks && r.id in env.undecided {
      return Skip;
    }
    var remote := if asks then RemoteHit(env, r.id) else Remote(0, false);
    var computed := if r.computed == 0 then Hit(env, r.id) + remote.tokens else r.computed;
    if remote.isAsync {
      var ok := AskSlots(sched, env, r, computed, 0);
      return if ok then Load(computed) else GiveUp;
    }
    var want := r.WantWaiting(c, computed);
    if !c.chunked && want > l.budget {
      return GiveUp;
    }
    var plan := PlanWaiting(sched, env, r, l, computed, want);
    assert plan == WaitingPlan(c, env, PassOf(p.s, l, p.stepSkipped), r.Value(), r.id, computed);
    if plan.n == 0 {
      return GiveUp;
    }
    var ok := AskSlots(sched, env, r, computed, plan.n);
    return if ok then Verdict.Enter(computed, plan) else GiveUp;
  }

  lemma PassFields(s: State, l: Locals, q: seq<Id>)
    ensures var p := PassOf(s, l, q);
      p.s == s && p.loras == l.loras && p.budget == l.budget && p.encBudget == l.encBudget && p.stepSkipped == q
  {
  }

  method ConsiderHead(sched: Scheduler, env: Env, r: Request, l: Locals, ghost q: seq<Id>) returns (v: Verdict)
    requires sched.Valid() && sched.Knows(r)
    modifies sched`kv, sched`recvDone, sched`recvFailed, r
    ensures sched.Valid()
    ensures ChoiceOf(sched.Model(), v) == Consider(sched.c, env, PassOf(old(sched.Model()), l, q), r.id)
  {
    hide Promote, Granted, WaitingPlan, WaitingWant, Request.Value, Scheduler.Model, Scheduler.Values, Scheduler.Linked, PassOf,
         Consider;
    ghost var p := PassOf(sched.Model(), l, q);
    PassFields(sched.Model(), l, q);
    ConsiderBlocked(sched.c, env, p, r.id);
    var ok := PromoteIfBlocked(sched, env, r);
    if !ok {
      return Skip;
    }
    v := Decide(sched, env, r, l, p);
  }

  lemma ConsiderBlocked(c: Config, env: Env, p: Pass, id: Id)
    ensures Promote(env, p.s, id).None? ==> Consider(c, env, p, id) == SkipOver(p.s)
  {
    hide Promote;
  }

  /** `pop_request` of the queue that the head came from. */
  function PopFrom(s: State, fromSkipped: bool, k: nat): State
    requires k < if fromSkipped then |s.skipped| else |s.waiting|
  {
    if fromSkipped then s.(skipped := RemoveAt(s.skipped, k)) else s.(waiting := RemoveAt(s.waiting, k))
  }

  /** Where the head of the queues of `s` is. */
  ghost predicate HeadAt(c: Config, s: State, fromSkipped: bool, k: nat, id: Id) {
    && fromSkipped == UseSkipped(c, s)
    && k < (if fromSkipped then |s.skipped| else |s.waiting|)
    && k == (if fromSkipped then HeadIndex(c, s, s.skipped) else HeadIndex(c, s, s.waiting))
    && id == Peek(c, s)
  }

  lemma PopIs(c: Config, from: State, s: State, fromSkipped: bool, k: nat, id: Id)
    requires HeadAt(c, from, fromSkipped, k, id) && from.waiting == s.waiting && from.skipped == s.skipped
    ensures Pop(c, from, s) == PopFrom(s, fromSkipped, k)
  {
    hide HeadIndex, UseSkipped, RemoveAt;
  }

  /** What `Apply` makes of the verdict, given that it does not depend on the queues. */
  ghost function Carried(c: Config, from: State, s: State, id: Id, l: Locals, q: seq<Id>, v: Verdict): Pass {
    if from.waiting == s.waiting && from.skipped == s.skipped && (from.waiting != [] || from.skipped != [])
    then Apply(c, PassOf(from, l, q), id, ChoiceOf(s, v)) else PassOf(from, l, q)
  }

  lemma SkipIs(c: Config, from: State, s: State, fromSkipped: bool, k: nat, id: Id, l: Locals, q: seq<Id>)
    requires HeadAt(c, from, fromSkipped, k, id) && from.waiting == s.waiting && from.skipped == s.skipped
    ensures PassOf(PopFrom(s, fromSkipped, k), l, [id] + q) == Carried(c, from, s, id, l, q, Skip)
    ensures PassOf(s, l.(stop := true), q) == Carried(c, from, s, id, l, q, GiveUp)
  {
    PopIs(c, from, s, fromSkipped, k, id);
    hide Pop, PopFrom, HeadAt;
  }

  lemma LoadIs(c: Config, from: State, s: State, fromSkipped: bool, k: nat, id: Id, l: Locals, q: seq<Id>, computed: int)
    requires HeadAt(c, from, fromSkipped, k, id) && from.waiting == s.waiting && from.skipped == s.skipped && id in s.reqs
    ensures var t := PopFrom(s.(kv := StartKv(s, id, computed)), fromSkipped, k);
            var u := Put(t, id, s.reqs[id].(status := WaitingForRemoteKvs, computed := computed));
            PassOf(u, l, [id] + q) == Carried(c, from, s, id, l, q, Load(computed))
  {
    PopIs(c, from, s, fromSkipped, k, id);
    hide Pop, HeadAt, StartKv, RemoveAt;
  }

  /** The local variables when a waiting request is admitted. */
  function Admitted(c: Config, l: Locals, id: Id, v: View, plan: EncoderPlan): Locals {
    l.(budget := l.budget - plan.n, order := l.order + [id], num := l.num[id := plan.n],
       encs := if plan.embeds != [] then l.encs[id := Total(plan.embeds)] else l.encs,
       encBudget := if plan.embeds != [] then plan.budget else l.encBudget,
       loras := if c.lora && v.lora != 0 then l.loras + {v.lora} else l.loras,
       newly := if v.status == Waiting then l.newly + [id] else l.newly,
       resumed := if v.status == Preempted then l.resumed + [id] else l.resumed,
       invalid := l.invalid || (v.status != Waiting && v.status != Preempted))
  }

  lemma AdmitIs(
      c: Config, from: State, s: State, fromSkipped: bool, k: nat, id: Id, l: Locals, q: seq<Id>, computed: int, plan: EncoderPlan)
    requires HeadAt(c, from, fromSkipped, k, id) && from.waiting == s.waiting && from.skipped == s.skipped && id in s.reqs
    ensures var t := PopFrom(s.(kv := StartKv(s, id, computed)), fromSkipped, k);
            var u := Put(t.(running := s.running + [id]), id, s.reqs[id].(status := Running, computed := computed));
            PassOf(u, Admitted(c, l, id, s.reqs[id], plan), q) == Carried(c, from, s, id, l, q, Verdict.Enter(computed, plan))
  {
    PopIs(c, from, s, fromSkipped, k, id);
    hide Pop, HeadAt, StartKv, RemoveAt, Total;
  }

  /** Take the request off its queue and set it aside or run it. */
  method Carry(sched: Scheduler, r: Request, v: Verdict, fromSkipped: bool, k: nat, l0: Locals, q0: seq<Request>, ghost from: State)
    returns (l: Locals, q: seq<Request>)
    requires Ready(sched, q0) && sched.Knows(r)
    requires HeadAt(sched.c, from, fromSkipped, k, r.id)
    requires from.waiting == sched.Model().waiting && from.skipped == sched.Model().skipped
    requires k < if fromSkipped then |sched.skipped| else |sched.waiting|
    modifies sched`kv, sched`waiting, sched`skipped, sched`running, r
    ensures Ready(sched, q)
    ensures PassOf(sched.Model(), l, Ids(q)) == Carried(sched.c, from, old(sched.Model()), r.id, l0, Ids(q0), v)
    ensures v.GiveUp? ==> l.stop
    ensures !v.GiveUp? ==> |sched.waiting| + |sched.skipped| < |old(sched.waiting)| + |old(sched.skipped)| && l.stop == l0.stop
  {
    hide Ids, Request.Value, Scheduler.Model, Scheduler.Values, Scheduler.Linked, Scheduler.Closed, PassOf, Carried, HeadAt, StartKv,
         Put, Admitted;
    ghost var s := sched.Model();
    sched.ModelAt(r);
    sched.ModelQueues();
    l, q := l0, q0;
    match v {
      case GiveUp =>
        SkipIs(sched.c, from, s, fromSkipped, k, r.id, l0, Ids(q0));
        l := l.(stop := true);
      case Skip =>
        SkipIs(sched.c, from, s, fromSkipped, k, r.id, l0, Ids(q0));
        sched.PopAt(fromSkipped, k);
        q := SetAside(sched, r, q);
      case Load(computed) =>
        LoadIs(sched.c, from, s, fromSkipped, k, r.id, l0, Ids(q0), computed);
        sched.GrantSlots(r, computed);
        sched.PopAt(fromSkipped, k);
        sched.BeginLoading(r, computed);
        q := SetAside(sched, r, q);
      case Enter(computed, plan) =>
        AdmitIs(sched.c, from, s, fromSkipped, k, r.id, l0, Ids(q0), computed, plan);
        l := AdmitLocals(sched, r, l, plan);
        sched.GrantSlots(r, computed);
        sched.PopAt(fromSkipped, k);
        sched.AppendRunning(r);
        sched.BeginRunning(r, computed);
    }
  }

  method SetAside(sched: Scheduler, r: Request, q0: seq<Request>) returns (q: seq<Request>)
    requires sched.Linked(q0) && sched.Closed(q0) && sched.Knows(r)
    ensures sched.Linked(q) && sched.Closed(q) && Ids(q) == [r.id] + Ids(q0)
  {
    IdsPush(r, q0);
    sched.LinkedPush(r, q0);
    q := [r] + q0;
  }

  method AdmitLocals(sched: Scheduler, r: Request, l0: Locals, plan: EncoderPlan) returns (l: Locals)
    ensures l == Admitted(sched.c, l0, r.id, r.Value(), plan) && l.stop == l0.stop
  {
    hide Total, Request.Value;
    sched.StatusIs(r);
    r.LoraIs();
    var newly, resumed, invalid := l0.newly, l0.resumed, l0.invalid;
    if r.status == Waiting {
      newly := newly + [r.id];
    } else if r.status == Preempted {
      resumed := resumed + [r.id];
    } else {
      invalid := true;
    }
    var loras, encs, encBudget := l0.loras, l0.encs, l0.encBudget;
    if sched.c.lora && r.lora != 0 {
      loras := loras + {r.lora};
    }
    if plan.embeds != [] {
      encs, encBudget := encs[r.id := Total(plan.embeds)], plan.budget;
    }
    l := Locals(l0.idx, l0.budget - plan.n, encBudget, l0.order + [r.id], l0.num[r.id := plan.n], l0.specs, encs, l0.preempted,
                loras, newly, resumed, l0.stop, invalid);
  }

  /** Queues and the requests set aside refer to known requests. */
  ghost predicate Ready(sched: Scheduler, q: seq<Request>)
    reads sched
  {
    && sched.Valid() && sched.Closed(sched.running) && sched.Closed(sched.waiting) && sched.Closed(sched.skipped)
    && sched.Linked(q) && sched.Closed(q)
  }

  lemma {:induction false} WaitingOnce(c: Config, env: Env, p: Pass)
    ensures !WaitingDone(c, p) ==>
      (&& (p.s.waiting != [] || p.s.skipped != [])
       && var id := Peek(c, p.s);
          WaitingLoop(c, env, p) == WaitingLoop(c, env, Apply(c, p, id, Consider(c, env, p, id))))
    ensures WaitingDone(c, p) ==> WaitingLoop(c, env, p) == p
  {
    hide Consider, Peek, Apply;
  }

  lemma CarriedIs(c: Config, env: Env, from: State, s: State, id: Id, l: Locals, q: seq<Id>, v: Verdict)
    requires from.waiting != [] || from.skipped != []
    requires ChoiceOf(s, v) == Consider(c, env, PassOf(from, l, q), id)
    ensures Carried(c, from, s, id, l, q, v) == Apply(c, PassOf(from, l, q), id, Consider(c, env, PassOf(from, l, q), id))
    ensures from.waiting == s.waiting && from.skipped == s.skipped
  {
    hide Apply;
  }

  /** The body of the second loop. */
  method WaitingIteration(sched: Scheduler, env: Env, l0: Locals, q0: seq<Request>) returns (l: Locals, q: seq<Request>)
    requires Ready(sched, q0) && (sched.waiting != [] || sched.skipped != [])
    modifies sched`kv, sched`recvDone, sched`recvFailed, sched`waiting, sched`skipped, sched`running, sched.requests.Values
    ensures Ready(sched, q)
    ensures var p := PassOf(old(sched.Model()), l0, Ids(q0));
            && (p.s.waiting != [] || p.s.skipped != [])
            && var id := Peek(sched.c, p.s);
               PassOf(sched.Model(), l, Ids(q)) == Apply(sched.c, p, id, Consider(sched.c, env, p, id))
    ensures l.stop || (|sched.waiting| + |sched.skipped| < |old(sched.waiting)| + |old(sched.skipped)| && l.stop == l0.stop)
  {
    hide Ids, Request.Value, Scheduler.Model, Scheduler.Values, Scheduler.Linked, Scheduler.Closed, Apply, Consider, Carried,
         UseSkipped, HeadIndex, Peek;
    sched.ModelQueues();
    ghost var from := sched.Model();
    var fromSkipped, k := PeekHead(sched);
    HeadIsThere(sched, fromSkipped, k);
    var r := if fromSkipped then sched.skipped[k] else sched.waiting[k];
    var v := ConsiderHead(sched, env, r, l0, Ids(q0));
    sched.ModelQueues();
    CarriedIs(sched.c, env, from, sched.Model(), r.id, l0, Ids(q0), v);
    l, q := Carry(sched, r, v, fromSkipped, k, l0, q0, from);
  }

  lemma HeadIsThere(sched: Scheduler, fromSkipped: bool, k: nat)
    requires sched.Valid() && sched.Closed(sched.waiting) && sched.Closed(sched.skipped)
    requires k < if fromSkipped then |sched.skipped| else |sched.waiting|
    ensures sched.Knows(if fromSkipped then sched.skipped[k] else sched.waiting[k])
  {
  }

  method WaitingRequests(sched: Scheduler, env: Env, l0: Locals) returns (l: Locals, q: seq<Request>)
    requires Ready(sched, [])
    modifies sched`kv, sched`recvDone, sched`recvFailed, sched`waiting, sched`skipped, sched`running, sched.requests.Values
    ensures Ready(sched, q)
    ensures PassOf(sched.Model(), l, Ids(q)) == WaitingLoop(sched.c, env, PassOf(old(sched.Model()), l0, []))
  {
    hide Ids, Request.Value, Scheduler.Model, Scheduler.Values, Scheduler.Linked, Scheduler.Closed, Apply, Consider, Peek, WaitingLoop;
    l, q := l0, [];
    assert Ids([]) == [];
    ghost var p0 := PassOf(sched.Model(), l0, []);
    sched.ModelQueues();
    while !l.stop && l.budget > 0 && (sched.waiting != [] || sched.skipped != []) && |sched.running| != sched.c.maxRunning
      invariant Ready(sched, q)
      invariant WaitingLoop(sched.c, env, PassOf(sched.Model(), l, Ids(q))) == WaitingLoop(sched.c, env, p0)
      invariant sched.Model().waiting == Ids(sched.waiting) && sched.Model().skipped == Ids(sched.skipped)
      invariant sched.Model().running == Ids(sched.running)
      decreases !l.stop, |sched.waiting| + |sched.skipped|
    {
      WaitingOnce(sched.c, env, PassOf(sched.Model(), l, Ids(q)));
      l, q := WaitingIteration(sched, env, l, q);
      sched.ModelQueues();
    }
    WaitingOnce(sched.c, env, PassOf(sched.Model(), l, Ids(q)));
  }

  // ------------------------------------------------------------------------- the method

  lemma OneMoreLora(s: State, ids: seq<Id>, id: Id)
    ensures LorasOf(s, ids + [id]) == LorasOf(s, ids) + (if At(s, id).lora > 0 then {At(s, id).lora} else {})
  {
    var all := LorasOf(s, ids + [id]);
    forall x | x in LorasOf(s, ids) ensures x in all {
      var y :| y in ids && At(s, y).lora > 0 && At(s, y).lora == x;
      assert y in ids + [id];
    }
    assert id in ids + [id];
  }

  /** The LoRAs of the requests scheduled by the first loop. */
  method ScheduledLoras(sched: Scheduler, order: seq<Id>) returns (loras: set<nat>)
    requires sched.Valid()
    ensures loras == LorasOf(sched.Model(), order)
  {
    ghost var s := sched.Model();
    sched.ModelOfAll();
    loras := {};
    var k := 0;
    assert order[..0] == [];
    while k < |order|
      invariant 0 <= k <= |order| && loras == LorasOf(s, order[..k])
    {
      assert order[..k + 1] == order[..k] + [order[k]];
      OneMoreLora(s, order[..k], order[k]);
      if order[k] in sched.requests && sched.requests[order[k]].lora > 0 {
        loras := loras + {sched.requests[order[k]].lora};
      }
      k := k + 1;
    }
    assert order[..k] == order;
  }

  /** `_update_after_schedule` when the requests `done` have been advanced. */
  ghost function Advanced(s: State, num: map<Id, int>, done: set<Id>): State {
    s.(reqs := map id | id in s.reqs :: if id in done && id in num then Advance(s.reqs[id], num[id]) else s.reqs[id])
  }

  lemma AdvanceOne(s: State, num: map<Id, int>, done: set<Id>, id: Id)
    requires id in num && id !in done
    ensures Advanced(s, num, {}) == s
    ensures id in s.reqs ==>
      (&& id in Advanced(s, num, done).reqs
       && Put(Advanced(s, num, done), id, Advance(Advanced(s, num, done).reqs[id], num[id])) == Advanced(s, num, done + {id}))
    ensures id !in s.reqs ==> Advanced(s, num, done + {id}) == Advanced(s, num, done)
  {
    hide Advance;
    assert Advanced(s, num, {}).reqs == s.reqs;
    assert id in s.reqs ==>
      Put(Advanced(s, num, done), id, Advance(Advanced(s, num, done).reqs[id], num[id])).reqs == Advanced(s, num, done + {id}).reqs;
    assert id !in s.reqs ==> Advanced(s, num, done + {id}).reqs == Advanced(s, num, done).reqs;
  }

  method AdvanceAll(sched: Scheduler, num: map<Id, int>)
    requires sched.Valid()
    modifies sched.requests.Values
    ensures sched.Valid() && sched.Model() == Advanced(old(sched.Model()), num, num.Keys)
  {
    hide Ids, Request.Value, Scheduler.Model, Scheduler.Values, Scheduler.Linked, Advance, Put, Advanced;
    ghost var s := sched.Model();
    ghost var done: set<Id> := {};
    var todo := num.Keys;
    NobodyAdvanced(s, num);
    while todo != {}
      invariant sched.Valid() && done !! todo && done + todo == num.Keys && sched.Model() == Advanced(s, num, done)
      decreases |todo|
    {
      var id :| id in todo;
      AdvanceNamed(sched, num, id, s, done);
      done := done + {id};
      todo := todo - {id};
    }
    assert done == num.Keys;
  }

  /** Advance the request of one entry of `num_scheduled_tokens`. */
  method AdvanceNamed(sched: Scheduler, num: map<Id, int>, id: Id, ghost s: State, ghost done: set<Id>)
    requires sched.Valid() && id in num && id !in done && sched.Model() == Advanced(s, num, done)
    modifies sched.requests.Values
    ensures sched.Valid() && sched.Model() == Advanced(s, num, done + {id})
  {
    hide Ids, Request.Value, Scheduler.Model, Scheduler.Values, Scheduler.Linked, Advance, Put, Advanced;
    AdvancedKeys(s, num, done);
    AdvanceOne(s, num, done, id);
    sched.ModelOfAll();
    if id in sched.requests {
      sched.ModelAt(sched.requests[id]);
      sched.Advance(sched.requests[id], num[id]);
    }
  }

  lemma AdvancedKeys(s: State, num: map<Id, int>, done: set<Id>)
    ensures Advanced(s, num, done).reqs.Keys == s.reqs.Keys
  {
  }

  lemma NobodyAdvanced(s: State, num: map<Id, int>)
    ensures Advanced(s, num, {}) == s
  {
    assert Advanced(s, num, {}).reqs == s.reqs;
  }

  lemma AfterScheduleIs(s: State, l: Locals, t: State)
    requires t == s.(kv := map id | id in s.kv ::
                       if id in l.num then WriteKv(s.kv[id], At(s, id), l.num[id], Drafts(l.specs, id)) else s.kv[id])
    ensures Advanced(t, l.num, l.num.Keys).(prev := (set id | id in l.order), finishedIds := {})
         == AfterSchedule(s, l.order, l.num, l.specs)
  {
    hide WriteKv, Drafts, Advance;
  }

  method UpdateAfterSchedule(sched: Scheduler, l: Locals)
    requires Ready(sched, [])
    modifies sched`kv, sched`prev, sched`finishedIds, sched.requests.Values
    ensures Ready(sched, []) && sched.Model() == AfterSchedule(old(sched.Model()), l.order, l.num, l.specs)
  {
    hide Ids, Request.Value, Scheduler.Model, Scheduler.Values, Scheduler.Linked, Scheduler.Closed, Advance, Advanced, AfterSchedule,
         WriteKv, Drafts;
    ghost var s := sched.Model();
    sched.WriteKvOf(l.num, l.specs);
    AfterScheduleIs(s, l, sched.Model());
    AdvanceAll(sched, l.num);
    sched.EndStep(l.order);
  }

  method BothLoops(sched: Scheduler, env: Env) returns (l: Locals)
    requires Ready(sched, [])
    modifies sched`kv, sched`recvDone, sched`recvFailed, sched`waiting, sched`skipped, sched`running, sched.requests.Values
    ensures Ready(sched, [])
    ensures PassOf(sched.Model(), l, []) == SchedulePass(sched.c, env, old(sched.Model()))
  {
    hide Ids, Request.Value, Scheduler.Model, Scheduler.Values, Scheduler.Linked, Scheduler.Closed, RunningLoop, WaitingLoop,
         LorasOf, Reverse;
    sched.ModelPause();
    ghost var s := sched.Model();
    var budget := if sched.pause.PausedAll? then 0 else sched.c.maxScheduled;
    l := Locals(0, budget, sched.c.maxEncoder, [], map[], map[], map[], [], {}, [], [], false, false);
    assert PassOf(s, l, []) == Start(sched.c, s);
    l := RunningRequests(sched, env, l);
    if l.preempted == [] && sched.pause.Unpaused? {
      var loras := {};
      if sched.c.lora {
        loras := ScheduledLoras(sched, l.order);
      }
      l := l.(stop := false, loras := loras);
      var q: seq<Request>;
      l, q := WaitingRequests(sched, env, l);
      sched.RequeueSkipped(q);
    }
  }

  /** `schedule`. */
  method Schedule(sched: Scheduler, env: Env) returns (out: Output)
    requires Ready(sched, [])
    modifies sched, sched.requests.Values
    ensures Ready(sched, [])
    ensures sched.Model() == SchedulerSpec.Schedule(sched.c, env, old(sched.Model()))
    ensures out == OutputOf(SchedulePass(sched.c, env, old(sched.Model())))
  {
    hide Ids, Request.Value, Scheduler.Model, Scheduler.Values, Scheduler.Linked, Scheduler.Closed, SchedulePass, AfterSchedule;
    var l := BothLoops(sched, env);
    sched.ModelFinished();
    out := Output(l.order, l.num, l.specs, l.newly, l.resumed, l.preempted, sched.finishedIds);
    UpdateAfterSchedule(sched, l);
  }
}
