/**
 * What one call of `schedule` makes of each request that waits: admitted,
 * loaded, set aside for a reason that can be read off the state, or not reached
 * because the step ran out of tokens, of places, or into a head that has to wait.
 */
module WaitingLine {
  import opened Seqs
  import opened Requests
  import opened SchedulerSpec
  import opened QueuePartition
  import opened Accounting
  import opened Planning
  import opened Admission
  import opened ScheduleStep
  import opened StepCounts

  // ------------------------------------------------ what a request of `s` waits for, and what it gets

  /** It waits for its grammar, its KV, input or a tool call, and what it waits for is not there. */
  predicate StillBlocked(env: Env, s: State, id: Id) {
    match At(s, id).status
    case WaitingForRemoteKvs => id !in s.recvDone
    case WaitingForGrammar => id !in env.grammarReady
    case WaitingForToolCall => id !in env.toolReady
    case WaitingForStreamingReq => true
    case _ => false
  }

  /** The request once it waits for nothing else: preempted before its load, it counts as preempted again. */
  function Woken(s: State, id: Id): View {
    var v := At(s, id);
    var st := if v.status == WaitingForRemoteKvs && v.preemptions > 0 then Preempted
              else if IsBlocked(v.status) then Waiting
              else v.status;
    v.(status := st, computed := Resting(s, id))
  }

  /** The connector is asked about a request that starts from nothing. */
  predicate Asks(c: Config, s: State, id: Id) { c.connector && Resting(s, id) == 0 }

  predicate LoadsNow(c: Config, env: Env, s: State, id: Id) { Asks(c, s, id) && RemoteHit(env, id).isAsync }

  /** No place for its LoRA among `loras`. */
  predicate LoraFull(c: Config, s: State, loras: set<nat>, id: Id) {
    c.lora && At(s, id).lora != 0 && |loras| == c.maxLoras && At(s, id).lora !in loras
  }

  predicate Undecided(c: Config, env: Env, s: State, id: Id) { Asks(c, s, id) && id in env.undecided }

  /** A load that failed from its first block on. */
  predicate LoadLost(s: State, id: Id) {
    At(s, id).status == WaitingForRemoteKvs && id in s.recvFailed && At(s, id).computed == 0
  }

  /** What the step notes about the load of `id`: a woken one is no longer noted, and a lost one holds no blocks. */
  ghost predicate LoadNoted(s: State, t: State, id: Id) {
    if At(s, id).status == WaitingForRemoteKvs then id !in t.recvDone && id !in t.recvFailed else SameNotes(s, t, id)
  }

  ghost predicate SameNotes(s: State, t: State, id: Id) {
    (id in t.recvDone <==> id in s.recvDone) && (id in t.recvFailed <==> id in s.recvFailed)
  }

  /** Nothing happened to `id`. */
  ghost predicate AsBefore(s: State, t: State, id: Id) {
    At(t, id) == At(s, id) && SameNotes(s, t, id) && (id in t.kv <==> id in s.kv)
  }

  /** `id` waits for nothing else any more, and got nothing yet. */
  ghost predicate WokenIn(s: State, t: State, id: Id) {
    && At(t, id) == Woken(s, id) && LoadNoted(s, t, id)
    && (id in t.kv <==> id in s.kv && !LoadLost(s, id))
  }

  /** The tokens it would get, were it not for the budget. */
  function Wish(c: Config, env: Env, s: State, id: Id): int {
    var n := |At(s, id).all| - Base(c, env, s, id);
    if c.longPrefill > 0 then Min(c.longPrefill, n) else n
  }

  /** With this budget and these blocks taken, `id` cannot be served. */
  ghost predicate MustWait(c: Config, env: Env, s: State, t: State, budget: int, id: Id) {
    if LoadsNow(c, env, s, id) then SlotAsk(t.kv.Keys, id, SlotTokens(c, env, s, id, 0)) in env.refused
    else
      || (!c.chunked && Wish(c, env, s, id) > budget)
      || c.mamba || At(s, id).enc
      || SlotAsk(t.kv.Keys, id, SlotTokens(c, env, s, id, Min(Wish(c, env, s, id), budget))) in env.refused
  }

  // ------------------------------------------------------------------------------- one decision

  lemma PromotedNow(env: Env, s: State, t: State, id: Id)
    requires id in t.reqs && AsBefore(s, t, id)
    ensures var r := Promote(env, t, id);
      && (r.None? <==> StillBlocked(env, s, id))
      && (r.Some? ==> WokenIn(s, r.value, id))
      && (r.Some? ==> forall x :: x != id ==> AsBefore(t, r.value, x))
  {
    PromotedView(env, s, t, id);
    PromotedNotes(env, s, t, id);
    PromotedOthers(env, t, id);
    hide Promote, StillBlocked, Woken, LoadNoted, LoadLost, AsBefore;
  }

  lemma PromotedView(env: Env, s: State, t: State, id: Id)
    requires id in t.reqs && AsBefore(s, t, id)
    ensures var r := Promote(env, t, id);
      (r.None? <==> StillBlocked(env, s, id)) && (r.Some? ==> At(r.value, id) == Woken(s, id))
  {
  }

  lemma PromotedNotes(env: Env, s: State, t: State, id: Id)
    requires id in t.reqs && AsBefore(s, t, id)
    ensures var r := Promote(env, t, id);
      r.Some? ==> LoadNoted(s, r.value, id) && (id in r.value.kv <==> id in s.kv && !LoadLost(s, id))
  {
  }

  lemma PromotedOthers(env: Env, t: State, id: Id)
    ensures var r := Promote(env, t, id); r.Some? ==> forall x :: x != id ==> AsBefore(t, r.value, x)
  {
  }

  /** The terms of the decision, read off `s`. */
  lemma SameTerms(c: Config, env: Env, s: State, t: State, id: Id, n: int)
    requires At(t, id) == Woken(s, id) && id !in s.running
    ensures var v := At(t, id);
      && v.computed == Resting(s, id)
      && Base(c, env, s, id) ==
           (if v.computed != 0 then v.computed else Hit(env, id) + if c.connector then RemoteHit(env, id).tokens else 0)
      && WaitingWant(c, v, Base(c, env, s, id)) == Wish(c, env, s, id)
      && (Granted(c, env, t, v, id, Base(c, env, s, id), n) <==>
            SlotAsk(t.kv.Keys, id, SlotTokens(c, env, s, id, n)) !in env.refused)
  {
  }

  /** Without encoder inputs and block alignment the plan is what it wishes, as far as the budget goes. */
  lemma PlainPlan(c: Config, env: Env, s: State, p: Pass, v: View, id: Id)
    requires !c.mamba && !v.enc
    ensures WaitingPlan(c, env, p, v, id, Base(c, env, s, id)).n ==
      Min(WaitingWant(c, v, Base(c, env, s, id)), p.budget)
  {
    hide Base;
  }

  /** All that the second loop may decide about the head, and when. */
  ghost predicate Decision(c: Config, env: Env, s: State, p: Pass, id: Id, ch: Choice) {
    if StillBlocked(env, s, id) then ch == SkipOver(p.s)
    else
      && WokenIn(s, ch.s, id)
      && (forall x :: x != id ==> AsBefore(p.s, ch.s, x))
      && (!ch.SkipOver? ==> !LoraFull(c, s, p.loras, id) && !Undecided(c, env, s, id))
      && match ch {
           case SkipOver(_) => LoraFull(c, s, p.loras, id) || Undecided(c, env, s, id)
           case LoadRemote(_, computed) =>
             && LoadsNow(c, env, s, id) && computed == Base(c, env, s, id)
             && SlotAsk(ch.s.kv.Keys, id, SlotTokens(c, env, s, id, 0)) !in env.refused
           case Admit(_, computed, _) => !LoadsNow(c, env, s, id) && computed == Base(c, env, s, id)
           case Halt(_) => MustWait(c, env, s, ch.s, p.budget, id)
         }
  }

  lemma DecisionFor(c: Config, env: Env, s: State, p: Pass, id: Id)
    requires id in p.s.reqs && AsBefore(s, p.s, id) && id !in s.running && p.budget > 0
    requires !LoadsNow(c, env, s, id) ==> Base(c, env, s, id) < |At(s, id).all|
    ensures Decision(c, env, s, p, id, Consider(c, env, p, id))
  {
    PromotedNow(env, s, p.s, id);
    if !StillBlocked(env, s, id) {
      var t := Promote(env, p.s, id).value;
      var v := At(t, id);
      var plan := WaitingPlan(c, env, p, v, id, Base(c, env, s, id));
      SameTerms(c, env, s, t, id, 0);
      SameTerms(c, env, s, t, id, plan.n);
      if !c.mamba && !v.enc {
        PlainPlan(c, env, s, p, v, id);
      }
    }
    hide Promote, Resting, Base, WaitingPlan, WaitingWant, Granted, SlotTokens, StillBlocked, AsBefore, LoadNoted;
  }

  // ---------------------------------------------------------------------------------- outcomes

  /** `id` is set aside: it still waits, or starts to load, or has no place for its LoRA, or the connector cannot tell yet. */
  ghost predicate Aside(c: Config, env: Env, s: State, t: State, loras: set<nat>, id: Id) {
    if StillBlocked(env, s, id) then AsBefore(s, t, id)
    else if At(t, id).status == WaitingForRemoteKvs then
      && LoadsNow(c, env, s, id) && !Undecided(c, env, s, id) && Slots(c, env, s, id, 0)
      && At(t, id) == Woken(s, id).(status := WaitingForRemoteKvs, computed := Base(c, env, s, id))
      && LoadNoted(s, t, id) && id in t.kv
    else WokenIn(s, t, id) && (LoraFull(c, s, loras, id) || Undecided(c, env, s, id))
  }

  /** `id` has entered `running`, as a new request or as a resumed one. */
  ghost predicate Entered(c: Config, env: Env, s: State, p: Pass, id: Id) {
    && !StillBlocked(env, s, id) && !LoadsNow(c, env, s, id) && !Undecided(c, env, s, id)
    && At(p.s, id) == Woken(s, id).(status := Running, computed := Base(c, env, s, id))
    && LoadNoted(s, p.s, id) && id in p.s.kv
    && (id in p.newly <==> Woken(s, id).status == Waiting) && (id in p.resumed <==> Woken(s, id).status == Preempted)
  }

  /** Everybody but `except` was admitted, set aside, or not reached. */
  ghost predicate Line(c: Config, env: Env, s: State, p: Pass, except: set<Id>) {
    && (forall id :: id in p.stepSkipped ==> Aside(c, env, s, p.s, p.loras, id))
    && (forall id :: id in p.order && id !in s.running ==> Entered(c, env, s, p, id))
    && (forall id {:trigger At(p.s, id)} :: id !in p.order && id !in p.stepSkipped && id !in except ==> AsBefore(s, p.s, id))
    && (forall id :: id in p.newly || id in p.resumed ==> id in p.order && id !in s.running)
    && p.s.kv.Keys <= s.kv.Keys + s.reqs.Keys
  }

  /** The head has to wait, and so the others do. */
  ghost predicate Stuck(c: Config, env: Env, s: State, p: Pass, id: Id) {
    && id !in p.order && id !in p.stepSkipped && id in Unfinished(s) && id !in s.running
    && !StillBlocked(env, s, id) && !LoraFull(c, s, p.loras, id) && !Undecided(c, env, s, id)
    && WokenIn(s, p.s, id) && MustWait(c, env, s, p.s, p.budget, id)
    && Line(c, env, s, p, {id})
  }

  // ------------------------------------------------------------------------------ one iteration

  /** Everything that carrying out a decision changes. */
  ghost predicate CarriedOut(c: Config, p: Pass, q: Pass, id: Id, ch: Choice) {
    var v := At(ch.s, id);
    && q.s.recvDone == ch.s.recvDone && q.s.recvFailed == ch.s.recvFailed
    && (forall x :: x != id ==> At(q.s, x) == At(ch.s, x))
    && match ch {
         case Halt(_) => q == p.(s := ch.s, stop := true)
         case SkipOver(_) =>
           q == p.(s := q.s, stepSkipped := [id] + p.stepSkipped) && At(q.s, id) == v && q.s.kv == ch.s.kv
         case LoadRemote(_, computed) =>
           && q == p.(s := q.s, stepSkipped := [id] + p.stepSkipped)
           && At(q.s, id) == v.(status := WaitingForRemoteKvs, computed := computed) && q.s.kv.Keys == ch.s.kv.Keys + {id}
         case Admit(_, computed, plan) =>
           && q.stepSkipped == p.stepSkipped && q.order == p.order + [id] && q.stop == p.stop
           && At(q.s, id) == v.(status := Running, computed := computed) && q.s.kv.Keys == ch.s.kv.Keys + {id}
           && q.newly == (if v.status == Waiting then p.newly + [id] else p.newly)
           && q.resumed == (if v.status == Preempted then p.resumed + [id] else p.resumed)
           && q.loras == (if c.lora && v.lora != 0 then p.loras + {v.lora} else p.loras)
       }
  }

  lemma Carried(c: Config, p: Pass, ch: Choice)
    requires Fits(c, p, ch)
    ensures CarriedOut(c, p, Apply(c, p, Peek(c, p.s), ch), Peek(c, p.s), ch)
  {
    if !ch.Halt? {
      PopOnlyQueues(c, p.s, ch.s);
    }
    hide Pop, Peek, Partition, Total;
  }

  /** A waiting request is computed below its end, so that there is something to schedule. */
  lemma BaseBelow(c: Config, env: Env, s: State, id: Id)
    requires Rest(c, s) && EnvOk(env, s) && id in Unfinished(s) && id !in s.running
    ensures !LoadsNow(c, env, s, id) ==> Base(c, env, s, id) < |At(s, id).all|
  {
    assert Ready(c, s.reqs[id]);
    ExactlyOneQueue(s, id);
    hide Partition, AllKv, PrevOk;
  }

  /** Places for LoRAs do not become free. */
  lemma FullStays(c: Config, s: State, id: Id, loras: set<nat>, lora: nat)
    requires LoraFull(c, s, loras, id) && (lora in loras || |loras| != c.maxLoras)
    ensures LoraFull(c, s, loras + {lora}, id)
  {
    assert loras + {lora} == loras;
  }

  lemma AsideStays(c: Config, env: Env, s: State, t: State, u: State, loras: set<nat>, more: set<nat>, id: Id)
    requires Aside(c, env, s, t, loras, id) && AsBefore(t, u, id)
    requires LoraFull(c, s, loras, id) ==> LoraFull(c, s, more, id)
    ensures Aside(c, env, s, u, more, id)
  {
    hide StillBlocked, LoadsNow, Undecided, Slots, Base, Woken, LoraFull, LoadLost;
  }

  lemma EnteredStays(c: Config, env: Env, s: State, p: Pass, q: Pass, id: Id)
    requires Entered(c, env, s, p, id) && AsBefore(p.s, q.s, id)
    requires (id in q.newly <==> id in p.newly) && (id in q.resumed <==> id in p.resumed)
    ensures Entered(c, env, s, q, id)
  {
    hide StillBlocked, LoadsNow, Undecided, Base, Woken;
  }

  lemma StillAsBefore(s: State, t: State, u: State, id: Id)
    requires AsBefore(s, t, id) && AsBefore(t, u, id)
    ensures AsBefore(s, u, id)
  {
  }

  lemma HeadInLine(c: Config, env: Env, s: State, total: int, p: Pass)
    requires Rest(c, s) && EnvOk(env, s) && WaitingInv(c, env, total, p) && Line(c, env, s, p, {}) && !WaitingDone(c, p)
    ensures var id := Peek(c, p.s);
      && id !in p.order && id !in p.stepSkipped && id in p.s.reqs && id in Unfinished(s) && id !in s.running
      && AsBefore(s, p.s, id) && p.budget > 0 && !p.stop
      && (!LoadsNow(c, env, s, id) ==> Base(c, env, s, id) < |At(s, id).all|)
  {
    var id := Peek(c, p.s);
    WaitingInvParts(c, env, total, p);
    NotStopped(c, p);
    RestParts(c, s);
    hide WaitingInv, Peek, Partition, Books, Rest, EnvOk, LoadsNow, Base, Aside, Entered;
    HeadIsQueued(c, p.s, p.stepSkipped);
    HeadNotScheduled(c, total, p);
    assert AsBefore(s, p.s, id) by {
      assert At(p.s, id) == At(p.s, id);
      hide AsBefore;
    }
    hide Line, AsBefore;
    KnownBefore(s, p, id);
    assert id in Unfinished(s);
    RunningKnown(s, id);
    BaseBelow(c, env, s, id);
  }

  /** The head is set aside. */
  lemma LineAside(c: Config, env: Env, s: State, p: Pass, q: Pass, id: Id)
    requires Line(c, env, s, p, {}) && id !in p.order && id in s.reqs
    requires q == p.(s := q.s, stepSkipped := [id] + p.stepSkipped) && q.s.kv.Keys <= p.s.kv.Keys + {id}
    requires Aside(c, env, s, q.s, q.loras, id) && forall x :: x != id ==> AsBefore(p.s, q.s, x)
    ensures Line(c, env, s, q, {})
  {
    hide Aside, Entered, AsBefore;
    forall x | x in q.stepSkipped ensures Aside(c, env, s, q.s, q.loras, x) {
      if x != id {
        AsideStays(c, env, s, p.s, q.s, p.loras, q.loras, x);
      }
    }
    forall x | x in q.order && x !in s.running ensures Entered(c, env, s, q, x) {
      EnteredStays(c, env, s, p, q, x);
    }
    forall x | x !in q.order && x !in q.stepSkipped ensures AsBefore(s, q.s, x) {
      assert id in q.stepSkipped && forall y :: y in p.stepSkipped ==> y in q.stepSkipped;
      assert At(p.s, x) == At(p.s, x);
      StillAsBefore(s, p.s, q.s, x);
    }
  }

  /** The head enters `running`. */
  lemma LineEnters(c: Config, env: Env, s: State, p: Pass, q: Pass, id: Id)
    requires Line(c, env, s, p, {}) && id !in p.order && id in s.reqs && id !in s.running
    requires q.order == p.order + [id] && q.stepSkipped == p.stepSkipped && q.s.kv.Keys <= p.s.kv.Keys + {id}
    requires q.newly == p.newly || q.newly == p.newly + [id]
    requires q.resumed == p.resumed || q.resumed == p.resumed + [id]
    requires Entered(c, env, s, q, id) && forall x :: x != id ==> AsBefore(p.s, q.s, x)
    requires forall x :: LoraFull(c, s, p.loras, x) ==> LoraFull(c, s, q.loras, x)
    requires id !in p.stepSkipped
    ensures Line(c, env, s, q, {})
  {
    hide Aside, Entered, AsBefore, LoraFull;
    forall x | x in q.stepSkipped ensures Aside(c, env, s, q.s, q.loras, x) {
      AsideStays(c, env, s, p.s, q.s, p.loras, q.loras, x);
    }
    forall x | x in q.order && x !in s.running ensures Entered(c, env, s, q, x) {
      if x != id {
        EnteredStays(c, env, s, p, q, x);
      }
    }
    forall x | x !in q.order && x !in q.stepSkipped ensures AsBefore(s, q.s, x) {
      assert id in q.order && forall y :: y in p.order ==> y in q.order;
      assert At(p.s, x) == At(p.s, x);
      StillAsBefore(s, p.s, q.s, x);
    }
  }

  /** The head has to wait. */
  lemma LineStuck(c: Config, env: Env, s: State, p: Pass, q: Pass, id: Id)
    requires Line(c, env, s, p, {}) && id !in p.order && id !in p.stepSkipped && id in Unfinished(s) && id !in s.running
    requires q == p.(s := q.s, stop := true) && WokenIn(s, q.s, id) && MustWait(c, env, s, q.s, q.budget, id)
    requires !StillBlocked(env, s, id) && !LoraFull(c, s, p.loras, id) && !Undecided(c, env, s, id)
    requires forall x :: x != id ==> AsBefore(p.s, q.s, x)
    ensures Stuck(c, env, s, q, id)
  {
    hide Aside, Entered, AsBefore, LoraFull, StillBlocked, MustWait, Undecided;
    forall x | x in q.stepSkipped ensures Aside(c, env, s, q.s, q.loras, x) {
      AsideStays(c, env, s, p.s, q.s, p.loras, q.loras, x);
    }
    forall x | x in q.order && x !in s.running ensures Entered(c, env, s, q, x) {
      EnteredStays(c, env, s, p, q, x);
    }
    forall x | x !in q.order && x !in q.stepSkipped && x !in {id} ensures AsBefore(s, q.s, x) {
      assert At(p.s, x) == At(p.s, x);
      StillAsBefore(s, p.s, q.s, x);
    }
    KeysBefore(p.s, q.s, id);
  }

  lemma KeysBefore(s: State, t: State, id: Id)
    requires forall x :: x != id ==> AsBefore(s, t, x)
    ensures t.kv.Keys <= s.kv.Keys + {id}
  {
    forall x | x in t.kv && x != id ensures x in s.kv {
      assert AsBefore(s, t, x);
    }
  }

  lemma LineStep(c: Config, env: Env, s: State, total: int, p: Pass)
    requires Rest(c, s) && EnvOk(env, s) && WaitingInv(c, env, total, p) && Line(c, env, s, p, {}) && !WaitingDone(c, p)
    ensures var q := WaitingStep(c, env, p);
      if q.stop then Stuck(c, env, s, q, Peek(c, p.s)) else Line(c, env, s, q, {})
  {
    hide Peek, Consider, WaitingInv, Line, Partition, Books, Rest, EnvOk, Base, LoadsNow, Apply, Stuck, Decision, CarriedOut, Fits,
         AsBefore;
    var id, ch := Peek(c, p.s), Consider(c, env, p, Peek(c, p.s));
    HeadInLine(c, env, s, total, p);
    WaitingInvParts(c, env, total, p);
    NotStopped(c, p);
    ConsiderFits(c, env, p);
    DecisionFor(c, env, s, p, id);
    FitsBase(c, p, ch);
    Carried(c, p, ch);
    LineMoves(c, env, s, p, WaitingStep(c, env, p), id, ch);
  }

  lemma FitsBase(c: Config, p: Pass, ch: Choice)
    requires Fits(c, p, ch)
    ensures ch.s.waiting == p.s.waiting && ch.s.skipped == p.s.skipped && (p.s.waiting != [] || p.s.skipped != [])
  {
  }

  lemma LineMoves(c: Config, env: Env, s: State, p: Pass, q: Pass, id: Id, ch: Choice)
    requires Line(c, env, s, p, {}) && !p.stop && id !in p.order && id !in p.stepSkipped && id in Unfinished(s) && id !in s.running
    requires AsBefore(s, p.s, id) && Decision(c, env, s, p, id, ch) && CarriedOut(c, p, q, id, ch)
    ensures if q.stop then Stuck(c, env, s, q, id) else Line(c, env, s, q, {})
  {
    hide Line, Base, Woken, LoadsNow, Undecided, StillBlocked, LoraFull, Aside, Entered, Stuck, MustWait, Slots, SlotTokens, LoadNoted,
         SameNotes, LoadLost;
    OthersAsBefore(p.s, ch.s, q.s, id);
    match ch {
      case Halt(_) =>
        LineStuck(c, env, s, p, q, id);
      case SkipOver(_) =>
        SkippedAside(c, env, s, ch.s, q.s, p.loras, id);
        LineAside(c, env, s, p, q, id);
      case LoadRemote(_, computed) =>
        LineKv(c, env, s, p);
        LoadingAside(c, env, s, ch.s, q.s, p.loras, id);
        LineAside(c, env, s, p, q, id);
      case Admit(_, computed, _) =>
        LineNew(c, env, s, p, id);
        AdmittedEntered(c, env, s, ch.s, q, id);
        SameFull(c, s, p.loras, id);
        WokenLora(s, id);
        LineEnters(c, env, s, p, q, id);
    }
  }

  lemma WokenLora(s: State, id: Id)
    ensures Woken(s, id).lora == At(s, id).lora
  {
    hide Resting;
  }

  lemma LineKv(c: Config, env: Env, s: State, p: Pass)
    requires Line(c, env, s, p, {})
    ensures p.s.kv.Keys <= s.kv.Keys + s.reqs.Keys
  {
  }

  lemma LineNew(c: Config, env: Env, s: State, p: Pass, id: Id)
    requires Line(c, env, s, p, {}) && id !in p.order
    ensures id !in p.newly && id !in p.resumed
  {
  }

  lemma SameFull(c: Config, s: State, loras: set<nat>, id: Id)
    requires !LoraFull(c, s, loras, id)
    ensures forall x :: LoraFull(c, s, loras, x) ==>
      LoraFull(c, s, if c.lora && At(s, id).lora != 0 then loras + {At(s, id).lora} else loras, x)
  {
    forall x | LoraFull(c, s, loras, x) && c.lora && At(s, id).lora != 0
      ensures LoraFull(c, s, loras + {At(s, id).lora}, x)
    {
      FullStays(c, s, x, loras, At(s, id).lora);
    }
  }

  lemma SkippedAside(c: Config, env: Env, s: State, t: State, u: State, loras: set<nat>, id: Id)
    requires At(u, id) == At(t, id) && u.recvDone == t.recvDone && u.recvFailed == t.recvFailed && u.kv.Keys == t.kv.Keys
    requires if StillBlocked(env, s, id) then AsBefore(s, t, id)
             else WokenIn(s, t, id) && (LoraFull(c, s, loras, id) || Undecided(c, env, s, id))
    ensures Aside(c, env, s, u, loras, id)
  {
    hide Resting;
  }

  lemma LoadingAside(c: Config, env: Env, s: State, t: State, u: State, loras: set<nat>, id: Id)
    requires !StillBlocked(env, s, id) && WokenIn(s, t, id) && LoadsNow(c, env, s, id) && !Undecided(c, env, s, id)
    requires SlotAsk(t.kv.Keys, id, SlotTokens(c, env, s, id, 0)) !in env.refused && t.kv.Keys <= s.kv.Keys + s.reqs.Keys
    requires At(u, id) == At(t, id).(status := WaitingForRemoteKvs, computed := Base(c, env, s, id))
    requires u.recvDone == t.recvDone && u.recvFailed == t.recvFailed && u.kv.Keys == t.kv.Keys + {id}
    ensures Aside(c, env, s, u, loras, id)
  {
    hide Resting, Base, SlotTokens;
  }

  lemma AdmittedEntered(c: Config, env: Env, s: State, t: State, q: Pass, id: Id)
    requires !StillBlocked(env, s, id) && WokenIn(s, t, id) && !LoadsNow(c, env, s, id) && !Undecided(c, env, s, id)
    requires At(q.s, id) == At(t, id).(status := Running, computed := Base(c, env, s, id))
    requires q.s.recvDone == t.recvDone && q.s.recvFailed == t.recvFailed && q.s.kv.Keys == t.kv.Keys + {id}
    requires (id in q.newly <==> At(t, id).status == Waiting) && (id in q.resumed <==> At(t, id).status == Preempted)
    ensures Entered(c, env, s, q, id)
  {
    hide Resting, Base;
  }

  lemma OthersAsBefore(s: State, t: State, u: State, id: Id)
    requires t == s || forall x :: x != id ==> AsBefore(s, t, x)
    requires forall x :: x != id ==> At(u, x) == At(t, x)
    requires u.recvDone == t.recvDone && u.recvFailed == t.recvFailed
    requires u.kv.Keys == t.kv.Keys || u.kv.Keys == t.kv.Keys + {id}
    ensures forall x :: x != id ==> AsBefore(s, u, x)
    ensures u.kv.Keys <= s.kv.Keys + {id}
  {
    forall x | x != id ensures AsBefore(s, u, x) {
      assert t == s || AsBefore(s, t, x);
    }
    KeysBefore(s, u, id);
  }

  /** Nothing happens to the others. */
  lemma OthersInLine(c: Config, env: Env, s: State, total: int, p: Pass, x: Id)
    requires Rest(c, s) && EnvOk(env, s) && WaitingInv(c, env, total, p) && Line(c, env, s, p, {}) && !WaitingDone(c, p)
    requires x in s.running
    ensures x != Peek(c, p.s) && AsBefore(p.s, WaitingStep(c, env, p).s, x)
  {
    hide Peek, Consider, WaitingInv, Line, Partition, Books, Rest, EnvOk, Base, LoadsNow, Apply, Decision, CarriedOut, Fits, AsBefore;
    var id, ch := Peek(c, p.s), Consider(c, env, p, Peek(c, p.s));
    HeadInLine(c, env, s, total, p);
    WaitingInvParts(c, env, total, p);
    NotStopped(c, p);
    ConsiderFits(c, env, p);
    DecisionFor(c, env, s, p, id);
    FitsBase(c, p, ch);
    Carried(c, p, ch);
    OthersMove(c, env, s, p, WaitingStep(c, env, p), id, ch);
  }

  lemma OthersMove(c: Config, env: Env, s: State, p: Pass, q: Pass, id: Id, ch: Choice)
    requires Decision(c, env, s, p, id, ch) && CarriedOut(c, p, q, id, ch)
    ensures forall x :: x != id ==> AsBefore(p.s, q.s, x)
  {
    hide Base, Woken, LoadsNow, Undecided, StillBlocked, LoraFull, MustWait, SlotTokens, WokenIn, AsBefore;
    OthersAsBefore(p.s, ch.s, q.s, id);
  }

  // ------------------------------------------------------------------------------ the whole loop

  /** The loop only ends without tokens, without places, without anybody waiting, or stuck. */
  lemma {:induction false} WaitingLoopLine(c: Config, env: Env, s: State, total: int, p: Pass)
    requires Rest(c, s) && EnvOk(env, s) && WaitingInv(c, env, total, p) && Line(c, env, s, p, {}) && !p.stop
    ensures var q := WaitingLoop(c, env, p);
      && WaitingDone(c, q) && WaitingInv(c, env, total, q)
      && if q.stop then exists id :: Stuck(c, env, s, q, id) else Line(c, env, s, q, {})
    decreases |p.s.waiting| + |p.s.skipped|
  {
    hide WaitingInv, WaitingStep, Line, Partition, Rest, EnvOk, Stuck, WaitingDone, Peek;
    if !WaitingDone(c, p) {
      NotStopped(c, p);
      WaitingStepInv(c, env, total, p);
      LineStep(c, env, s, total, p);
      var q := WaitingStep(c, env, p);
      if q.stop {
        StoppedDone(c, q);
        assert Stuck(c, env, s, q, Peek(c, p.s));
      } else {
        WaitingLoopLine(c, env, s, total, q);
      }
    }
  }

  lemma StoppedDone(c: Config, p: Pass)
    requires p.stop
    ensures WaitingDone(c, p)
  {
  }
}
