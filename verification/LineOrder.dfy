/** In which order the second loop of `schedule` considers those that wait, and in which they wait afterwards. */
module LineOrder {
  import opened Seqs
  import opened Requests
  import opened SchedulerSpec
  import opened QueuePartition
  import opened Frames
  import opened Accounting
  import opened Planning
  import opened Admission
  import opened ScheduleStep
  import opened StepCounts
  import opened WaitingLine
  import opened RequestFates
  import opened Urgency

  /** Those that wait, under FCFS in the order in which they are considered. */
  function Queue(s: State): seq<Id> { s.skipped + s.waiting }

  function Ids(q: seq<Id>): set<Id> { set id | id in q }

  /** How many have been considered. */
  function Considered(s: State, p: Pass): int { |Queue(s)| - |Queue(p.s)| }

  /**
   * The first `k` were considered, the others wait as they did; those of the
   * first that were not scheduled are set aside, in their order.
   */
  ghost predicate InOrder(s: State, p: Pass, k: int) {
    && 0 <= k <= |Queue(s)| && Queue(p.s) == Queue(s)[k..]
    && (forall i :: 0 <= i < k ==> Queue(s)[i] in p.order || Queue(s)[i] in p.stepSkipped)
    && Reverse(p.stepSkipped) == Without(Queue(s)[..k], Ids(p.order))
    && forall i :: k <= i < |Queue(s)| ==> Queue(s)[i] !in p.order
  }

  // ------------------------------------------------------------------------- one iteration, FCFS

  lemma FrontPopped(c: Config, from: State, s: State)
    requires !c.priority && from.waiting == s.waiting && from.skipped == s.skipped && Queue(s) != []
    ensures Peek(c, from) == Queue(s)[0] && Queue(Pop(c, from, s)) == Queue(s)[1..]
  {
  }

  lemma ConsideredOne(c: Config, p: Pass, ch: Choice)
    requires Fits(c, p, ch) && !c.priority
    ensures var q, id := Apply(c, p, Peek(c, p.s), ch), Peek(c, p.s);
      && Queue(p.s) != [] && id == Queue(p.s)[0]
      && Queue(q.s) == (if ch.Halt? then Queue(p.s) else Queue(p.s)[1..])
      && q.order == (if ch.Admit? then p.order + [id] else p.order)
      && q.stepSkipped == (if ch.SkipOver? || ch.LoadRemote? then [id] + p.stepSkipped else p.stepSkipped)
  {
    FrontPopped(c, p.s, ch.s);
    hide Peek, Pop, Partition, StartKv;
  }

  lemma WithoutMore(l: seq<Id>, gone: set<Id>, id: Id)
    requires id !in l
    ensures Without(l, gone + {id}) == Without(l, gone)
  {
    WithoutAlike(l, gone, gone + {id});
  }

  lemma NextInOrder(s: State, p: Pass, q: Pass, k: int, id: Id)
    requires InOrder(s, p, k) && NoDup(Queue(s)) && Queue(p.s) != [] && id == Queue(p.s)[0] && Queue(q.s) == Queue(p.s)[1..]
    requires (q.order == p.order + [id] && q.stepSkipped == p.stepSkipped)
          || (q.order == p.order && q.stepSkipped == [id] + p.stepSkipped)
    ensures InOrder(s, q, k + 1)
  {
    var l := Queue(s);
    assert id == l[k] && l[..k + 1] == l[..k] + [id];
    assert Queue(q.s) == l[k + 1..];
    assert id !in l[..k] by {
      assert forall i :: 0 <= i < k ==> l[..k][i] == l[i];
    }
    WithoutConcat(l[..k], [id], Ids(q.order));
    if q.order == p.order {
      assert Reverse(q.stepSkipped) == Reverse(p.stepSkipped) + [id];
    } else {
      assert Ids(q.order) == Ids(p.order) + {id};
      WithoutMore(l[..k], Ids(p.order), id);
    }
    hide Queue, Reverse, Without;
    forall i | 0 <= i < k + 1 ensures l[i] in q.order || l[i] in q.stepSkipped {
      if i < k {
        assert l[i] in p.order || l[i] in p.stepSkipped;
      }
    }
  }

  lemma StepInOrder(c: Config, env: Env, s: State, p: Pass, k: int)
    requires !c.priority && Partition(p.s, p.stepSkipped) && !WaitingDone(c, p) && InOrder(s, p, k) && NoDup(Queue(s))
    ensures var q := WaitingStep(c, env, p);
      InOrder(s, q, if Consider(c, env, p, Peek(c, p.s)).Halt? then k else k + 1)
  {
    NotDone(c, p);
    ConsiderFits(c, env, p);
    hide Consider, Partition, WaitingDone, NoDup, Queue, Fits;
    var ch := Consider(c, env, p, Peek(c, p.s));
    ConsideredOne(c, p, ch);
    var q := WaitingStep(c, env, p);
    hide Apply, Peek;
    if ch.Halt? {
    } else {
      NextInOrder(s, p, q, k, Peek(c, p.s));
    }
  }

  lemma NotDone(c: Config, p: Pass)
    requires !WaitingDone(c, p)
    ensures p.s.waiting != [] || p.s.skipped != []
  {
  }

  lemma {:induction false} LoopInOrder(c: Config, env: Env, s: State, p: Pass, k: int) returns (m: int)
    requires !c.priority && Partition(p.s, p.stepSkipped) && InOrder(s, p, k) && NoDup(Queue(s))
    ensures InOrder(s, WaitingLoop(c, env, p), m)
    decreases !p.stop, |p.s.waiting| + |p.s.skipped|
  {
    if WaitingDone(c, p) {
      m := k;
    } else {
      WaitingStepKeeps(c, env, p);
      StepInOrder(c, env, s, p, k);
      NotDone(c, p);
      hide Partition, WaitingStep, InOrder, WaitingDone, Consider, Peek;
      m := LoopInOrder(c, env, s, WaitingStep(c, env, p), if Consider(c, env, p, Peek(c, p.s)).Halt? then k else k + 1);
    }
  }

  // -------------------------------------------------------------------------- a whole step, FCFS

  lemma {:induction false} ReverseAppend<T>(a: seq<T>, x: T)
    ensures Reverse(a + [x]) == [x] + Reverse(a)
  {
    if a != [] {
      assert (a + [x])[1..] == a[1..] + [x];
      ReverseAppend(a[1..], x);
    } else {
      assert Reverse([x]) == [x];
    }
  }

  /** Victims go to the front of `waiting`, one before the other. */
  ghost predicate Returned(s: State, p: Pass) {
    p.s.skipped == s.skipped && p.s.waiting == Reverse(p.preempted) + s.waiting
  }

  lemma StartReturned(c: Config, s: State)
    ensures Returned(s, Start(c, s))
  {
    assert [] + s.waiting == s.waiting;
  }

  lemma VictimReturned(c: Config, s: State, p: Pass)
    requires p.s.running != [] && Returned(s, p)
    ensures Returned(s, PreemptVictim(c, p))
  {
    VictimState(c, p);
    PreemptVictimShape(c, p);
    ReverseAppend(p.preempted, p.s.running[VictimIndex(c, p.s)]);
    hide PreemptVictim, VictimIndex, Reverse;
  }

  lemma {:induction false} MakeRoomReturned(c: Config, env: Env, s: State, p: Pass, id: Id, tokens: int)
    requires Returned(s, p)
    ensures Returned(s, MakeRoom(c, env, p, id, tokens).p)
    decreases |p.s.running|
  {
    hide PreemptVictim, VictimIndex, Returned;
    if SlotAsk(p.s.kv.Keys, id, tokens) in env.refused && p.s.running != [] {
      VictimReturned(c, s, p);
      VictimCount(c, p);
      if p.s.running[VictimIndex(c, p.s)] != id {
        MakeRoomReturned(c, env, s, PreemptVictim(c, p), id, tokens);
      }
    }
  }

  lemma RunningStepReturned(c: Config, env: Env, s: State, p: Pass)
    requires Returned(s, p) && !RunningDone(p)
    ensures Returned(s, RunningStep(c, env, p))
  {
    hide MakeRoom, RunningPlan, Reverse;
    var id := p.s.running[p.idx];
    MakeRoomReturned(c, env, s, p, id, At(p.s, id).computed + RunningPlan(c, env, p, id).n + c.lookahead);
  }

  lemma {:induction false} RunningLoopReturned(c: Config, env: Env, s: State, p: Pass)
    requires Returned(s, p)
    ensures Returned(s, RunningLoop(c, env, p))
    decreases !p.stop, |p.s.running| - p.idx
  {
    if !RunningDone(p) {
      RunningStepReturned(c, env, s, p);
      RunningStepDecreases(c, env, p);
      hide RunningStep, RunningDone, Returned;
      RunningLoopReturned(c, env, s, RunningStep(c, env, p));
    }
  }

  /**
   * The line after a step: the first `m` of those that waited were considered,
   * and of these the ones that were not scheduled were set aside and keep their
   * places in front of the others, who were not.
   */
  ghost predicate LineAfter(c: Config, env: Env, s: State, p: Pass, m: int) {
    && 0 <= m <= |Queue(s)|
    && Queue(p.s) == Without(Queue(s)[..m], Ids(p.order)) + Queue(s)[m..]
    && (forall i :: 0 <= i < m ==> Queue(s)[i] in p.order || Aside(c, env, s, p.s, p.loras, Queue(s)[i]))
    && forall i :: m <= i < |Queue(s)| ==> Queue(s)[i] !in p.order
  }

  lemma LineRequeued(c: Config, env: Env, s: State, p: Pass, k: int, except: set<Id>)
    requires InOrder(s, p, k) && Line(c, env, s, p, except)
    ensures LineAfter(c, env, s, Requeue(p), k)
  {
    var q := Requeue(p);
    assert Queue(q.s) == Reverse(p.stepSkipped) + Queue(p.s);
    assert forall id :: AsBefore(p.s, q.s, id);
    hide Requeue, Queue, Reverse, Aside, Entered, AsBefore;
    forall i | 0 <= i < k ensures Queue(s)[i] in q.order || Aside(c, env, s, q.s, q.loras, Queue(s)[i]) {
      if Queue(s)[i] !in p.order {
        assert AsBefore(p.s, q.s, Queue(s)[i]);
        AsideStays(c, env, s, p.s, q.s, p.loras, q.loras, Queue(s)[i]);
      }
    }
  }

  lemma StartInOrder(c: Config, env: Env, s: State)
    requires Rest(c, s) && EnvOk(env, s) && RunningLoop(c, env, Start(c, s)).preempted == []
    ensures var p := SecondStart(c, RunningLoop(c, env, Start(c, s))); InOrder(s, p, 0) && NoDup(Queue(s))
  {
    hide Rest, EnvOk, RunningLoop, Start, LorasOf, FirstInv, Returned, Queue, Partition, NoDup, InOrder;
    var p := RunningLoop(c, env, Start(c, s));
    RestParts(c, s);
    StartReturned(c, s);
    RunningLoopReturned(c, env, s, Start(c, s));
    FirstLoopCounted(c, env, s);
    StartLists(c, env, s, Tokens(c, s), p);
    ReturnedNobody(s, p);
    QueuesOnce(s);
    NobodyConsidered(s, SecondStart(c, p));
  }

  lemma NobodyConsidered(s: State, p: Pass)
    requires Queue(p.s) == Queue(s) && p.stepSkipped == []
    requires forall id :: id in p.order ==> id in s.running
    requires forall id :: id in Queue(s) ==> id !in s.running
    ensures InOrder(s, p, 0)
  {
    assert Queue(s)[..0] == [] && Queue(s)[0..] == Queue(s);
  }

  lemma ReturnedNobody(s: State, p: Pass)
    requires Returned(s, p) && p.preempted == []
    ensures Queue(p.s) == Queue(s)
  {
    assert [] + s.waiting == s.waiting;
  }

  lemma QueuesOnce(s: State)
    requires Partition(s, [])
    ensures NoDup(Queue(s)) && forall id :: id in Queue(s) ==> id !in s.running
  {
    forall id | id in Queue(s) ensures multiset(Queue(s))[id] == 1 && id !in s.running {
      Member(s, [], id);
      assert multiset(Queue(s)) == multiset(s.skipped) + multiset(s.waiting);
      assert multiset(Queue(s))[id] + multiset(s.running)[id] <= Queued(s, [])[id];
    }
    NoDupByCount(Queue(s));
  }

  /** Any call of `schedule` under FCFS. */
  lemma FcfsLine(c: Config, env: Env, s: State)
    requires Rest(c, s) && EnvOk(env, s) && !c.priority
    ensures var p := SchedulePass(c, env, s);
      if p.preempted == [] && s.pause.Unpaused? then exists m :: LineAfter(c, env, s, p, m)
      else p.s.skipped == s.skipped && p.s.waiting == Reverse(p.preempted) + s.waiting
  {
    hide Rest, RunningInv, Quiet, EnvOk, RunningLoop, WaitingLoop, Framed, PrevOk, Partition, WaitingInv, LorasOf, Reverse,
         Line, Stuck, WaitingDone, InOrder, LineAfter, NoDup, Queue;
    RestParts(c, s);
    FirstLoop(c, env, s);
    StartReturned(c, s);
    RunningLoopReturned(c, env, s, Start(c, s));
    var p := RunningLoop(c, env, Start(c, s));
    var q := SecondStart(c, p);
    if p.preempted == [] && s.pause.Unpaused? {
      HandOver(c, env, s, p);
      LineStart(c, env, s);
      StartInOrder(c, env, s);
      WaitingInvParts(c, env, Tokens(c, s), q);
      var m := LoopInOrder(c, env, s, q, 0);
      WaitingLoopLine(c, env, s, Tokens(c, s), q);
      var r := WaitingLoop(c, env, q);
      if r.stop {
        var head :| Stuck(c, env, s, r, head);
        StuckLine(c, env, s, r, head);
        LineRequeued(c, env, s, r, m, {head});
      } else {
        LineRequeued(c, env, s, r, m, {});
      }
      StillNoVictims(c, env, Tokens(c, s), r);
      assert LineAfter(c, env, s, Requeue(r), m);
    }
  }

  lemma StuckLine(c: Config, env: Env, s: State, p: Pass, id: Id)
    requires Stuck(c, env, s, p, id)
    ensures Line(c, env, s, p, {id})
  {
  }

  // --------------------------------------------------------------------------------- PRIORITY

  /** Admitted or set aside in this step. */
  ghost predicate Dealt(s: State, p: Pass, id: Id) { (id in p.order && id !in s.running) || id in p.stepSkipped }

  /** Whoever was considered comes before all those that still wait. */
  ghost predicate Ranked(s: State, p: Pass) {
    forall d, r :: Dealt(s, p, d) && (r in p.s.waiting || r in p.s.skipped) ==> Before(s, d, r)
  }

  lemma SameRank(c: Config, s: State, t: State, a: Id, b: Id)
    requires Framed(c, s, t) && a in s.reqs && b in s.reqs
    ensures Before(t, a, b) <==> Before(s, a, b)
  {
    assert Touched(c, s.reqs[a], t.reqs[a]) && Touched(c, s.reqs[b], t.reqs[b]);
  }

  lemma ApplyQueues(c: Config, p: Pass, ch: Choice)
    requires Fits(c, p, ch)
    ensures var q, id, t := Apply(c, p, Peek(c, p.s), ch), Peek(c, p.s), Pop(c, p.s, ch.s);
      && (if ch.Halt? then q.s.waiting == p.s.waiting && q.s.skipped == p.s.skipped
          else q.s.waiting == t.waiting && q.s.skipped == t.skipped)
      && q.stop == (p.stop || ch.Halt?)
      && q.order == (if ch.Admit? then p.order + [id] else p.order)
      && q.stepSkipped == (if ch.SkipOver? || ch.LoadRemote? then [id] + p.stepSkipped else p.stepSkipped)
  {
    hide Peek, Pop, Partition, StartKv;
  }

  /** The queues lose the head, which joins those considered; unless it has to wait, and then nobody follows. */
  ghost predicate Moved(s: State, p: Pass, q: Pass, id: Id) {
    && (forall d :: Dealt(s, q, d) ==> Dealt(s, p, d) || (d == id && !q.stop))
    && (forall r :: r in q.s.waiting || r in q.s.skipped ==> (r in p.s.waiting || r in p.s.skipped) && (r != id || q.stop))
  }

  lemma HeadMoves(c: Config, env: Env, s: State, p: Pass)
    requires Partition(p.s, p.stepSkipped) && !WaitingDone(c, p) && !p.stop
    ensures Moved(s, p, WaitingStep(c, env, p), Peek(c, p.s))
  {
    NotDone(c, p);
    ConsiderFits(c, env, p);
    hide Consider, WaitingDone, Peek, Pop, Apply, Partition, PartitionBut, StartKv, Fits;
    var ch := Consider(c, env, p, Peek(c, p.s));
    FitsBase(c, p, ch);
    FitsPartition(c, p, ch);
    PopFacts(c, p.s, ch.s, p.stepSkipped);
    HeadQueues(c, p.s, ch.s, p.stepSkipped);
    ApplyQueues(c, p, ch);
    OneMoved(s, p, WaitingStep(c, env, p), Peek(c, p.s), ch, Pop(c, p.s, ch.s));
  }

  lemma OneMoved(s: State, p: Pass, q: Pass, id: Id, ch: Choice, t: State)
    requires !p.stop && q.stop == ch.Halt?
    requires if ch.Halt? then q.s.waiting == p.s.waiting && q.s.skipped == p.s.skipped
             else q.s.waiting == t.waiting && q.s.skipped == t.skipped
    requires forall r :: r in t.waiting || r in t.skipped ==> (r in p.s.waiting || r in p.s.skipped) && r != id
    requires q.order == (if ch.Admit? then p.order + [id] else p.order)
    requires q.stepSkipped == (if ch.SkipOver? || ch.LoadRemote? then [id] + p.stepSkipped else p.stepSkipped)
    ensures Moved(s, p, q, id)
  {
  }

  lemma FitsPartition(c: Config, p: Pass, ch: Choice)
    requires Fits(c, p, ch)
    ensures Partition(ch.s, p.stepSkipped)
  {
  }

  lemma HeadQueues(c: Config, from: State, s: State, extra: seq<Id>)
    requires from.waiting == s.waiting && from.skipped == s.skipped && (s.waiting != [] || s.skipped != [])
    requires PartitionBut(Pop(c, from, s), extra, Peek(c, from))
    ensures var t := Pop(c, from, s);
      forall r :: r in t.waiting || r in t.skipped ==> (r in s.waiting || r in s.skipped) && r != Peek(c, from)
  {
    var t, id := Pop(c, from, s), Peek(c, from);
    OthersUntouched(t, extra, id);
    if UseSkipped(c, from) {
      RemoveAtCounts(s.skipped, HeadIndex(c, from, s.skipped));
    } else {
      RemoveAtCounts(s.waiting, HeadIndex(c, from, s.waiting));
    }
    hide PartitionBut, Peek, HeadIndex, UseSkipped;
  }

  lemma RankedStep(c: Config, env: Env, s: State, p: Pass)
    requires c.priority && Partition(p.s, p.stepSkipped) && !WaitingDone(c, p) && !p.stop && Ranked(s, p) && Framed(c, s, p.s)
    ensures Ranked(s, WaitingStep(c, env, p))
  {
    var id, q := Peek(c, p.s), WaitingStep(c, env, p);
    HeadMoves(c, env, s, p);
    HeadIsQueued(c, p.s, p.stepSkipped);
    assert id in s.reqs.Keys;
    hide Peek, WaitingStep, WaitingDone, Before, Dealt, Framed;
    forall d, r | Dealt(s, q, d) && (r in q.s.waiting || r in q.s.skipped) ensures Before(s, d, r) {
      if !Dealt(s, p, d) {
        PeekComesFirst(c, p.s, r);
        BeforeMeans(p.s, id, r);
        QueuedKnown(c, s, p, r);
        SameRank(c, s, p.s, id, r);
      }
    }
  }

  lemma QueuedKnown(c: Config, s: State, p: Pass, r: Id)
    requires Partition(p.s, p.stepSkipped) && Framed(c, s, p.s) && (r in p.s.waiting || r in p.s.skipped)
    ensures r in s.reqs
  {
    Member(p.s, p.stepSkipped, r);
    assert r in p.s.reqs.Keys;
  }

  lemma {:induction false} RankedLoop(c: Config, env: Env, s: State, p: Pass)
    requires c.priority && Partition(p.s, p.stepSkipped) && !p.stop && Ranked(s, p) && Framed(c, s, p.s)
    ensures Ranked(s, WaitingLoop(c, env, p))
    decreases |p.s.waiting| + |p.s.skipped|
  {
    hide Partition, WaitingStep, Ranked, WaitingDone, Framed;
    if !WaitingDone(c, p) {
      WaitingStepKeeps(c, env, p);
      RankedStep(c, env, s, p);
      WaitingStepFramed(c, env, p);
      var q := WaitingStep(c, env, p);
      FramedTransitive(c, s, p.s, q.s);
      if q.stop {
        StoppedDone(c, q);
      } else {
        RankedLoop(c, env, s, q);
      }
    }
  }

  lemma StartRanked(c: Config, env: Env, s: State)
    requires Rest(c, s) && EnvOk(env, s) && RunningLoop(c, env, Start(c, s)).preempted == []
    ensures Ranked(s, SecondStart(c, RunningLoop(c, env, Start(c, s))))
  {
    hide Rest, EnvOk, RunningLoop, Start, LorasOf, FirstInv, Before;
    FirstLoopCounted(c, env, s);
    StartLists(c, env, s, Tokens(c, s), RunningLoop(c, env, Start(c, s)));
  }

  lemma Reached(c: Config, env: Env, s: State, total: int, p: Pass, d: Id, r: Id)
    requires Rest(c, s) && WaitingInv(c, env, total, p) && Ranked(s, p)
    requires if p.stop then exists id :: Stuck(c, env, s, p, id) else Line(c, env, s, p, {})
    requires d in p.order && d !in s.running && r in Unfinished(s) && r !in s.running && r !in p.order
    ensures Before(s, d, r) || Aside(c, env, s, p.s, p.loras, r)
  {
    hide Rest, WaitingInv, Aside, Entered, Before, MustWait, Line, AsBefore, WokenIn, At, StillBlocked, LoraFull, Undecided;
    if p.stop {
      var head :| Stuck(c, env, s, p, head);
      LineCases(c, env, s, p, {head}, r);
      if r == head {
        HeadStays(c, env, s, total, p, head);
      } else if r !in p.stepSkipped {
        NotReached(c, env, s, total, p, r);
      }
    } else {
      LineCases(c, env, s, p, {}, r);
      if r !in p.stepSkipped {
        NotReached(c, env, s, total, p, r);
      }
    }
  }

  lemma HeadStays(c: Config, env: Env, s: State, total: int, p: Pass, id: Id)
    requires Rest(c, s) && WaitingInv(c, env, total, p) && Stuck(c, env, s, p, id) && id in Unfinished(s)
    ensures id in p.s.waiting || id in p.s.skipped
  {
    RestParts(c, s);
    WaitingInvParts(c, env, total, p);
    ExactlyOneQueue(s, id);
    hide Rest, WaitingInv, Line, Partition, Books, AllPlanned, EnvOk, MustWait;
    assert id in Unfinished(p.s);
    StillQueued(p.s, p.stepSkipped, id);
  }

  /**
   * Under PRIORITY nobody jumps the line: whoever is admitted comes before all
   * those that still wait, except those that were set aside.
   */
  lemma NobodyJumps(c: Config, env: Env, s: State, d: Id, r: Id)
    requires Rest(c, s) && EnvOk(env, s) && c.priority
    requires var p := SchedulePass(c, env, s);
      d in p.order && d !in s.running && r in Unfinished(s) && r !in s.running && r !in p.order
    ensures var p := SchedulePass(c, env, s); Before(s, d, r) || Aside(c, env, s, p.s, p.loras, r)
  {
    hide Rest, RunningInv, Quiet, EnvOk, RunningLoop, WaitingLoop, PrevOk, Partition, WaitingInv, LorasOf, Unfinished,
         Line, Stuck, WaitingDone, Before, Start, Aside, Ranked, AsBefore, Requeue;
    RestParts(c, s);
    FirstLoop(c, env, s);
    FirstLoopFates(c, env, s);
    var p := RunningLoop(c, env, Start(c, s));
    var q := SecondStart(c, p);
    if p.preempted == [] && s.pause.Unpaused? {
      HandOver(c, env, s, p);
      LineStart(c, env, s);
      WaitingInvParts(c, env, Tokens(c, s), q);
      StartRanked(c, env, s);
      FramedSame(c, s, p.s, q.s);
      RankedLoop(c, env, s, q);
      WaitingLoopLine(c, env, s, Tokens(c, s), q);
      var last := WaitingLoop(c, env, q);
      RequeueFields(last);
      Reached(c, env, s, Tokens(c, s), last, d, r);
      if Aside(c, env, s, last.s, last.loras, r) {
        AsideRequeued(c, env, s, last, r);
      }
    }
  }

  lemma AsideRequeued(c: Config, env: Env, s: State, p: Pass, id: Id)
    requires Aside(c, env, s, p.s, p.loras, id)
    ensures Aside(c, env, s, Requeue(p).s, Requeue(p).loras, id)
  {
    assert AsBefore(p.s, Requeue(p).s, id);
    hide Reverse, Aside;
    AsideStays(c, env, s, p.s, Requeue(p).s, p.loras, p.loras, id);
  }
}
