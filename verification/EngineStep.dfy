/** `schedule` keeps the engine invariant and launches what it planned. */
module EngineStep {
  import opened Seqs
  import opened Requests
  import opened SchedulerSpec
  import opened QueuePartition
  import opened Frames
  import opened Accounting
  import opened Planning
  import opened Admission
  import opened ScheduleStep
  import opened Engine

  /** Only the listed parts of the state decide about partition, status and readiness. */
  ghost predicate SameStatuses(s: State, t: State) {
    && t.reqs.Keys == s.reqs.Keys
    && forall id {:trigger t.reqs[id]} {:trigger s.reqs[id]} :: id in s.reqs ==> t.reqs[id].status == s.reqs[id].status
  }

  lemma PartitionByStatus(s: State, t: State)
    requires Partition(s, []) && SameStatuses(s, t)
    requires t.running == s.running && t.waiting == s.waiting && t.skipped == s.skipped
    ensures Partition(t, [])
  {
    assert Unfinished(t) == Unfinished(s);
    assert forall x :: At(t, x).status == At(s, x).status;
  }

  lemma WrittenKv(kv: seq<Token>, v: View, n: int, d: seq<Token>)
    requires 0 <= v.computed && 0 < n && v.computed + n <= |v.all| + |d| && v.computed <= |v.all|
    requires v.computed > 0 ==> v.computed <= |kv| && Take(kv, v.computed) == Take(v.all, v.computed)
    ensures var w := WriteKv(kv, v, n, d);
            |w| == v.computed + n && Take(w, v.computed + n) == Take(v.all + d, v.computed + n)
  {
    var w, all := WriteKv(kv, v, n, d), v.all + d;
    assert Take(v.all, v.computed) == all[..v.computed];
    assert all[..v.computed + n] == all[..v.computed] + all[v.computed..v.computed + n];
    assert w[..v.computed + n] == w;
  }

  /** What `_update_after_schedule` turns a planned request into. */
  lemma Launched(c: Config, v: View, n: int, d: seq<Token>)
    requires Ready(c, v) && Planned(v, n, d)
    ensures Flying(c, Advance(v, n), n, d)
  {
  }

  lemma AfterScheduleViews(c: Config, p: Pass, total: int)
    requires Books(c, total, p) && AllPlanned(p) && AllReady(c, p.s)
    ensures var t := AfterSchedule(p.s, p.order, p.num, p.specs);
            && t.reqs.Keys == p.s.reqs.Keys
            && (forall id :: id in p.order ==>
                  id in t.reqs && Flying(c, t.reqs[id], Get(p.num, id), Drafts(p.specs, id))
                  && t.reqs[id] == Advance(p.s.reqs[id], p.num[id]))
            && (forall id :: id in t.reqs && id !in p.order ==> t.reqs[id] == p.s.reqs[id])
            && SameStatuses(p.s, t)
  {
    hide Planned, Ready, Flying, Advance, WriteKv;
    var t := AfterSchedule(p.s, p.order, p.num, p.specs);
    forall id | id in p.order ensures
      id in t.reqs && Flying(c, t.reqs[id], Get(p.num, id), Drafts(p.specs, id))
      && t.reqs[id] == Advance(p.s.reqs[id], p.num[id]) && t.reqs[id].status == p.s.reqs[id].status
    {
      Launched(c, p.s.reqs[id], p.num[id], Drafts(p.specs, id));
      AdvanceStatus(p.s.reqs[id], p.num[id]);
    }
  }

  lemma AdvanceStatus(v: View, n: int)
    ensures Advance(v, n).status == v.status
  {
  }

  lemma LaunchedKv(c: Config, p: Pass, total: int, id: Id)
    requires Books(c, total, p) && AllPlanned(p) && AllReady(c, p.s) && AllKv(p.s) && id in p.order
    ensures var t := AfterSchedule(p.s, p.order, p.num, p.specs);
      id in t.reqs && FlyingKv(t, id, Drafts(p.specs, id))
  {
    hide WriteKv, Drafts;
    var v := p.s.reqs[id];
    assert Planned(v, p.num[id], Drafts(p.specs, id)) && Ready(c, v) && KvReady(p.s, id);
    WrittenKv(p.s.kv[id], v, p.num[id], Drafts(p.specs, id));
  }

  lemma AfterScheduleKv(c: Config, p: Pass, total: int)
    requires Books(c, total, p) && AllPlanned(p) && AllReady(c, p.s) && AllKv(p.s)
    ensures var t := AfterSchedule(p.s, p.order, p.num, p.specs);
            && (forall id :: id in p.order ==> id in t.reqs && FlyingKv(t, id, Drafts(p.specs, id)))
            && (forall id :: id in t.reqs && id !in p.order ==> KvReady(t, id))
  {
    hide WriteKv, Drafts;
    var t := AfterSchedule(p.s, p.order, p.num, p.specs);
    forall id | id in p.order ensures id in t.reqs && FlyingKv(t, id, Drafts(p.specs, id)) {
      LaunchedKv(c, p, total, id);
    }
    forall id | id in t.reqs && id !in p.order ensures KvReady(t, id) {
      assert KvReady(p.s, id) && id !in p.num;
    }
  }

  lemma AtRest(c: Config, e: Engine)
    requires EngineInv(c, e) && e.pending.None?
    ensures Rest(c, e.s)
  {
    forall id | id in e.s.reqs ensures Ready(c, e.s.reqs[id]) && KvReady(e.s, id) {
      assert RequestOk(c, e, id);
    }
  }

  /** Right after `schedule`: everything planned is in flight, the rest is at rest. */
  lemma LaunchedRequests(c: Config, e: Engine, p: Pass, total: int)
    requires Books(c, total, p) && AllPlanned(p) && AllReady(c, p.s) && AllKv(p.s)
    requires e.s == AfterSchedule(p.s, p.order, p.num, p.specs) && e.pending == Some(OutputOf(p))
    ensures forall id :: id in e.s.reqs ==> RequestOk(c, e, id)
    ensures SameStatuses(p.s, e.s)
  {
    AfterScheduleViews(c, p, total);
    AfterScheduleKv(c, p, total);
    hide AfterSchedule, Books, AllPlanned, Flying, KvReady, FlyingKv, Drafts, Get;
    forall id | id in e.s.reqs ensures RequestOk(c, e, id) {
      if id in p.order {
        assert Flying(c, e.s.reqs[id], Get(p.num, id), Drafts(p.specs, id));
        FlyingUnfinished(c, e.s.reqs[id], Get(p.num, id), Drafts(p.specs, id));
      } else {
        assert Ready(c, p.s.reqs[id]);
      }
    }
  }

  lemma FlyingUnfinished(c: Config, v: View, n: int, d: seq<Token>)
    requires Flying(c, v, n, d)
    ensures !IsFinished(v.status)
  {
  }

  lemma LaunchedPrev(c: Config, p: Pass, total: int)
    requires Books(c, total, p) && AllPlanned(p) && AllReady(c, p.s)
    ensures PrevOk(AfterSchedule(p.s, p.order, p.num, p.specs))
  {
    AfterScheduleViews(c, p, total);
    hide Flying, Books, WriteKv;
    var t := AfterSchedule(p.s, p.order, p.num, p.specs);
    forall id | id in t.prev && id in t.reqs ensures NotResumable(t.reqs[id]) {
      assert id in p.order;
      FlyingStatus(c, t.reqs[id], Get(p.num, id), Drafts(p.specs, id));
    }
  }

  lemma FlyingStatus(c: Config, v: View, n: int, d: seq<Token>)
    requires Flying(c, v, n, d)
    ensures v.status == Running
  {
  }

  lemma LaunchedLoads(c: Config, s: State, p: Pass, total: int)
    requires Books(c, total, p) && AllPlanned(p) && AllReady(c, p.s) && Framed(c, s, p.s) && LoadsOk(c, s)
    ensures LoadsOk(c, AfterSchedule(p.s, p.order, p.num, p.specs))
  {
    var t := AfterSchedule(p.s, p.order, p.num, p.specs);
    AfterScheduleViews(c, p, total);
    LoadingsKept(c, p, total);
    NoLoads(c, s, p.s);
    hide Books, AllPlanned, AllReady, Framed, AfterSchedule, Flying, Advance;
  }

  /** Nobody who is loading is scheduled, so loads stay as they are. */
  lemma LoadingsKept(c: Config, p: Pass, total: int)
    requires Books(c, total, p) && AllPlanned(p) && AllReady(c, p.s)
    ensures var t := AfterSchedule(p.s, p.order, p.num, p.specs);
            && t.recvFailed == p.s.recvFailed
            && (forall id :: id in t.recvFailed ==>
                  id in p.s.reqs && id !in p.order && p.s.reqs[id].status == WaitingForRemoteKvs
                  && p.s.reqs[id].computed < |p.s.reqs[id].all|)
  {
    hide WriteKv, Drafts, Advance, Ready;
  }

  lemma NoLoads(c: Config, s: State, t: State)
    requires Framed(c, s, t) && LoadsOk(c, s)
    ensures !c.connector ==> forall id :: id in t.reqs ==> t.reqs[id].status != WaitingForRemoteKvs
  {
    if !c.connector {
      forall id | id in t.reqs ensures t.reqs[id].status != WaitingForRemoteKvs {
        assert Touched(c, s.reqs[id], t.reqs[id]);
      }
    }
  }

  lemma PassOkParts(c: Config, s: State, p: Pass)
    requires PassOk(c, s, p)
    ensures Partition(p.s, []) && Books(c, Tokens(c, s), p) && AllReady(c, p.s) && AllKv(p.s) && AllPlanned(p)
    ensures Framed(c, s, p.s) && |p.s.running| <= c.maxRunning
  {
  }

  lemma AfterScheduleQueues(c: Config, p: Pass)
    ensures var t := AfterSchedule(p.s, p.order, p.num, p.specs);
      t.running == p.s.running && t.waiting == p.s.waiting && t.skipped == p.s.skipped && t.reqs.Keys == p.s.reqs.Keys
  {
  }

  lemma StepKeepsInv(c: Config, e: Engine, env: Env)
    requires EngineInv(c, e) && Legal(c, e, Event.Step(env))
    ensures EngineInv(c, Next(c, e, Event.Step(env)))
  {
    AtRest(c, e);
    var p := SchedulePass(c, env, e.s);
    StepParts(c, e, env);
    hide EngineInv, Legal;
    var f := e.(s := AfterSchedule(p.s, p.order, p.num, p.specs), pending := Some(OutputOf(p)));
    assert Next(c, e, Event.Step(env)) == f by { StepNext(c, e, env); }
    hide Rest, SchedulePass, PassOk, Books, AllPlanned, AllReady, AllKv, Framed, AfterSchedule, Next, RequestOk, Partition,
         LoadsOk, PrevOk, EnvOk, PendingOk, OutputOf;
    SchedulePassOk(c, env, e.s);
    PassOkParts(c, e.s, p);
    LaunchedRequests(c, f, p, Tokens(c, e.s));
    LaunchedPrev(c, p, Tokens(c, e.s));
    LaunchedLoads(c, e.s, p, Tokens(c, e.s));
    AfterScheduleQueues(c, p);
    PartitionByStatus(p.s, f.s);
    FramedKeys(c, e.s, p.s);
    LaunchedOutput(c, Tokens(c, e.s), p, f);
    Whole(c, f);
  }

  lemma StepParts(c: Config, e: Engine, env: Env)
    requires EngineInv(c, e) && Legal(c, e, Event.Step(env))
    ensures EnvOk(env, e.s) && LoadsOk(c, e.s) && e.pending.None? && forall id :: id in e.s.reqs ==> id in e.seen
  {
  }

  lemma StepNext(c: Config, e: Engine, env: Env)
    ensures var p := SchedulePass(c, env, e.s);
      Next(c, e, Event.Step(env)) ==
        e.(s := AfterSchedule(p.s, p.order, p.num, p.specs), pending := Some(OutputOf(p)))
  {
  }

  lemma Whole(c: Config, e: Engine)
    requires Partition(e.s, []) && |e.s.running| <= c.maxRunning && PrevOk(e.s) && LoadsOk(c, e.s) && PendingOk(e)
    requires forall id :: id in e.s.reqs ==> RequestOk(c, e, id) && id in e.seen
    ensures EngineInv(c, e)
  {
  }

  lemma LaunchedOutput(c: Config, total: int, p: Pass, e: Engine)
    requires Books(c, total, p) && AllPlanned(p) && e.pending == Some(OutputOf(p))
    requires forall id :: id in p.s.reqs ==> id in e.seen
    ensures PendingOk(e)
  {
  }

  lemma FramedKeys(c: Config, s: State, t: State)
    requires Framed(c, s, t)
    ensures s.reqs.Keys == t.reqs.Keys
  {
  }

  /**
   * Main result on accounting: whatever the other components answer, the output
   * of `schedule` hands out at most the token budget, each count is positive,
   * nobody appears twice, nobody is both scheduled and preempted, encoder
   * embeds stay within their budget, and a resumed request was not scheduled
   * in the previous step.
   */
  lemma ScheduleBalances(c: Config, e: Engine, env: Env)
    requires EngineInv(c, e) && Legal(c, e, Event.Step(env))
    ensures var p := SchedulePass(c, env, e.s);
            var out := OutputOf(p);
            && p.budget >= 0
            && (!e.s.pause.PausedAll? ==> p.budget + Sum(out.order, out.num) == c.maxScheduled)
            && (e.s.pause.PausedAll? ==> out.order == [])
            && NoDup(out.order)
            && (forall id :: id in out.num <==> id in out.order)
            && (forall id :: id in out.order ==> out.num[id] > 0 && id !in out.preempted)
            && p.encBudget >= 0 && p.encBudget + Sum(out.order, p.encs) <= c.maxEncoder
            && (forall id :: id in out.resumed ==> id in out.order && id !in e.s.prev)
            && |p.s.running| <= c.maxRunning && !p.invalid
  {
    AtRest(c, e);
    SchedulePassOk(c, env, e.s);
    var p := SchedulePass(c, env, e.s);
    hide Partition, SchedulePass, Sound, Framed, Rest, EnvOk, EngineInv, Legal;
    if e.s.pause.PausedAll? && p.order != [] {
      SumPositive(p.order, p.num);
    }
  }

  lemma {:induction false} SumPositive(keys: seq<Id>, m: map<Id, int>)
    requires keys != [] && forall k :: k in keys ==> Get(m, k) > 0
    ensures Sum(keys, m) > 0
  {
    if |keys| == 1 {
      assert keys[..0] == [];
    } else {
      SumPositive(keys[..|keys| - 1], m);
    }
  }

  /** "Invalid request status" cannot be raised, and everything scheduled is running afterwards. */
  lemma ScheduledAreRunning(c: Config, e: Engine, env: Env)
    requires EngineInv(c, e) && Legal(c, e, Event.Step(env))
    ensures var out := OutputOf(SchedulePass(c, env, e.s));
            var s := Schedule(c, env, e.s);
            && (forall id :: id in out.order ==> id in s.running && id in s.reqs && s.reqs[id].status == Running)
            && |out.order| <= |s.running|
  {
    AtRest(c, e);
    SchedulePassOk(c, env, e.s);
    var p := SchedulePass(c, env, e.s);
    AfterScheduleQueues(c, p);
    PassOkParts(c, e.s, p);
    StepKeepsInv(c, e, env);
    var f := Next(c, e, Event.Step(env));
    assert Partition(f.s, []);
    hide SchedulePass, Sound, Framed, Rest, EnvOk, EngineInv, Legal, AfterSchedule, AllReady, AllKv, AllPlanned;
    forall id | id in p.order ensures id in f.s.running && id in f.s.reqs && f.s.reqs[id].status == Running {
      RunningKnown(f.s, id);
    }
    SubsetLength(p.order, f.s.running);
  }

  lemma {:induction false} SubsetLength<T>(a: seq<T>, b: seq<T>)
    requires NoDup(a) && forall x :: x in a ==> x in b
    ensures |a| <= |b|
  {
    if a != [] {
      var n := |a| - 1;
      var x := a[n];
      assert x in a && x in b;
      var k :| 0 <= k < |b| && b[k] == x;
      forall y | y in a[..n] ensures y in RemoveAt(b, k) {
        assert y in a && y in b;
        var i :| 0 <= i < |b| && b[i] == y;
        assert RemoveAt(b, k)[if i < k then i else i - 1] == y;
      }
      SubsetLength(a[..n], RemoveAt(b, k));
    }
  }
}
