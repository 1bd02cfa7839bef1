/** Which requests a step may schedule in each pause state, and that `get_num_unfinished_requests` counts them. */
module Eligibility {
  import opened Seqs
  import opened Requests
  import opened SchedulerSpec
  import opened QueuePartition
  import opened Frames
  import opened Accounting
  import opened ScheduleStep
  import opened Engine
  import opened EngineStep
  import opened Interventions
  import opened ReportStep
  import opened Streaming
  import opened StepCounts
  import opened WaitingLine
  import opened RequestFates

  ghost function RunningOf(s: State): set<Id> { set id | id in s.reqs && s.reqs[id].status == Running }

  /** Nobody while all are paused, only running requests while new ones are, else all but the sessions that await input. */
  ghost function Eligible(s: State): set<Id> {
    match s.pause
    case PausedAll => {}
    case PausedNew => RunningOf(s)
    case Unpaused => set id | id in s.reqs && !IsFinished(s.reqs[id].status) && s.reqs[id].status != WaitingForStreamingReq
  }

  lemma {:induction false} SizeOfIds(q: seq<Id>, ids: set<Id>)
    requires NoDup(q) && forall id :: id in q <==> id in ids
    ensures |ids| == |q|
  {
    if q == [] {
      assert ids == {};
    } else {
      var n := |q| - 1;
      assert q == q[..n] + [q[n]];
      assert q[n] !in q[..n];
      SizeOfIds(q[..n], ids - {q[n]});
    }
  }

  lemma RunningIds(s: State)
    requires Partition(s, [])
    ensures |s.running| == |RunningOf(s)|
  {
    RunningNoDup(s, []);
    forall id ensures id in s.running <==> id in RunningOf(s) {
      if id in s.running {
        RunningKnown(s, id);
      } else if id in RunningOf(s) {
        ExactlyOneQueue(s, id);
      }
    }
    SizeOfIds(s.running, RunningOf(s));
  }

  /** In every reachable state the number reported is that of the eligible requests. */
  lemma CountsTheEligible(c: Config, run: seq<Event>)
    requires LegalRun(c, INITIAL, run)
    ensures var s := After(c, INITIAL, run).s; NumUnfinished(s) == |Eligible(s)|
  {
    var e := After(c, INITIAL, run);
    CounterIsExact(c, run);
    InitialInv(c);
    hide EngineInv, After, LegalRun, Partition, NumUnfinished, Eligible, Unfinished, Awaiting;
    RunKeepsInv(c, INITIAL, run);
    InvParts(c, e);
    EligibleNow(e.s);
  }

  lemma EligibleNow(s: State)
    requires Partition(s, []) && (s.pause.Unpaused? ==> NumUnfinished(s) == |Unfinished(s) - Awaiting(s)|)
    ensures NumUnfinished(s) == |Eligible(s)|
  {
    RunningIds(s);
    hide Partition;
    if s.pause.Unpaused? {
      assert Unfinished(s) - Awaiting(s) == Eligible(s);
    }
  }

  lemma {:induction false} NothingGiven(order: seq<Id>, num: map<Id, int>)
    requires Sum(order, num) <= 0 && forall id :: id in order ==> Get(num, id) > 0
    ensures order == []
  {
    if order != [] {
      SomeGiven(order, num);
    }
  }

  lemma {:induction false} SomeGiven(order: seq<Id>, num: map<Id, int>)
    requires forall id :: id in order ==> Get(num, id) > 0
    ensures Sum(order, num) >= |order|
  {
    if order != [] {
      SomeGiven(order[..|order| - 1], num);
    }
  }

  lemma PausedGivesNothing(c: Config, s: State, p: Pass)
    requires Books(c, Tokens(c, s), p) && s.pause.PausedAll?
    ensures p.order == []
  {
    NothingGiven(p.order, p.num);
  }

  lemma OnlyEligible(c: Config, env: Env, s: State, id: Id)
    requires Rest(c, s) && EnvOk(env, s) && id in SchedulePass(c, env, s).order
    ensures id in Eligible(s)
  {
    hide Rest, EnvOk, SchedulePass, PassOk, Ran, NoneAdmitted, WaitingFate, Partition, Books, Eligible, Unfinished, Framed;
    var p := SchedulePass(c, env, s);
    RestParts(c, s);
    SchedulePassOk(c, env, s);
    PassOkParts(c, s, p);
    ScheduleFates(c, env, s);
    if s.pause.PausedAll? {
      PausedGivesNothing(c, s, p);
    } else {
      RunsAfter(c, s, p, id);
      if id in s.running {
        RunningEligible(s, id);
      } else {
        AdmittedEligible(c, env, s, p, id);
      }
    }
  }

  lemma RunsAfter(c: Config, s: State, p: Pass, id: Id)
    requires Partition(p.s, []) && Books(c, Tokens(c, s), p) && Framed(c, s, p.s) && id in p.order
    ensures id in Unfinished(s)
  {
    RunningKnown(p.s, id);
    assert id in s.reqs.Keys && Touched(c, s.reqs[id], p.s.reqs[id]);
  }

  lemma RunningEligible(s: State, id: Id)
    requires Partition(s, []) && id in s.running && !s.pause.PausedAll?
    ensures id in Eligible(s)
  {
    RunningKnown(s, id);
  }

  lemma AdmittedEligible(c: Config, env: Env, s: State, p: Pass, id: Id)
    requires id in p.order && id !in s.running && id in Unfinished(s)
    requires p.preempted != [] || !s.pause.Unpaused? ==> NoneAdmitted(s, p)
    requires p.preempted == [] && s.pause.Unpaused? ==> WaitingFate(c, env, s, p, id)
    ensures id in Eligible(s)
  {
    hide LoadsNow, Undecided, Woken, Base;
  }

  /** In every step of every run, whoever is scheduled was eligible. */
  lemma ScheduledWereEligible(c: Config, run: seq<Event>, env: Env, id: Id)
    requires LegalRun(c, INITIAL, run) && Legal(c, After(c, INITIAL, run), Event.Step(env))
    requires id in SchedulePass(c, env, After(c, INITIAL, run).s).order
    ensures id in Eligible(After(c, INITIAL, run).s)
  {
    hide EngineInv, LegalRun, After, Legal, SchedulePass, Eligible, Rest, EnvOk;
    InitialInv(c);
    RunKeepsInv(c, INITIAL, run);
    StepParts(c, After(c, INITIAL, run), env);
    AtRest(c, After(c, INITIAL, run));
    OnlyEligible(c, env, After(c, INITIAL, run).s, id);
  }
}
