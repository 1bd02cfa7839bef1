/**
 * Runs of the engine together with the tool-call hook. Other threads call the
 * hook at any time, also in the middle of a step; the calls that the scheduler
 * makes itself are those of the requests it comes across.
 */
module ToolRuns {
  import opened Requests
  import opened SchedulerSpec
  import opened QueuePartition
  import opened Frames
  import opened Accounting
  import opened Planning
  import opened Admission
  import opened ScheduleStep
  import opened Engine
  import opened EngineStep
  import opened ReportStep
  import opened ToolWait
  import H = ToolCallHook

  // ----------------------------------------------------------- what the scheduler asks the hook

  /** `_try_promote_blocked_waiting_request`: look for a response, and resume if there is one. */
  function HeadCalls(env: Env, s: State, id: Id): seq<H.Call> {
    if !Waits(s, id) then []
    else [H.Call.Look(id)] + (if id in env.toolReady then [H.Call.Resume(id)] else [])
  }

  function LoopCalls(c: Config, env: Env, p: Pass): seq<H.Call>
    decreases !p.stop, |p.s.waiting| + |p.s.skipped|
  {
    if WaitingDone(c, p) then []
    else HeadCalls(env, p.s, Peek(c, p.s)) + LoopCalls(c, env, WaitingStep(c, env, p))
  }

  /** The calls of one step, in order. */
  function StepCalls(c: Config, env: Env, s: State): seq<H.Call> {
    var p := RunningLoop(c, env, Start(c, s));
    if p.preempted == [] && s.pause.Unpaused?
    then LoopCalls(c, env, p.(stop := false, loras := if c.lora then LorasOf(p.s, p.order) else {}))
    else []
  }

  /** `id` is known and does not wait for a tool call. */
  predicate Moved(s: State, id: Id) { id in s.reqs && s.reqs[id].status != WaitingForToolCall }

  lemma {:induction false} NotLooked(c: Config, env: Env, p: Pass, id: Id)
    requires Partition(p.s, p.stepSkipped) && Off(p, id) && H.Call.Look(id) !in LoopCalls(c, env, p)
    ensures Off(WaitingLoop(c, env, p), id)
    decreases !p.stop, |p.s.waiting| + |p.s.skipped|
  {
    if !WaitingDone(c, p) {
      var q := WaitingStep(c, env, p);
      assert H.Call.Look(id) !in HeadCalls(env, p.s, Peek(c, p.s));
      hide Partition, Peek, WaitingStep;
      WaitingStepOthers(c, env, p, id);
      WaitingStepKeeps(c, env, p);
      NotLooked(c, env, q, id);
    }
  }

  /** With a response, the head stops waiting for it. */
  lemma HeadMoves(c: Config, env: Env, p: Pass)
    requires Partition(p.s, p.stepSkipped) && !WaitingDone(c, p)
    requires Waits(p.s, Peek(c, p.s)) ==> Peek(c, p.s) in env.toolReady
    ensures Moved(WaitingStep(c, env, p).s, Peek(c, p.s))
  {
    var head := Peek(c, p.s);
    HeadIsQueued(c, p.s, p.stepSkipped);
    ConsiderState(c, env, p, head);
    assert Waits(p.s, head) ==> Promote(env, p.s, head).Some?;
    PromoteFacts(env, p.s, head);
    var ch := Consider(c, env, p, head);
    hide Partition, Peek, Consider, Promote, Apply;
    ApplyView(c, p, head, ch);
  }

  lemma {:induction false} MovedStays(c: Config, env: Env, p: Pass, id: Id)
    requires Partition(p.s, p.stepSkipped) && Moved(p.s, id)
    ensures Moved(WaitingLoop(c, env, p).s, id)
    decreases !p.stop, |p.s.waiting| + |p.s.skipped|
  {
    hide Partition, WaitingStep, Peek;
    if !WaitingDone(c, p) {
      if id == Peek(c, p.s) {
        HeadMoves(c, env, p);
      } else {
        WaitingStepOthers(c, env, p, id);
      }
      WaitingStepKeeps(c, env, p);
      MovedStays(c, env, WaitingStep(c, env, p), id);
    }
  }

  lemma {:induction false} LookedAndReady(c: Config, env: Env, p: Pass, id: Id)
    requires Partition(p.s, p.stepSkipped) && Off(p, id)
    requires H.Call.Look(id) in LoopCalls(c, env, p) && id in env.toolReady
    ensures Moved(WaitingLoop(c, env, p).s, id)
    decreases !p.stop, |p.s.waiting| + |p.s.skipped|
  {
    var q := WaitingStep(c, env, p);
    var head := Peek(c, p.s);
    hide Partition, WaitingStep, Peek;
    WaitingStepKeeps(c, env, p);
    if id == head {
      HeadMoves(c, env, p);
      MovedStays(c, env, q, id);
    } else {
      assert H.Call.Look(id) !in HeadCalls(env, p.s, head);
      WaitingStepOthers(c, env, p, id);
      LookedAndReady(c, env, q, id);
    }
  }

  lemma LookedHead(env: Env, s: State, head: Id, id: Id)
    requires id in env.toolReady
    ensures H.Call.Look(id) in HeadCalls(env, s, head) ==>
      HeadCalls(env, s, head) == [H.Call.Look(id), H.Call.Resume(id)]
  {
  }

  lemma LoopCallsFrom(c: Config, env: Env, p: Pass)
    requires LoopCalls(c, env, p) != []
    ensures !WaitingDone(c, p) && (p.s.waiting != [] || p.s.skipped != [])
    ensures LoopCalls(c, env, p) == HeadCalls(env, p.s, Peek(c, p.s)) + LoopCalls(c, env, WaitingStep(c, env, p))
    ensures var q := WaitingStep(c, env, p);
      !p.stop && (q.stop || |q.s.waiting| + |q.s.skipped| < |p.s.waiting| + |p.s.skipped|)
  {
    hide HeadCalls, Peek;
  }

  predicate Answered(calls: seq<H.Call>, a: nat, id: Id) {
    a + 1 < |calls| && calls[a] == H.Call.Look(id) && calls[a + 1] == H.Call.Resume(id)
  }

  lemma AnsweredIn(head: seq<H.Call>, rest: seq<H.Call>, b: nat, id: Id)
    ensures head == [H.Call.Look(id), H.Call.Resume(id)] ==> Answered(head + rest, 0, id)
    ensures Answered(rest, b, id) ==> Answered(head + rest, |head| + b, id)
  {
  }

  /** A look that finds a response is followed by the resume. */
  lemma {:induction false} LookThenResume(c: Config, env: Env, p: Pass, id: Id) returns (a: nat)
    requires H.Call.Look(id) in LoopCalls(c, env, p) && id in env.toolReady
    ensures Answered(LoopCalls(c, env, p), a, id)
    decreases !p.stop, |p.s.waiting| + |p.s.skipped|
  {
    hide WaitingStep, WaitingDone, HeadCalls, LoopCalls, Peek, Answered;
    LoopCallsFrom(c, env, p);
    var head, q := HeadCalls(env, p.s, Peek(c, p.s)), WaitingStep(c, env, p);
    LookedHead(env, p.s, Peek(c, p.s), id);
    a := 0;
    if H.Call.Look(id) !in head {
      var b := LookThenResume(c, env, q, id);
      a := |head| + b;
      AnsweredIn(head, LoopCalls(c, env, q), b, id);
    }
    AnsweredIn(head, LoopCalls(c, env, q), 0, id);
  }

  /** In one call of `schedule`, a waiting request is woken exactly if it is looked at and there is a response. */
  lemma PassMoves(c: Config, env: Env, s: State, id: Id)
    requires Rest(c, s) && EnvOk(env, s) && Waits(s, id)
    ensures var woken := H.Call.Look(id) in StepCalls(c, env, s) && id in env.toolReady;
      if woken then Moved(SchedulePass(c, env, s).s, id) else Off(SchedulePass(c, env, s), id)
  {
    hide Rest, RunningInv, Quiet, EnvOk, RunningLoop, WaitingLoop, LoopCalls, Framed, PrevOk, Partition, WaitingInv, Start,
         LorasOf, AllReady, AllKv, Off;
    RestParts(c, s);
    FirstLoop(c, env, s);
    StartOff(c, s, id);
    RunningLoopOff(c, env, Start(c, s), id);
    var p := RunningLoop(c, env, Start(c, s));
    var q := SecondStart(c, p);
    if p.preempted == [] {
      HandOver(c, env, s, p);
      WaitingInvAll(c, env, Tokens(c, s), q);
      OffElsewhere(p, q, id);
      var r := WaitingLoop(c, env, q);
      if id !in env.toolReady {
        WaitingLoopOff(c, env, q, id);
        RequeueOff(r, id);
      } else if H.Call.Look(id) in LoopCalls(c, env, q) {
        LookedAndReady(c, env, q, id);
      } else {
        NotLooked(c, env, q, id);
        RequeueOff(r, id);
      }
    }
  }

  lemma MovedAdvance(p: Pass, id: Id)
    requires Moved(p.s, id)
    ensures Moved(AfterSchedule(p.s, p.order, p.num, p.specs), id)
  {
    hide WriteKv;
  }

  lemma StepMoves(c: Config, e: Engine, env: Env, id: Id)
    requires EngineInv(c, e) && Legal(c, e, Event.Step(env)) && Waits(e.s, id)
    ensures var woken := H.Call.Look(id) in StepCalls(c, env, e.s) && id in env.toolReady;
            var t := Next(c, e, Event.Step(env)).s;
      if woken then Moved(t, id) else Waits(t, id)
  {
    hide EngineInv, Legal, Rest, EnvOk, SchedulePass, StepCalls, Next, Off, AfterSchedule, Waits, Moved;
    StepParts(c, e, env);
    AtRest(c, e);
    StepNext(c, e, env);
    PassMoves(c, env, e.s, id);
    if H.Call.Look(id) in StepCalls(c, env, e.s) && id in env.toolReady {
      MovedAdvance(SchedulePass(c, env, e.s), id);
    } else {
      OffAdvance(SchedulePass(c, env, e.s), id);
    }
  }

  // --------------------------------------------------------------------------------- joint runs

  /** A call of the hook, and whether the scheduler made it. */
  datatype Made = Made(call: H.Call, own: bool)

  function Calls(ms: seq<Made>): seq<H.Call> {
    if ms == [] then [] else Calls(ms[..|ms| - 1]) + [ms[|ms| - 1].call]
  }

  /** The scheduler's own calls. */
  function Own(ms: seq<Made>): seq<H.Call> {
    if ms == [] then []
    else
      var n := |ms| - 1;
      Own(ms[..n]) + (if ms[n].own then [ms[n].call] else [])
  }

  datatype Joint = Joint(e: Engine, made: seq<Made>)

  const START := Joint(INITIAL, [])

  /** Another thread calls the hook; or the engine does something, and all the while the hook is called. */
  datatype Happening = Elsewhere(call: H.Call) | Here(ev: Event, during: seq<Made>)

  /** What the scheduler saw at its looks is what the hook held at these moments. */
  ghost predicate SawRight(before: seq<Made>, during: seq<Made>, ready: set<Id>) {
    forall j :: 0 <= j < |during| && during[j].own && during[j].call.Look? ==>
      var id := during[j].call.id;
      id in ready <==> id in H.Replay(Calls(before + during[..j])).responses
  }

  ghost predicate LegalHappening(c: Config, x: Joint, h: Happening) {
    match h
    case Elsewhere(call) => true
    case Here(ev, during) =>
      && Legal(c, x.e, ev)
      && Own(during) == (if ev.Step? then StepCalls(c, ev.env, x.e.s) else [])
      && (ev.Step? ==> SawRight(x.made, during, ev.env.toolReady))
  }

  function NextJoint(c: Config, x: Joint, h: Happening): Joint {
    match h
    case Elsewhere(call) => x.(made := x.made + [Made(call, false)])
    case Here(ev, during) => Joint(Next(c, x.e, ev), x.made + during)
  }

  function AfterAll(c: Config, hs: seq<Happening>): Joint {
    if hs == [] then START else NextJoint(c, AfterAll(c, hs[..|hs| - 1]), hs[|hs| - 1])
  }

  ghost predicate LegalJointRun(c: Config, hs: seq<Happening>) {
    hs == [] ||
    (LegalJointRun(c, hs[..|hs| - 1]) && LegalHappening(c, AfterAll(c, hs[..|hs| - 1]), hs[|hs| - 1]))
  }

  /** So the engine is in a reachable state of its own. */
  lemma {:induction false} JointInv(c: Config, hs: seq<Happening>)
    requires LegalJointRun(c, hs)
    ensures EngineInv(c, AfterAll(c, hs).e)
  {
    hide EngineInv, Legal, Next, StepCalls, Own, SawRight;
    if hs == [] {
      InitialInv(c);
    } else {
      var n := |hs| - 1;
      JointInv(c, hs[..n]);
      if hs[n].Here? {
        NextKeepsInv(c, AfterAll(c, hs[..n]).e, hs[n].ev);
      }
    }
  }

  lemma {:induction false} OwnMember(ms: seq<Made>, call: H.Call)
    ensures call in Own(ms) <==> exists j :: 0 <= j < |ms| && ms[j] == Made(call, true)
  {
    if ms != [] {
      var n := |ms| - 1;
      OwnMember(ms[..n], call);
      assert forall j :: 0 <= j < n ==> ms[..n][j] == ms[j];
    }
  }

  lemma {:induction false} OwnAt(ms: seq<Made>, a: nat) returns (j: nat)
    requires a < |Own(ms)|
    ensures j < |ms| && ms[j] == Made(Own(ms)[a], true) && Own(ms[..j]) == Own(ms)[..a]
  {
    var n := |ms| - 1;
    if a == |Own(ms)| - 1 && ms[n].own {
      j := n;
    } else {
      j := OwnAt(ms[..n], a);
      assert ms[..n][..j] == ms[..j];
    }
  }

  /** Own calls are made in their order. */
  lemma OwnOrder(ms: seq<Made>, a: nat) returns (j: nat, k: nat)
    requires a + 1 < |Own(ms)|
    ensures j < k < |ms| && ms[j] == Made(Own(ms)[a], true) && ms[k] == Made(Own(ms)[a + 1], true)
  {
    k := OwnAt(ms, a + 1);
    assert Own(ms[..k])[a] == Own(ms)[..a + 1][a];
    j := OwnAt(ms[..k], a);
  }

  /** The scheduler looked for a response to `id`, and there was one that nobody had consumed. */
  ghost predicate Found(x: Joint, during: seq<Made>, j: nat, id: Id) {
    j < |during| && during[j] == Made(H.Call.Look(id), true) && H.Pending(Calls(x.made + during[..j]), id)
  }

  lemma FoundIffReady(x: Joint, during: seq<Made>, ready: set<Id>, j: nat, id: Id)
    requires SawRight(x.made, during, ready) && j < |during| && during[j] == Made(H.Call.Look(id), true)
    ensures Found(x, during, j, id) <==> id in ready
  {
    hide H.Replay, H.Pending, Calls;
    H.ResponseVisible(Calls(x.made + during[..j]), id);
    assert during[j].own && during[j].call.Look?;
  }

  /**
   * In every step of every joint run, a request that waits for a tool call
   * stops waiting exactly if the scheduler looks at it at a moment when a
   * response is pending.
   */
  lemma WokenIff(c: Config, hs: seq<Happening>, env: Env, during: seq<Made>, id: Id)
    requires LegalJointRun(c, hs) && Waits(AfterAll(c, hs).e.s, id)
    requires LegalHappening(c, AfterAll(c, hs), Here(Event.Step(env), during))
    ensures var x := AfterAll(c, hs);
            var t := NextJoint(c, x, Here(Event.Step(env), during)).e.s;
      if exists j :: Found(x, during, j, id) then Moved(t, id) else Waits(t, id)
  {
    hide EngineInv, Legal, Next, StepCalls, Own, SawRight, Waits, Moved, Found, LegalJointRun, AfterAll;
    JointInv(c, hs);
    var x := AfterAll(c, hs);
    StepMoves(c, x.e, env, id);
    OwnMember(during, H.Call.Look(id));
    forall j: nat | j < |during| && during[j] == Made(H.Call.Look(id), true)
      ensures Found(x, during, j, id) <==> id in env.toolReady
    {
      FoundIffReady(x, during, env.toolReady, j, id);
    }
    if exists j :: Found(x, during, j, id) {
      var j :| Found(x, during, j, id);
      FoundLook(x, during, j, id);
    }
  }

  lemma FoundLook(x: Joint, during: seq<Made>, j: nat, id: Id)
    requires Found(x, during, j, id)
    ensures j < |during| && during[j] == Made(H.Call.Look(id), true)
  {
  }

  /** Whatever happens in a joint run, this is the only way to stop waiting without ending. */
  lemma WokenOnlyThere(c: Config, hs: seq<Happening>, h: Happening, id: Id)
    requires LegalJointRun(c, hs) && LegalHappening(c, AfterAll(c, hs), h) && Waits(AfterAll(c, hs).e.s, id)
    requires !WaitsOrEnds(NextJoint(c, AfterAll(c, hs), h).e.s, id)
    ensures h.Here? && h.ev.Step? && exists j :: Found(AfterAll(c, hs), h.during, j, id)
  {
    hide EngineInv, Legal, Next, StepCalls, Own, SawRight, Found, LegalJointRun, AfterAll;
    JointInv(c, hs);
    var x := AfterAll(c, hs);
    if h.Here? {
      NextWaits(c, x.e, h.ev, id);
      if h.ev.Step? {
        WokenIff(c, hs, h.ev.env, h.during, id);
      }
    }
  }

  lemma {:induction false} CallsAt(ms: seq<Made>)
    ensures |Calls(ms)| == |ms| && forall k :: 0 <= k < |ms| ==> Calls(ms)[k] == ms[k].call
  {
    if ms != [] {
      CallsAt(ms[..|ms| - 1]);
    }
  }

  /**
   * Waking consumes the response: the scheduler resumes after it found it, and
   * a response that is pending after the step was submitted after that.
   */
  lemma WakingConsumes(c: Config, hs: seq<Happening>, env: Env, during: seq<Made>, id: Id) returns (j: nat, k: nat)
    requires LegalJointRun(c, hs) && Waits(AfterAll(c, hs).e.s, id)
    requires LegalHappening(c, AfterAll(c, hs), Here(Event.Step(env), during))
    requires !Waits(NextJoint(c, AfterAll(c, hs), Here(Event.Step(env), during)).e.s, id)
    ensures var x := AfterAll(c, hs);
      && j < k < |during| && Found(x, during, j, id) && during[k] == Made(H.Call.Resume(id), true)
      && (H.Pending(Calls(x.made + during), id) ==> exists l :: k < l < |during| && during[l].call == H.Call.Submit(id))
  {
    hide EngineInv, Legal, Next, Own, SawRight, Waits, Moved, Found, LegalJointRun, AfterAll, RunningLoop, LoopCalls, Start, LorasOf;
    JointInv(c, hs);
    var x := AfterAll(c, hs);
    StepMoves(c, x.e, env, id);
    var p := RunningLoop(c, env, Start(c, x.e.s));
    var a := LookThenResume(c, env, p.(stop := false, loras := if c.lora then LorasOf(p.s, p.order) else {}), id);
    j, k := OwnOrder(during, a);
    FoundIffReady(x, during, env.toolReady, j, id);
    if H.Pending(Calls(x.made + during), id) {
      SubmittedLater(x.made, during, k, id);
    }
  }

  lemma SubmittedLater(before: seq<Made>, during: seq<Made>, k: nat, id: Id)
    requires k < |during| && during[k].call == H.Call.Resume(id) && H.Pending(Calls(before + during), id)
    ensures exists l :: k < l < |during| && during[l].call == H.Call.Submit(id)
  {
    var all := before + during;
    CallsAt(all);
    var l :| 0 <= l < |all| && Calls(all)[l] == H.Call.Submit(id)
      && forall i :: l < i < |all| ==> !H.Consumes(Calls(all)[i], id);
    assert all[|before| + k] == during[k];
    assert !(l < |before| + k) by {
      assert H.Consumes(Calls(all)[|before| + k], id);
    }
    assert during[l - |before|].call == H.Call.Submit(id);
  }

  // -------------------------------------------------------------------------------- one such run

  const ONE := Config(false, 1, 4, 8, 0, true, false, 0, 0, false, false, false, 0, 0, false, false)

  function Calling(): View { View(0, 0, 1, {}, 0, false, false, [], WaitingForToolCall, [1], [], [1], [], 0, true, 0) }

  const ANSWERED := Env({}, map[], {}, map[], map[], {}, {1})

  function Submitted(): seq<Happening> { [Here(Event.Add(1, Calling(), {}), []), Elsewhere(H.Call.Submit(1))] }

  function LookAndResume(): seq<Made> { [Made(H.Call.Look(1), true), Made(H.Call.Resume(1), true)] }

  lemma SubmittedRun()
    ensures LegalJointRun(ONE, Submitted())
    ensures AfterAll(ONE, Submitted()) ==
      Joint(INITIAL.(s := EMPTY.(reqs := map[1 := Calling()], skipped := [1]), seen := map[1 := Calling()], arrivals := [1]),
            [Made(H.Call.Submit(1), false)])
  {
    var hs := Submitted();
    assert hs[..1] == [hs[0]] && hs[..1][..0] == [] && hs[0] == Here(Event.Add(1, Calling(), {}), []);
    assert AfterAll(ONE, []) == START && LegalJointRun(ONE, []);
    assert Own([]) == [];
  }

  lemma OneLook(s: State)
    requires s == EMPTY.(reqs := map[1 := Calling()], skipped := [1])
    ensures StepCalls(ONE, ANSWERED, s) == [H.Call.Look(1), H.Call.Resume(1)]
  {
    var p := Start(ONE, s);
    assert RunningLoop(ONE, ANSWERED, p) == p;
    var q := p.(stop := false, loras := {});
    assert q == p && HeadIndex(ONE, s, [1]) == 0 && Peek(ONE, s) == 1;
    var r := WaitingStep(ONE, ANSWERED, p);
    hide WaitingStep;
    assert WaitingDone(ONE, r) && LoopCalls(ONE, ANSWERED, r) == [];
  }

  lemma SubmittedFirst()
    ensures var calls := Calls([Made(H.Call.Submit(1), false)]);
      H.Pending(calls, 1) && 1 in H.Replay(calls).responses
  {
    var made := [Made(H.Call.Submit(1), false)];
    assert made[..0] == [] && Calls([]) == [];
    H.PendingSnoc([], H.Call.Submit(1), 1);
    assert Calls(made) == [] + [H.Call.Submit(1)];
    H.ResponseVisible(Calls(made), 1);
  }

  /** A response comes, the scheduler looks, and the request is woken. */
  lemma ResponseWakes()
    ensures LegalJointRun(ONE, Submitted()) && Waits(AfterAll(ONE, Submitted()).e.s, 1)
    ensures LegalHappening(ONE, AfterAll(ONE, Submitted()), Here(Event.Step(ANSWERED), LookAndResume()))
    ensures Moved(NextJoint(ONE, AfterAll(ONE, Submitted()), Here(Event.Step(ANSWERED), LookAndResume())).e.s, 1)
  {
    hide StepCalls, Next, H.Replay, H.Pending, LegalJointRun, AfterAll, Calls;
    SubmittedRun();
    var x, during := AfterAll(ONE, Submitted()), LookAndResume();
    OneLook(x.e.s);
    assert Own(during) == [H.Call.Look(1), H.Call.Resume(1)] by {
      assert during[..1] == [during[0]] && during[..1][..0] == [];
    }
    SubmittedFirst();
    assert x.made + during[..0] == x.made;
    assert Found(x, during, 0, 1);
    WokenIff(ONE, Submitted(), ANSWERED, during, 1);
  }
}
