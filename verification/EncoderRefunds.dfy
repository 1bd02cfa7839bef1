/**
 * Encoder budget given back by a preemption is lost again when the request that
 * caused it has encoder inputs of its own: its plan was made before the refund.
 * With FCFS nothing is ever given back, so nothing is lost.
 */
module EncoderRefunds {
  import opened Seqs
  import opened Requests
  import opened SchedulerSpec
  import opened QueuePartition
  import opened Frames
  import opened Accounting
  import opened Planning
  import opened Admission
  import opened ScheduleStep
  import opened Engine
  import opened EngineStep
  import opened ReportStep
  import opened Traces
  import I = EncoderInputs

  /** What is left of the encoder budget, and what was scheduled from it. */
  function Held(p: Pass): int { p.encBudget + Sum(p.order, p.encs) }

  // ------------------------------------------------------------------- one step of the loop

  lemma VictimHeld(c: Config, total: int, p: Pass, id: Id)
    requires Partition(p.s, []) && Books(c, total, p) && Behind(p) && Asking(c, p, id)
    ensures Held(PreemptVictim(c, p)) == Held(p)
    ensures !c.priority ==> PreemptVictim(c, p).encBudget == p.encBudget
  {
    hide Partition, Behind, Asking, PreemptVictim, VictimIndex;
    NonEmptyRunning(c, p, id);
    PreemptVictimShape(c, p);
    var victim := p.s.running[VictimIndex(c, p.s)];
    if victim in p.order {
      SumRemove(p.order, p.encs, victim);
    }
  }

  /** Making room only moves budget back and forth. */
  lemma {:induction false} MakeRoomHeld(c: Config, env: Env, total: int, p: Pass, id: Id, tokens: int)
    requires Partition(p.s, []) && Books(c, total, p) && Behind(p) && Asking(c, p, id) && VictimsMarked(p)
    ensures var r := MakeRoom(c, env, p, id, tokens);
      Held(r.p) == Held(p) && (!c.priority ==> r.p.encBudget == p.encBudget)
    decreases |p.s.running|
  {
    hide Partition, Books, Behind, VictimsMarked, Asking, PreemptVictim, VictimIndex, Held;
    NonEmptyRunning(c, p, id);
    if SlotAsk(p.s.kv.Keys, id, tokens) in env.refused {
      VictimHeld(c, total, p, id);
      PreemptVictimBooks(c, total, p, id);
      PreemptVictimBehind(c, total, p, id);
      PreemptVictimKeeps(c, p, []);
      VictimLeaves(c, p);
      VictimCount(c, p);
      if p.s.running[VictimIndex(c, p.s)] != id {
        MakeRoomHeld(c, env, total, PreemptVictim(c, p), id, tokens);
      }
    }
  }

  lemma AfterRoomHeld(c: Config, total: int, room: Room, id: Id, plan: EncoderPlan, before: int)
    requires Books(c, total, room.p) && (room.ok ==> id !in room.p.order) && plan.budget == before - Total(plan.embeds)
    ensures Held(AfterRoom(room, id, plan))
         == Held(room.p) - (if room.ok && plan.embeds != [] then room.p.encBudget - before else 0)
  {
    if room.ok {
      EncoderSum(room.p, ScheduleRunning(room.p, id, plan), id, plan);
    }
  }

  /** The search for room in one iteration of the first loop. */
  function RoomFor(c: Config, env: Env, p: Pass): Room
    requires !RunningDone(p)
  {
    var id := p.s.running[p.idx];
    MakeRoom(c, env, p, id, At(p.s, id).computed + RunningPlan(c, env, p, id).n + c.lookahead)
  }

  /**
   * An iteration keeps the encoder budget exactly unless it schedules encoder
   * inputs after a refund, and then it loses precisely the refund.
   */
  lemma RefundOverwritten(c: Config, env: Env, total: int, p: Pass)
    requires RunningInv(c, env, total, p) && !RunningDone(p)
    ensures var plan := RunningPlan(c, env, p, p.s.running[p.idx]);
            var room := RoomFor(c, env, p);
            var refund := room.p.encBudget - p.encBudget;
            var overwritten := plan.n != 0 && room.ok && plan.embeds != [];
            && refund >= 0 && (!c.priority ==> refund == 0)
            && Held(RunningStep(c, env, p)) == Held(p) - (if overwritten then refund else 0)
            && (Held(RunningStep(c, env, p)) == Held(p) <==> !overwritten || refund == 0)
  {
    hide RunningPlan, MakeRoom, AfterRoom, Sound, Partition, Books, Behind, VictimsMarked, AllReady, EnvOk, Ready, Held, Total,
         Asking, At, RunningStep;
    var id := p.s.running[p.idx];
    var plan := RunningPlan(c, env, p, id);
    var room := RoomFor(c, env, p);
    SoundFacts(c, p);
    RunningHead(c, p);
    EncBudgetBound(c, total, p);
    RunningPlanFacts(c, env, p, id);
    AskingNow(c, total, p);
    var tokens := At(p.s, id).computed + plan.n + c.lookahead;
    MakeRoomHeld(c, env, total, p, id, tokens);
    MakeRoomBooks(c, env, total, p, id, tokens);
    StepAfterRoom(c, env, p);
    if plan.n != 0 {
      AskerNotScheduled(c, room, id);
      AfterRoomHeld(c, total, room, id, plan, p.encBudget);
    } else {
      HeldElsewhere(p, RunningStep(c, env, p));
    }
  }

  lemma AskerNotScheduled(c: Config, room: Room, id: Id)
    requires room.ok ==> Asking(c, room.p, id)
    ensures room.ok ==> id !in room.p.order
  {
  }

  lemma StepAfterRoom(c: Config, env: Env, p: Pass)
    requires !RunningDone(p)
    ensures var id := p.s.running[p.idx];
            var plan := RunningPlan(c, env, p, id);
            RunningStep(c, env, p) ==
              if plan.n == 0 then p.(idx := p.idx + 1) else AfterRoom(RoomFor(c, env, p), id, plan)
  {
    hide RunningPlan, MakeRoom, AfterRoom;
  }

  lemma HeldElsewhere(p: Pass, q: Pass)
    requires q.encBudget == p.encBudget && q.order == p.order && q.encs == p.encs
    ensures Held(q) == Held(p)
  {
  }

  // ------------------------------------------------------------------------------ whole steps

  /** What one iteration loses: the refund of its search for room, when encoder inputs are scheduled after it. */
  function LostNow(c: Config, env: Env, p: Pass): int
    requires !RunningDone(p)
  {
    var plan := RunningPlan(c, env, p, p.s.running[p.idx]);
    var room := RoomFor(c, env, p);
    if plan.n != 0 && room.ok && plan.embeds != [] then room.p.encBudget - p.encBudget else 0
  }

  /** All refunds that the first loop overwrites. */
  function Lost(c: Config, env: Env, p: Pass): int
    decreases !p.stop, |p.s.running| - p.idx
  {
    if RunningDone(p) then 0
    else
      RunningStepDecreases(c, env, p);
      LostNow(c, env, p) + Lost(c, env, RunningStep(c, env, p))
  }

  lemma {:induction false} RunningLoopLoses(c: Config, env: Env, total: int, p: Pass)
    requires RunningInv(c, env, total, p)
    ensures Held(RunningLoop(c, env, p)) == Held(p) - Lost(c, env, p)
    ensures Lost(c, env, p) >= 0 && (!c.priority ==> Lost(c, env, p) == 0)
    decreases !p.stop, |p.s.running| - p.idx
  {
    if !RunningDone(p) {
      RunningStepDecreases(c, env, p);
      hide RunningInv, RunningStep, RunningDone, Held, RunningPlan, RoomFor;
      RefundOverwritten(c, env, total, p);
      RunningStepInv(c, env, total, p);
      RunningLoopLoses(c, env, total, RunningStep(c, env, p));
    }
  }

  lemma AdmitHeld(c: Config, p: Pass, ch: Choice)
    requires Fits(c, p, ch) && ch.Admit? && Peek(c, p.s) !in p.order && forall x :: x in p.encs ==> x in p.order
    requires ch.plan.budget == p.encBudget - Total(ch.plan.embeds)
    ensures Held(Apply(c, p, Peek(c, p.s), ch)) == Held(p)
  {
    hide Peek, Pop, StartKv, Partition, Total;
    EncoderSum(p, Apply(c, p, Peek(c, p.s), ch), Peek(c, p.s), ch.plan);
  }

  lemma EncsScheduled(c: Config, total: int, p: Pass)
    requires Books(c, total, p)
    ensures forall x :: x in p.encs ==> x in p.order
  {
  }

  lemma WaitingStepHeld(c: Config, env: Env, total: int, p: Pass)
    requires WaitingInv(c, env, total, p) && !WaitingDone(c, p)
    ensures Held(WaitingStep(c, env, p)) == Held(p)
  {
    hide Peek, Consider, Apply, Fits, Decided, WaitingInv, Books, Partition, Held;
    var ch := Consider(c, env, p, Peek(c, p.s));
    DecidedNow(c, env, total, p);
    DecidedParts(c, env, total, p, ch);
    WaitingInvAll(c, env, total, p);
    EncsScheduled(c, total, p);
    if ch.Admit? {
      HeadNotScheduled(c, total, p);
      AdmitHeld(c, p, ch);
    } else {
      NoAdmissionShape(c, p, ch);
      HeldElsewhere(p, Apply(c, p, Peek(c, p.s), ch));
    }
  }

  lemma {:induction false} WaitingLoopHeld(c: Config, env: Env, total: int, p: Pass)
    requires WaitingInv(c, env, total, p)
    ensures Held(WaitingLoop(c, env, p)) == Held(p)
    decreases !p.stop, |p.s.waiting| + |p.s.skipped|
  {
    hide WaitingInv, WaitingStep, Held;
    if !WaitingDone(c, p) {
      WaitingStepHeld(c, env, total, p);
      WaitingStepInv(c, env, total, p);
      WaitingLoopHeld(c, env, total, WaitingStep(c, env, p));
    }
  }

  lemma StartHeld(c: Config, s: State)
    ensures Held(Start(c, s)) == c.maxEncoder
  {
  }

  lemma PassHeld(c: Config, env: Env, s: State)
    requires Rest(c, s) && EnvOk(env, s)
    ensures var lost := Lost(c, env, Start(c, s));
      Held(SchedulePass(c, env, s)) == c.maxEncoder - lost && lost >= 0 && (!c.priority ==> lost == 0)
  {
    hide Rest, RunningInv, Quiet, EnvOk, RunningLoop, WaitingLoop, Framed, PrevOk, Requeue, Partition, WaitingInv, Start, Held,
         LorasOf, AllReady, AllKv, Lost;
    FirstLoop(c, env, s);
    StartInv(c, env, s);
    RestParts(c, s);
    StartHeld(c, s);
    var p := RunningLoop(c, env, Start(c, s));
    var q := SecondStart(c, p);
    RunningLoopLoses(c, env, Tokens(c, s), Start(c, s));
    if p.preempted == [] {
      HandOver(c, env, s, p);
      HeldElsewhere(p, q);
      WaitingLoopHeld(c, env, Tokens(c, s), q);
      RequeueHeld(WaitingLoop(c, env, q));
    }
  }

  lemma RequeueHeld(p: Pass)
    ensures Held(Requeue(p)) == Held(p)
  {
    hide Reverse;
    HeldElsewhere(p, Requeue(p));
  }

  /**
   * In every step of every run the encoder budget balances up to the refunds
   * that were overwritten: exactly if there are none, and always with FCFS.
   */
  lemma EncoderBalancesIff(c: Config, run: seq<Event>, env: Env)
    requires LegalRun(c, INITIAL, run) && Legal(c, After(c, INITIAL, run), Event.Step(env))
    ensures var s := After(c, INITIAL, run).s;
            var p := SchedulePass(c, env, s);
            var lost := Lost(c, env, Start(c, s));
            && p.encBudget + Sum(p.order, p.encs) == c.maxEncoder - lost && lost >= 0
            && (p.encBudget + Sum(p.order, p.encs) == c.maxEncoder <==> lost == 0)
            && (!c.priority ==> p.encBudget + Sum(p.order, p.encs) == c.maxEncoder)
  {
    hide EngineInv, LegalRun, After, SchedulePass, Legal, Rest, EnvOk, Lost, Start;
    InitialInv(c);
    RunKeepsInv(c, INITIAL, run);
    var e := After(c, INITIAL, run);
    StepParts(c, e, env);
    AtRest(c, e);
    PassHeld(c, env, e.s);
  }

  // ------------------------------------------------------------------------ PRIORITY loses it

  const TWO := Config(true, 2, 100, 100, 0, true, false, 0, 0, false, false, false, 0, 4, false, false)

  function Image(priority: int): View {
    View(priority, 0, 9, {}, 0, true, false, [], Running, [7, 8, 9], [], [7, 8, 9], [], 1, true, 0)
  }

  function TwoImages(): State {
    State(map[1 := Image(1), 2 := Image(0)], [1, 2], [], [], {}, {2}, 0, {}, {}, Unpaused, map[1 := [7], 2 := [7]])
  }

  /** Request 2 gets no blocks while request 1 holds some. */
  function TightMemory(): Env {
    Env({SlotAsk({1, 2}, 2, 3)}, map[], {}, map[],
        map[EncoderAsk(1, 1, 2, 4) := EncoderPlan(2, 2, [2]), EncoderAsk(2, 1, 2, 2) := EncoderPlan(2, 0, [2])], {}, {})
  }

  /** Request 1 is scheduled with its 2 embeds. */
  function AfterFirstImage(): Pass {
    Start(TWO, TwoImages()).(idx := 1, budget := 98, order := [1], num := map[1 := 2], encs := map[1 := 2], encBudget := 2)
  }

  lemma FirstImage()
    ensures RunningStep(TWO, TightMemory(), Start(TWO, TwoImages())) == AfterFirstImage()
  {
    var s := TwoImages();
    var p := Start(TWO, s);
    var plan := RunningPlan(TWO, TightMemory(), p, 1);
    assert Total([2]) == 2;
    assert plan == EncoderPlan(2, 2, [2]);
    assert SlotAsk({1, 2}, 1, 3) !in TightMemory().refused;
    assert MakeRoom(TWO, TightMemory(), p, 1, 3) == Room(p, true);
    assert s.reqs[1 := Image(1).(spec := [])] == s.reqs;
    assert map[][1 := 2] == map[1 := 2];
  }

  /** The victim's 2 embeds are given back and forgotten: 2 of the 4 are left. */
  lemma SecondImage()
    ensures var p := RunningLoop(TWO, TightMemory(), Start(TWO, TwoImages())); Held(p) == 2 && p.preempted == [1]
  {
    FirstImage();
    var env := TightMemory();
    var p := RunningStep(TWO, env, Start(TWO, TwoImages()));
    hide RunningStep;
    SecondStepOf(p);
    var q := RunningStep(TWO, env, p);
    assert RunningDone(q);
    assert RunningLoop(TWO, env, p) == q;
    assert Sum([2], map[2 := 2]) == 2 by {
      assert [2][..0] == [];
    }
  }

  lemma SecondStepOf(p: Pass)
    requires p == AfterFirstImage()
    ensures var q := RunningStep(TWO, TightMemory(), p);
      && q.order == [2] && q.encs == map[2 := 2] && q.encBudget == 0 && q.s.running == [2] && q.idx == 1
      && q.preempted == [1]
  {
    var env := TightMemory();
    hide PreemptVictim, MakeRoom, RunningPlan, DraftsFor;
    SecondPlan(p);
    SecondRoom(p);
    var q := PreemptVictim(TWO, p);
    var plan := RunningPlan(TWO, env, p, 2);
    assert At(p.s, 2).computed == 1;
    assert RunningStep(TWO, env, p) == ScheduleRunning(q, 2, plan);
    hide RunningStep;
    assert Total([2]) == 2 by {
      assert [2][..0] == [];
    }
    assert map[][2 := 2] == map[2 := 2];
  }

  lemma SecondPlan(p: Pass)
    requires p.s == TwoImages() && p.budget == 98 && p.encBudget == 2
    ensures RunningPlan(TWO, TightMemory(), p, 2) == EncoderPlan(2, 0, [2])
  {
  }

  lemma SecondVictim(p: Pass)
    requires p == AfterFirstImage()
    ensures var q := PreemptVictim(TWO, p);
      && q.order == [] && q.encs == map[] && q.encBudget == 4 && q.s.running == [2] && q.idx == 0
      && q.s.kv.Keys == {2} && q.preempted == [1]
    ensures VictimIndex(TWO, p.s) == 0
  {
    var s := TwoImages();
    assert LeastUrgent(s, s.running) == 0 by {
      assert s.running[..1] == [1];
      assert LeastUrgent(s, [1]) == 0;
    }
    hide LeastUrgent;
    assert Remove([1], 1) == [];
    assert RemoveAt([1, 2], 0) == [2];
    assert s.kv - {1} == map[2 := [7]];
  }

  lemma {:induction false} SecondRoom(p: Pass)
    requires p == AfterFirstImage()
    ensures var q := PreemptVictim(TWO, p);
      && q.order == [] && q.encs == map[] && q.encBudget == 4 && q.s.running == [2] && q.idx == 0 && q.preempted == [1]
      && MakeRoom(TWO, TightMemory(), p, 2, 3) == Room(q, true)
  {
    hide PreemptVictim, VictimIndex;
    SecondVictim(p);
    assert p.s.kv.Keys == {1, 2};
  }

  // A run that leads to that state: both requests have computed the token in front of their image.

  function NewImage(priority: int): View {
    View(priority, 0, 9, {}, 0, true, false, [], Waiting, [7, 8, 9], [], [7, 8, 9], [], 0, true, 0)
  }

  /** Up to the image. */
  const CHUNK := EncoderPlan(1, 4, [])

  function FirstChunk(): Env {
    Env({}, map[], {}, map[], map[EncoderAsk(1, 0, 3, 4) := CHUNK], {}, {})
  }

  function SecondChunk(): Env {
    Env({}, map[], {}, map[],
        map[EncoderAsk(1, 1, 2, 4) := EncoderPlan(0, 4, []), EncoderAsk(2, 0, 3, 4) := CHUNK], {}, {})
  }

  function OneWaiting(): State { State(map[1 := NewImage(1)], [], [1], [], {}, {}, 0, {}, {}, Unpaused, map[]) }

  function OneImage(): State { State(map[1 := Image(1)], [1], [], [], {}, {1}, 0, {}, {}, Unpaused, map[1 := [7]]) }

  function OneMore(): State { OneImage().(reqs := map[1 := Image(1), 2 := NewImage(0)], waiting := [2]) }

  /** The worker computes the first token of an image request. */
  lemma ChunkWritten(p: Pass, id: Id, t: State, priority: int)
    requires p.s == t.(reqs := t.reqs[id := NewImage(priority).(status := Running)], kv := t.kv[id := []])
    requires p.num == map[id := 1] && p.specs == map[] && p.order == [id]
    ensures AfterSchedule(p.s, p.order, p.num, p.specs)
         == t.(reqs := t.reqs[id := Image(priority)], kv := t.kv[id := [7]], prev := {id}, finishedIds := {})
  {
    var v := NewImage(priority).(status := Running);
    assert Advance(v, 1) == Image(priority);
    assert WriteKv([], v, 1, []) == [7];
    var u := AfterSchedule(p.s, p.order, p.num, p.specs);
    hide Advance, WriteKv;
    assert u.reqs == t.reqs[id := Image(priority)];
    assert u.kv == t.kv[id := [7]];
    assert u.prev == {id};
  }

  lemma FirstPass()
    ensures var c, s := TWO, OneWaiting(); SchedulePass(c, FirstChunk(), s) == Admitted(Start(c, s), 1, CHUNK)
  {
    var c, env, s := TWO, FirstChunk(), OneWaiting();
    var p := Start(c, s);
    assert RunningLoop(c, env, p) == p;
    assert WaitingPlan(c, env, p, s.reqs[1], 1, 0) == CHUNK;
    AdmitOnly(c, env, p, 1, CHUNK);
    hide WaitingLoop, RunningLoop, WaitingPlan;
    var q := Admitted(p, 1, CHUNK);
    assert Requeue(q) == q;
  }

  lemma FirstStep()
    ensures Schedule(TWO, FirstChunk(), OneWaiting()) == OneImage()
    ensures var out := OutputOf(SchedulePass(TWO, FirstChunk(), OneWaiting())); out.order == [1] && out.specs == map[]
  {
    hide SchedulePass;
    FirstPass();
    var q := Admitted(Start(TWO, OneWaiting()), 1, CHUNK);
    assert map[][1 := 1] == map[1 := 1];
    ChunkWritten(q, 1, OneImage().(prev := {}), 1);
    hide AfterSchedule;
    assert OneImage().reqs[1 := Image(1)] == OneImage().reqs && OneImage().kv[1 := [7]] == OneImage().kv;
  }

  lemma SecondLoopOnly()
    ensures var c, env, s := TWO, SecondChunk(), OneMore();
      RunningLoop(c, env, Start(c, s)) == Start(c, s).(idx := 1)
  {
    var c, env, s := TWO, SecondChunk(), OneMore();
    var p := Start(c, s);
    assert RunningPlan(c, env, p, 1).n == 0;
    var q := p.(idx := 1);
    assert RunningStep(c, env, p) == q;
    assert RunningDone(q);
    assert RunningLoop(c, env, q) == q;
  }

  lemma SecondPass()
    ensures var c, s := TWO, OneMore();
      SchedulePass(c, SecondChunk(), s) == Admitted(Start(c, s).(idx := 1), 2, CHUNK)
  {
    var c, env, s := TWO, SecondChunk(), OneMore();
    var p := Start(c, s).(idx := 1);
    SecondLoopOnly();
    assert WaitingPlan(c, env, p, s.reqs[2], 2, 0) == CHUNK;
    AdmitOnly(c, env, p, 2, CHUNK);
    hide WaitingLoop, RunningLoop, WaitingPlan;
    var q := Admitted(p, 2, CHUNK);
    assert Requeue(q) == q;
  }

  lemma SecondAdmitted()
    ensures var q, t := Admitted(Start(TWO, OneMore()).(idx := 1), 2, CHUNK), TwoImages().(prev := {1});
      && q.s == t.(reqs := t.reqs[2 := NewImage(0).(status := Running)], kv := t.kv[2 := []])
      && q.num == map[2 := 1] && q.specs == map[] && q.order == [2]
  {
    var q, t := Admitted(Start(TWO, OneMore()).(idx := 1), 2, CHUNK), TwoImages();
    assert map[][2 := 1] == map[2 := 1];
    assert q.s.reqs == t.reqs[2 := NewImage(0).(status := Running)];
    assert q.s.kv == t.kv[2 := []];
  }

  lemma SecondStep()
    ensures Schedule(TWO, SecondChunk(), OneMore()) == TwoImages()
    ensures var out := OutputOf(SchedulePass(TWO, SecondChunk(), OneMore())); out.order == [2] && out.specs == map[]
  {
    hide SchedulePass, Admitted, AfterSchedule, Start, OneMore, NewImage;
    SecondPass();
    SecondAdmitted();
    var q := Admitted(Start(TWO, OneMore()).(idx := 1), 2, CHUNK);
    ChunkWritten(q, 2, TwoImages().(prev := {1}), 0);
    assert TwoImages().reqs[2 := Image(0)] == TwoImages().reqs && TwoImages().kv[2 := [7]] == TwoImages().kv;
  }

  /** Two prompts with an image come in and get their first token computed. */
  function ImageRun(): seq<Event> {
    FirstRun() + [Event.Add(2, NewImage(0), {})] + [Event.Step(SecondChunk())] + [Event.Report(NO_NEWS)]
  }

  function FirstRun(): seq<Event> {
    [Event.Add(1, NewImage(1), {})] + [Event.Step(FirstChunk())] + [Event.Report(NO_NEWS)]
  }

  lemma FirstEvents()
    ensures LegalRun(TWO, INITIAL, FirstRun())
    ensures After(TWO, INITIAL, FirstRun()) == INITIAL.(s := OneImage(), seen := map[1 := NewImage(1)], arrivals := [1])
  {
    hide Schedule, SchedulePass, UpdateFromOutput;
    var e := INITIAL.(s := OneWaiting(), seen := map[1 := NewImage(1)], arrivals := [1]);
    Extended(TWO, INITIAL, [], Event.Add(1, NewImage(1), {}));
    assert Next(TWO, INITIAL, Event.Add(1, NewImage(1), {})) == e;
    FirstStep();
    ChunkComputed(TWO, [] + [Event.Add(1, NewImage(1), {})], e, FirstChunk(), 1);
  }

  lemma SecondAnswers()
    ensures EnvOk(SecondChunk(), OneMore())
  {
  }

  lemma ImagesReached()
    ensures LegalRun(TWO, INITIAL, ImageRun())
    ensures After(TWO, INITIAL, ImageRun()).s == TwoImages() && After(TWO, INITIAL, ImageRun()).pending.None?
  {
    hide Schedule, SchedulePass, UpdateFromOutput, FirstRun, LegalRun, After, EnvOk;
    FirstEvents();
    SecondAnswers();
    var add := Event.Add(2, NewImage(0), {});
    var d := INITIAL.(s := OneImage(), seen := map[1 := NewImage(1)], arrivals := [1]);
    var e := INITIAL.(s := OneMore(), seen := map[1 := NewImage(1), 2 := NewImage(0)], arrivals := [1, 2]);
    Extended(TWO, INITIAL, FirstRun(), add);
    assert Next(TWO, d, add) == e by {
      assert d.seen[2 := NewImage(0)] == e.seen && d.s.reqs[2 := NewImage(0)] == e.s.reqs;
    }
    SecondStep();
    ChunkComputed(TWO, FirstRun() + [add], e, SecondChunk(), 2);
  }

  /**
   * A legal run with PRIORITY after which one step loses half of its encoder
   * budget of 4: the victim's 2 embeds are neither left over nor scheduled.
   */
  lemma RefundLost()
    ensures LegalRun(TWO, INITIAL, ImageRun())
    ensures Legal(TWO, After(TWO, INITIAL, ImageRun()), Event.Step(TightMemory()))
    ensures var p := SchedulePass(TWO, TightMemory(), After(TWO, INITIAL, ImageRun()).s);
      TWO.maxEncoder == 4 && p.encBudget + Sum(p.order, p.encs) == 2
  {
    hide LegalRun, After, RunningLoop, Sum, EnvOk;
    ImagesReached();
    ImagesAsked();
    SecondImage();
  }

  lemma ImagesAsked()
    ensures EnvOk(TightMemory(), TwoImages())
  {
    assert Total([2]) == 2 by {
      assert [2][..0] == [];
    }
  }

  // The encoder plans of that run are those for prompts that end with an image of two positions.

  const IMAGE := I.Feature(1, [true, true], 0)

  /** Nothing is cached. */
  function Room4(room: set<I.CacheAsk>): I.Cache { I.Cache({}, room, {}, false) }

  /** What is selected of one image: nothing, or the image, once. */
  lemma OneInput(toCompute: seq<nat>)
    requires NoDup(toCompute) && forall k :: k in toCompute ==> k < 1
    ensures toCompute == [] || toCompute == [0]
    ensures I.EmbedsOf([IMAGE], toCompute) == if toCompute == [] then [] else [2]
  {
    SubsetLength(toCompute, [0]);
    assert |toCompute| > 0 ==> toCompute[0] in toCompute;
    assert [true, true][..1] == [true];
    assert I.Count([true, true]) == 2;
  }

  lemma ImageTaken(computed: nat, n: int)
    requires computed <= 1
    ensures computed + n > 1 ==> IMAGE.EmbedsIn(computed, computed + n)
  {
    assert IMAGE.mask[0];
  }

  /** Without the image the window ends in front of it, and only because there is no room. */
  lemma NothingSelected(c: I.Cache, computed: nat, budget: nat, n: int, left: int)
    requires c == Room4(c.room) && computed <= 1
    requires I.Answer(c, [IMAGE], computed, 3 - computed, budget, [], n, left, [])
    ensures n == 1 - computed && left == budget && I.CacheAsk(0, budget, 0) !in c.room
  {
    var fs := [IMAGE];
    assert I.EmbedsOf(fs, []) == [] && Total([]) == 0;
    hide Total, I.EmbedsOf, I.Count;
    ImageTaken(computed, n);
    assert !fs[0].EmbedsIn(computed, computed + n);
    var i :| 0 <= i < |fs| && I.Blocks(c, fs, computed, 3 - computed, i, n, left, [], []);
    assert fs[i] == IMAGE;
  }

  lemma FirstHadRoom(c: I.Cache, fs: seq<I.Feature>, budget: int, toCompute: seq<nat>, toLoad: seq<nat>)
    requires fs != [] && toCompute == [0] && toLoad == [] && I.AllHadRoom(c, fs, budget, toCompute, toLoad)
    ensures I.CacheAsk(0, budget, 0) in c.room
  {
    assert I.HadRoom(c, fs, budget, toCompute, toLoad, 0);
    assert I.Below([0], 0) == [] by {
      assert [0][..0] == [];
    }
    assert I.EmbedsOf(fs, []) == [];
  }

  /** There is only one answer: the image as a whole if there is room, otherwise what lies in front of it. */
  lemma ImageAnswer(c: I.Cache, ask: EncoderAsk, plan: EncoderPlan)
    requires c == Room4(c.room) && 0 <= ask.computed <= 1 && ask.n == 3 - ask.computed && ask.budget >= 0
    requires I.Answered(c, [IMAGE], ask, plan)
    ensures I.CacheAsk(0, ask.budget, 0) in c.room ==> plan == EncoderPlan(ask.n, ask.budget - 2, [2])
    ensures c.room == {} ==> plan == EncoderPlan(1 - ask.computed, ask.budget, [])
  {
    var fs := [IMAGE];
    var toCompute, toLoad :|
      && I.Answer(c, fs, ask.computed, ask.n, ask.budget, toCompute, plan.n, plan.budget, toLoad)
      && plan.embeds == I.EmbedsOf(fs, toCompute);
    OneInput(toCompute);
    OneInput(toLoad);
    assert toLoad == [] by {
      assert toLoad == [0] ==> 0 in toLoad;
    }
    assert Total([2]) == 2 by {
      assert [2][..0] == [];
    }
    hide Total, I.EmbedsOf, I.Count;
    if toCompute == [0] {
      assert 0 in toCompute && I.Overlaps(IMAGE, ask.computed, plan.n);
      FirstHadRoom(c, fs, ask.budget, toCompute, toLoad);
    } else {
      NothingSelected(c, ask.computed, ask.budget, plan.n, plan.budget);
    }
  }

  /** `env` answers like `_try_schedule_encoder_inputs`, for images of two positions and with this room in the cache. */
  ghost predicate AnswersImages(env: Env, c: I.Cache) {
    && I.CacheOk(c, [IMAGE])
    && forall ask :: ask in env.encoder ==>
         && ask.computed >= 0 && ask.n >= 0 && ask.budget >= 0
         && forall plan :: I.Answered(c, [IMAGE], ask, plan) ==> plan == env.encoder[ask]
  }

  /** No encoder plan of that run, nor of the step after it, could have been another one. */
  lemma ImagesAnswered()
    ensures AnswersImages(FirstChunk(), Room4({})) && AnswersImages(SecondChunk(), Room4({}))
    ensures AnswersImages(TightMemory(), Room4({I.CacheAsk(0, 4, 0), I.CacheAsk(0, 2, 0)}))
  {
    hide AnswersImages;
    ImagesAnsweredBy(FirstChunk(), Room4({}));
    ImagesAnsweredBy(SecondChunk(), Room4({}));
    ImagesAnsweredBy(TightMemory(), Room4({I.CacheAsk(0, 4, 0), I.CacheAsk(0, 2, 0)}));
  }

  lemma ImagesAnsweredBy(env: Env, c: I.Cache)
    requires if env == TightMemory() then c == Room4({I.CacheAsk(0, 4, 0), I.CacheAsk(0, 2, 0)})
             else env in {FirstChunk(), SecondChunk()} && c == Room4({})
    ensures AnswersImages(env, c)
  {
    hide I.Answered;
    assert [true, true][..1] == [true];
    assert I.Count([true, true]) == 2;
    forall ask, plan | ask in env.encoder && I.Answered(c, [IMAGE], ask, plan) ensures plan == env.encoder[ask] {
      ImageAnswer(c, ask, plan);
    }
  }
}
