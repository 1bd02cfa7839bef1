/** Sessions in reachable states, and the chunks that the scheduler does not cope with. */
module SessionExamples {
  import opened Seqs
  import opened Requests
  import opened SchedulerSpec
  import opened Accounting
  import opened Engine
  import opened Traces
  import opened StandStill
  import opened SessionLimits

  /** `b` tokens a step, a model length of 4. */
  function Small(b: nat): Config { Config(false, 1, b, 4, 0, true, false, 0, 0, false, false, false, 0, 0, false, false) }

  const EASY := Env({}, map[], {}, map[], map[], {}, {})

  /** A session with a prompt of one token, and one token to generate. */
  function Opening(): View { View(0, 0, 1, {}, 0, false, true, [], Waiting, [1], [], [1], [], 0, true, 0) }

  function Opened(): State { State(map[1 := Opening()], [], [1], [], {}, {}, 0, {}, {}, Unpaused, map[]) }

  function Computing(): State {
    State(map[1 := Opening().(status := Running, computed := 1, prefill := false)],
          [1], [], [], {}, {1}, 0, {}, {}, Unpaused, map[1 := [1]])
  }

  /** The token 2 was generated, and the session waits for more input. */
  function Awaiting(): State {
    State(map[1 := Opening().(status := WaitingForStreamingReq, computed := 1, prefill := false, output := [2], all := [1, 2])],
          [], [], [1], {}, {1}, 1, {}, {}, Unpaused, map[1 := [1]])
  }

  const FIRST_TOKEN := NO_NEWS.(tokens := map[1 := [2]])

  function AwaitingRun(): seq<Event> {
    [Event.Add(1, Opening(), {})] + [Event.Step(EASY)] + [Event.Report(FIRST_TOKEN)]
  }

  lemma OpenedPass(b: nat)
    requires b > 0
    ensures SchedulePass(Small(b), EASY, Opened()) == Admitted(Start(Small(b), Opened()), 1, EncoderPlan(1, 0, []))
  {
    var c, s := Small(b), Opened();
    var p, plan := Start(c, s), EncoderPlan(1, 0, []);
    assert RunningLoop(c, EASY, p) == p;
    assert WaitingPlan(c, EASY, p, s.reqs[1], 1, 0) == plan;
    AdmitOnly(c, EASY, p, 1, plan);
    hide WaitingLoop, RunningLoop, WaitingPlan;
    assert Requeue(Admitted(p, 1, plan)) == Admitted(p, 1, plan);
  }

  lemma OpenedStep(b: nat)
    requires b > 0
    ensures Schedule(Small(b), EASY, Opened()) == Computing()
    ensures OutputOf(SchedulePass(Small(b), EASY, Opened())) == Output([1], map[1 := 1], map[], [1], [], [], {})
  {
    hide SchedulePass;
    OpenedPass(b);
    var q := Admitted(Start(Small(b), Opened()), 1, EncoderPlan(1, 0, []));
    assert map[][1 := 1] == map[1 := 1];
    assert q.s.kv == map[1 := []] && q.s.reqs == map[1 := Opening().(status := Running)];
    hide Admitted, Start;
    OneWritten();
  }

  lemma OneWritten()
    ensures var v := Opening().(status := Running);
      WriteKv([], v, 1, []) == [1] && Advance(v, 1) == v.(computed := 1, prefill := false)
  {
  }

  /** The first token reaches `max_tokens`, so the session pauses. */
  lemma TokenReceived(b: nat)
    requires b > 0
    ensures var v := Computing().reqs[1];
      Receive(Small(b), v, [], [2], false)
        == Appended(v.(status := FinishedLengthCapped, output := [2], all := [1, 2]), [2], true)
  {
    var v := Computing().reqs[1];
    assert Extend(v, [2]) == v.(output := [2], all := [1, 2]);
    assert AppendUntilStop(v, [2], 4) == Appended(v.(status := FinishedLengthCapped, output := [2], all := [1, 2]), [2], true);
  }

  lemma TokenReported(b: nat)
    requires b > 0
    ensures UpdateFromOutput(Small(b), Computing(), Output([1], map[1 := 1], map[], [1], [], [], {}), FIRST_TOKEN).s == Awaiting()
  {
    TokenReceived(b);
    hide Receive;
    var s, out := Computing(), Output([1], map[1 := 1], map[], [1], [], [], {});
    var a := Acc(s, {}, {}, []);
    assert out.order[..0] == [];
    assert UpdateAll(Small(b), out, FIRST_TOKEN, {}, a, []) == a;
    assert UpdateAll(Small(b), out, FIRST_TOKEN, {}, a, [1]) == UpdateOne(Small(b), out, FIRST_TOKEN, {}, a, 1);
    hide UpdateAll;
    var b := UpdateOne(Small(b), out, FIRST_TOKEN, {}, a, 1);
    assert b.s == Awaiting().(running := [1]) by {
      assert s.reqs[1 := s.reqs[1]] == s.reqs;
      assert b.s.reqs == Awaiting().reqs;
    }
    assert b.stoppedRunning == {1} && b.stoppedOther == {};
    hide UpdateOne;
    assert Without([1], {1}) == [];
  }

  /** An ordinary run after which the session waits for its next chunk. */
  lemma AwaitingReached(b: nat)
    requires b > 0
    ensures LegalRun(Small(b), INITIAL, AwaitingRun())
    ensures var e := After(Small(b), INITIAL, AwaitingRun()); e.s == Awaiting() && e.pending.None?
  {
    hide LegalRun, After, Schedule, SchedulePass, UpdateFromOutput;
    var add := Event.Add(1, Opening(), {});
    var e := INITIAL.(s := Opened(), seen := map[1 := Opening()], arrivals := [1]);
    var out := Output([1], map[1 := 1], map[], [1], [], [], {});
    assert LegalRun(Small(b), INITIAL, []) && After(Small(b), INITIAL, []) == INITIAL by { EmptyRun(Small(b), INITIAL); }
    Extended(Small(b), INITIAL, [], add);
    assert Next(Small(b), INITIAL, add) == e;
    OpenedStep(b);
    TokenReported(b);
    Extended(Small(b), INITIAL, [] + [add], Event.Step(EASY));
    Extended(Small(b), INITIAL, [] + [add] + [Event.Step(EASY)], Event.Report(FIRST_TOKEN));
    assert AnswerOk(Small(b), Computing(), out, FIRST_TOKEN);
    assert [] + [add] == [add];
  }

  /** There, an empty chunk leaves nothing to schedule. */
  lemma EmptyChunk(b: nat, budget: int)
    requires b > 0 && budget > 0
    ensures LegalRun(Small(b), INITIAL, AwaitingRun())
    ensures var w := Session(After(Small(b), INITIAL, AwaitingRun()).s, 1, Update([], 0, {}, false)).reqs[1];
      Min(WaitingWant(Small(b), w, w.computed), budget) == 0
  {
    AwaitingReached(b);
    ContinuedSessionHasTokens(Small(b), AwaitingRun(), 1, Update([], 0, {}, false), budget);
  }

  // A chunk `q` of one token more than a step computes.

  function Chunk(q: seq<Token>): View { Opening().(prompt := q, all := q) }

  function Refilled(q: seq<Token>): State {
    State(map[1 := Opening().(prompt := [1] + q, all := [1] + q, computed := 1, prefill := false)],
          [], [], [1], {}, {1}, 0, {}, {}, Unpaused, map[1 := [1]])
  }

  /** All but the last token is computed. */
  function Filled(q: seq<Token>): State
    requires q != []
  {
    State(map[1 := Opening().(status := Running, prompt := [1] + q, all := [1] + q, computed := |q|, prefill := true)],
          [1], [], [], {}, {1}, 0, {}, {}, Unpaused, map[1 := [1] + q[..|q| - 1]])
  }

  /** The engine that has just been given the chunk, legal or not. */
  function Fed(b: nat, q: seq<Token>): Engine {
    Next(Small(b), After(Small(b), INITIAL, AwaitingRun()), Event.Add(1, Chunk(q), {}))
  }

  function OneStep(): seq<Event> { [Event.Step(EASY)] + [Event.Report(NO_NEWS)] }

  lemma ChunkTaken(q: seq<Token>)
    ensures AddRequest(Awaiting(), 1, Chunk(q), {}) == Refilled(q)
  {
    var v, u := Awaiting().reqs[1], Update(q, 0, {}, false);
    assert Take(v.all, 1) == [1];
    assert SessionView(v, u) == Refilled(q).reqs[1];
    assert Awaiting().reqs[1 := Refilled(q).reqs[1]] == Refilled(q).reqs;
  }

  lemma RefilledPass(b: nat, q: seq<Token>)
    requires b > 0 && |q| == b + 1
    ensures var c, s := Small(b), Refilled(q); SchedulePass(c, EASY, s) == Admitted(Start(c, s), 1, EncoderPlan(b, 0, []))
  {
    var c, s := Small(b), Refilled(q);
    var p, plan := Start(c, s), EncoderPlan(b, 0, []);
    assert RunningLoop(c, EASY, p) == p;
    assert WaitingPlan(c, EASY, p, s.reqs[1], 1, 1) == plan;
    AdmitOnly(c, EASY, p, 1, plan);
    hide WaitingLoop, RunningLoop, WaitingPlan;
    assert Requeue(Admitted(p, 1, plan)) == Admitted(p, 1, plan);
  }

  lemma ChunkWritten(b: nat, q: seq<Token>)
    requires b > 0 && |q| == b + 1
    ensures var v := Refilled(q).reqs[1].(status := Running);
      WriteKv([1], v, b, []) == [1] + q[..b] && Advance(v, b) == v.(computed := |q|, prefill := true)
  {
    assert ([1] + q + [])[1..1 + b] == q[..b];
  }

  lemma RefilledStep(b: nat, q: seq<Token>)
    requires b > 0 && |q| == b + 1
    ensures Schedule(Small(b), EASY, Refilled(q)) == Filled(q)
    ensures var out := OutputOf(SchedulePass(Small(b), EASY, Refilled(q))); out.order == [1] && out.specs == map[]
  {
    hide SchedulePass;
    RefilledPass(b, q);
    var p := Admitted(Start(Small(b), Refilled(q)), 1, EncoderPlan(b, 0, []));
    assert map[][1 := b] == map[1 := b];
    assert p.s.kv == map[1 := [1]] && p.s.reqs == map[1 := Refilled(q).reqs[1].(status := Running)];
    hide Admitted, Start;
    ChunkWritten(b, q);
  }

  /** The chunk is admitted and all but its last token is computed, in legal events. */
  lemma ChunkFilled(b: nat, q: seq<Token>)
    requires b > 0 && |q| == b + 1
    ensures LegalRun(Small(b), INITIAL, AwaitingRun()) && LegalRun(Small(b), Fed(b, q), OneStep())
    ensures var e := After(Small(b), Fed(b, q), OneStep()); e.s == Filled(q) && e.pending.None?
  {
    hide LegalRun, After, Schedule, SchedulePass, UpdateFromOutput, AwaitingRun, AddRequest;
    AwaitingReached(b);
    ChunkTaken(q);
    RefilledStep(b, q);
    var c, e, step := Small(b), Fed(b, q), Event.Step(EASY);
    var out := OutputOf(SchedulePass(c, EASY, Refilled(q)));
    EmptyRun(c, e);
    Extended(c, e, [], step);
    Extended(c, e, [] + [step], Event.Report(NO_NEWS));
    QuietReport(c, Filled(q), out, NO_NEWS, 1);
    assert AnswerOk(c, Filled(q), out, NO_NEWS);
    assert [] + [step] == [step];
  }

  // ---------------------------------------------------------- at the last position, for ever

  /** Steps that bring no news. */
  function Idling(envs: seq<Env>): seq<Event> {
    if envs == [] then []
    else Idling(envs[..|envs| - 1]) + [Event.Step(envs[|envs| - 1])] + [Event.Report(NO_NEWS)]
  }

  const OVERLONG: seq<Token> := [3, 4, 5]

  /** Nothing happens in a step in which the only request is at the last position of the model. */
  lemma StuckStep(env: Env, prev: set<Id>)
    ensures Schedule(Small(2), env, Filled(OVERLONG).(prev := prev)) == Filled(OVERLONG).(prev := {})
    ensures OutputOf(SchedulePass(Small(2), env, Filled(OVERLONG).(prev := prev))) == Output([], map[], map[], [], [], [], {})
  {
    var c, s := Small(2), Filled(OVERLONG).(prev := prev);
    var p := Start(c, s);
    assert RunningPlan(c, env, p, 1).n == 0;
    hide RunningPlan;
    var q := p.(idx := 1);
    assert RunningStep(c, env, p) == q;
    hide RunningStep;
    assert RunningLoop(c, env, q) == q;
    assert WaitingLoop(c, env, q.(stop := false, loras := {})) == q;
    assert Requeue(q) == q;
  }

  lemma NothingReported(s: State)
    ensures UpdateFromOutput(Small(2), s, Output([], map[], map[], [], [], [], {}), NO_NEWS) == Updated(s, [])
  {
    WithoutNothing(s.running, {});
    WithoutNothing(s.waiting, {});
    assert s.reqs - {} == s.reqs && s.kv - {} == s.kv && s.recvDone + {} == s.recvDone;
    hide Without;
  }

  /**
   * An ordinary run, and then a chunk that is too long: whatever legal steps
   * follow, the session stays in `running` with its last token not computed.
   */
  lemma OverlongSession(envs: seq<Env>)
    requires forall k :: 0 <= k < |envs| ==> EnvOk(envs[k], Filled(OVERLONG))
    ensures LegalRun(Small(2), INITIAL, AwaitingRun())
    ensures LegalRun(Small(2), Fed(2, OVERLONG), OneStep() + Idling(envs))
    ensures var s := After(Small(2), Fed(2, OVERLONG), OneStep() + Idling(envs)).s;
      s.running == [1] && 1 in s.reqs && s.reqs[1].computed == 3 && s.reqs[1].all == [1, 3, 4, 5]
  {
    hide LegalRun, After, AwaitingRun, EnvOk;
    AwaitingReached(2);
    StaysStuck(envs);
    assert [1] + OVERLONG == [1, 3, 4, 5];
  }

  lemma {:induction false} StaysStuck(envs: seq<Env>)
    requires forall k :: 0 <= k < |envs| ==> EnvOk(envs[k], Filled(OVERLONG))
    ensures LegalRun(Small(2), Fed(2, OVERLONG), OneStep() + Idling(envs))
    ensures var e := After(Small(2), Fed(2, OVERLONG), OneStep() + Idling(envs));
      e.pending.None? && e.s == Filled(OVERLONG).(prev := e.s.prev)
  {
    hide LegalRun, After, Schedule, SchedulePass, UpdateFromOutput, Fed, EnvOk, Filled;
    if envs == [] {
      ChunkFilled(2, OVERLONG);
      assert OneStep() + [] == OneStep();
    } else {
      var n := |envs| - 1;
      var c, fed, run := Small(2), Fed(2, OVERLONG), OneStep() + Idling(envs[..n]);
      StaysStuck(envs[..n]);
      var e := After(c, fed, run);
      var step := Event.Step(envs[n]);
      StuckStep(envs[n], e.s.prev);
      EnvOkAgain(envs[n], e.s.prev);
      NothingReported(Filled(OVERLONG).(prev := {}));
      Extended(c, fed, run, step);
      Extended(c, fed, run + [step], Event.Report(NO_NEWS));
      NoNewsIsLegal(e.s.(prev := {}));
      assert OneStep() + Idling(envs) == run + [step] + [Event.Report(NO_NEWS)];
    }
  }

  lemma EnvOkAgain(env: Env, prev: set<Id>)
    requires EnvOk(env, Filled(OVERLONG))
    ensures EnvOk(env, Filled(OVERLONG).(prev := prev))
  {
  }

  lemma NoNewsIsLegal(s: State)
    ensures AnswerOk(Small(2), s, Output([], map[], map[], [], [], [], {}), NO_NEWS)
  {
  }

  // ---------------------------------------------------------------- beyond the last position

  const TOO_LONG: seq<Token> := [3, 4, 5, 6]

  /**
   * An ordinary run, and then a chunk of which the first plan ends beyond the
   * last position: in the next step the session is scheduled with -1 tokens,
   * and more than the token budget is left.
   */
  lemma NegativeCount(env: Env)
    requires EnvOk(env, Filled(TOO_LONG)) && SlotAsk({1}, 1, 3) !in env.refused
    ensures LegalRun(Small(3), INITIAL, AwaitingRun()) && LegalRun(Small(3), Fed(3, TOO_LONG), OneStep())
    ensures var e := After(Small(3), Fed(3, TOO_LONG), OneStep());
            var p := SchedulePass(Small(3), env, e.s);
            && Legal(Small(3), e, Event.Step(env))
            && p.order == [1] && p.num == map[1 := -1] && p.budget == 4 && Small(3).maxScheduled == 3
  {
    hide LegalRun, After, AwaitingRun, EnvOk, Fed;
    ChunkFilled(3, TOO_LONG);
    NegativePass(env);
  }

  lemma NegativePass(env: Env)
    requires SlotAsk({1}, 1, 3) !in env.refused
    ensures var p := SchedulePass(Small(3), env, Filled(TOO_LONG)); p.order == [1] && p.num == map[1 := -1] && p.budget == 4
  {
    var c, s := Small(3), Filled(TOO_LONG);
    var p := Start(c, s);
    assert s.kv.Keys == {1};
    BeyondTheEnd(c, env, p, 1);
    var q := RunningStep(c, env, p);
    hide RunningStep;
    assert RunningLoop(c, env, q) == q;
    assert WaitingDone(c, q.(stop := false, loras := {}));
    assert map[][1 := -1] == map[1 := -1];
  }
}
