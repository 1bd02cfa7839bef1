/** Steps of short runs, for the states that examples start from. */
module Traces {
  import opened Seqs
  import opened Requests
  import opened SchedulerSpec
  import opened Accounting
  import opened Engine

  lemma EmptyRun(c: Config, e: Engine)
    ensures LegalRun(c, e, []) && After(c, e, []) == e
  {
  }

  lemma Extended(c: Config, e: Engine, run: seq<Event>, ev: Event)
    ensures After(c, e, run + [ev]) == Next(c, After(c, e, run), ev)
    ensures LegalRun(c, e, run) && Legal(c, After(c, e, run), ev) ==> LegalRun(c, e, run + [ev])
  {
    hide Next, Legal;
    var all := run + [ev];
    assert all[..|all| - 1] == run && all[|all| - 1] == ev;
  }

  /** A scheduler without limits in the way: no LoRA, no connector, every request gets its slots. */
  predicate Free(c: Config, env: Env) {
    !c.lora && !c.connector && c.chunked && env.refused == {} && env.hits == map[]
  }

  /** Request `id` is the only one that waits. */
  predicate Alone(s: State, id: Id) {
    (s.waiting == [id] && s.skipped == []) || (s.waiting == [] && s.skipped == [id])
  }

  lemma AdmitAtOnce(c: Config, env: Env, p: Pass, id: Id, plan: EncoderPlan)
    requires Free(c, env) && id in p.s.reqs && p.s.reqs[id].status == Waiting
    requires plan == WaitingPlan(c, env, p, p.s.reqs[id], id, p.s.reqs[id].computed) && plan.n > 0
    ensures Consider(c, env, p, id) == Admit(p.s, p.s.reqs[id].computed, plan)
  {
    hide WaitingPlan;
  }

  /** The only waiting request is admitted, with `plan`. */
  lemma AdmitOnly(c: Config, env: Env, p: Pass, id: Id, plan: EncoderPlan)
    requires Free(c, env) && Alone(p.s, id) && !WaitingDone(c, p)
    requires id in p.s.reqs && p.s.reqs[id].status == Waiting
    requires plan == WaitingPlan(c, env, p, p.s.reqs[id], id, p.s.reqs[id].computed) && plan.n > 0
    ensures WaitingLoop(c, env, p) == Admitted(p, id, plan)
  {
    hide WaitingPlan, Consider;
    assert HeadIndex(c, p.s, [id]) == 0 && Peek(c, p.s) == id;
    assert RemoveAt([id], 0) == [];
    AdmitAtOnce(c, env, p, id, plan);
    assert WaitingStep(c, env, p) == Admitted(p, id, plan);
    hide WaitingStep;
    assert WaitingDone(c, Admitted(p, id, plan));
  }

  function Admitted(p: Pass, id: Id, plan: EncoderPlan): Pass {
    var v := At(p.s, id);
    p.(s := Put(p.s, id, v.(status := Running))
              .(waiting := [], skipped := [], running := p.s.running + [id], kv := StartKv(p.s, id, v.computed)),
       budget := p.budget - plan.n, order := p.order + [id], num := p.num[id := plan.n],
       encs := if plan.embeds != [] then p.encs[id := Total(plan.embeds)] else p.encs,
       encBudget := if plan.embeds != [] then plan.budget else p.encBudget,
       newly := p.newly + [id])
  }

  /** A report on one prefill chunk changes nothing and says nothing. */
  lemma QuietReport(c: Config, s: State, out: Output, ans: Answer, id: Id)
    requires out.order == [id] && id in s.reqs && !IsFinished(s.reqs[id].status)
    requires Drafts(out.specs, id) == [] && ans == NO_NEWS
    ensures UpdateFromOutput(c, s, out, ans) == Updated(s, [])
  {
    var v := s.reqs[id];
    var a := Acc(s, {}, {}, []);
    assert out.order[..0] == [];
    assert UpdateAll(c, out, ans, {}, a, out.order[..0]) == a;
    assert Receive(c, v, [], [], false) == Appended(v, [], false);
    assert s.reqs[id := v] == s.reqs;
    assert UpdateAll(c, out, ans, {}, a, out.order) == a;
    WithoutNothing(s.running, {});
    WithoutNothing(s.waiting, {});
    hide UpdateAll, Without;
    assert s.reqs - {} == s.reqs && s.kv - {} == s.kv && s.recvDone + {} == s.recvDone;
  }

  /** One prefill chunk of request `id` is computed: a step and the report on it. */
  lemma ChunkComputed(c: Config, run: seq<Event>, e: Engine, env: Env, id: Id)
    requires LegalRun(c, INITIAL, run) && After(c, INITIAL, run) == e && e.pending.None? && EnvOk(env, e.s) && !c.mamba
    requires var out := OutputOf(SchedulePass(c, env, e.s)); out.order == [id] && out.specs == map[]
    requires var t := Schedule(c, env, e.s);
      id in t.reqs && t.reqs[id].prefill && !t.reqs[id].resumable && !IsFinished(t.reqs[id].status)
    ensures var all := run + [Event.Step(env)] + [Event.Report(NO_NEWS)];
      LegalRun(c, INITIAL, all) && After(c, INITIAL, all) == e.(s := Schedule(c, env, e.s))
  {
    hide LegalRun, After, Schedule, SchedulePass, UpdateFromOutput, EnvOk;
    var t, out := Schedule(c, env, e.s), OutputOf(SchedulePass(c, env, e.s));
    var f := e.(s := t, pending := Some(out));
    Extended(c, INITIAL, run, Event.Step(env));
    Extended(c, INITIAL, run + [Event.Step(env)], Event.Report(NO_NEWS));
    assert AnswerOk(c, t, out, NO_NEWS);
    QuietReport(c, t, out, NO_NEWS, id);
    assert e.log + [] == e.log;
  }

  const NO_NEWS := Answer(map[], {}, {}, map[], {}, {}, {})
}
