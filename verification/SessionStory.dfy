/**
 * The story of a streaming session over whole runs: the chunks `add_request`
 * got for it, in the order they came, each with the answer the client got.
 */
module SessionStory {
  import opened Seqs
  import opened Requests
  import opened SchedulerSpec
  import opened QueuePartition
  import opened Frames
  import opened Accounting
  import opened Admission
  import opened ScheduleStep
  import opened Engine
  import opened EngineStep
  import opened Receiving
  import opened Reporting
  import opened Recovering
  import opened Finishing
  import opened Interventions
  import opened ReportStep
  import opened Delivery
  import opened Reasons

  /** The request objects that `add_request` got for `id`, in their order. */
  function Given(run: seq<Event>, id: Id): seq<View> {
    if run == [] then []
    else
      var n := |run| - 1;
      Given(run[..n], id) + (if run[n].Add? && run[n].id == id then [run[n].v] else [])
  }

  /** What the client got for `id`, cut behind each message that gives a finish reason. */
  function Answers(log: seq<Message>, id: Id): (r: seq<seq<Token>>)
    ensures r != []
  {
    if log == [] then [[]] else Heard(Answers(log[..|log| - 1], id), log[|log| - 1], id)
  }

  function Heard(answers: seq<seq<Token>>, m: Message, id: Id): (r: seq<seq<Token>>)
    requires answers != []
    ensures r != []
  {
    var k := |answers| - 1;
    if m.id != id then answers
    else answers[..k] + [answers[k] + m.toks] + (if m.reason.Some? then [[]] else [])
  }

  /** All but the last token. */
  function Front(s: seq<Token>): seq<Token> { if s == [] then [] else s[..|s| - 1] }

  /** The first `j` chunks, and between them their answers without the last token of each. */
  function Text(given: seq<View>, answers: seq<seq<Token>>, j: nat): seq<Token>
    requires 0 < j <= |given| && j <= |answers| + 1
  {
    if j == 1 then given[0].prompt
    else Text(given, answers, j - 1) + Front(answers[j - 2]) + given[j - 1].prompt
  }

  /** What is queued for a later object: its chunk, or the end marker. */
  ghost predicate ChunkOf(u: Option<Update>, v: View) {
    if v.resumable
    then u.Some? && u.value.prompt == v.prompt && u.value.arrival == v.arrival && u.value.stops == v.stops && u.value.enc == v.enc
    else u.None?
  }

  /** The first `j` chunks have been consumed, the others wait in the queue, and the client got `answers`. */
  ghost predicate Consumed(given: seq<View>, v: View, answers: seq<seq<Token>>, j: nat)
    requires 0 < j <= |given| && j <= |answers|
  {
    && v.resumable && v.prompt == Text(given, answers, j) && v.output == answers[j - 1] && v.all == v.prompt + v.output
    && v.arrival == given[j - 1].arrival && v.stops == given[j - 1].stops
    && (v.enc <==> exists i :: 0 <= i < j && given[i].enc)
    && v.priority == given[0].priority && v.maxTokens == given[0].maxTokens && v.lora == given[0].lora
    && (forall i :: 0 <= i < j ==> given[i].resumable)
    && |v.queue| == |given| - j
    && (forall i :: 0 <= i < |v.queue| ==> ChunkOf(v.queue[i], given[j + i]))
  }

  /**
   * An unfinished session: one answer for each chunk consumed, the last of them
   * complete, with no chunk left, iff the session awaits input. Then all but its
   * last token has been computed.
   */
  ghost predicate Story(given: seq<View>, v: View, answers: seq<seq<Token>>) {
    var j := |given| - |v.queue|;
    && 0 < j <= |answers| && Consumed(given, v, answers, j)
    && if v.status == WaitingForStreamingReq
       then v.queue == [] && |answers| == j + 1 && answers[j] == [] && |v.prompt| <= v.computed == |v.all| - 1
       else |answers| == j
  }

  /** The story of `id` so far. */
  ghost predicate Knows(given: seq<View>, s: State, log: seq<Message>, id: Id) {
    id in s.reqs && !IsFinished(s.reqs[id].status) ==> Story(given, s.reqs[id], Answers(log, id))
  }

  // -------------------------------------------------------------------------------- texts

  lemma {:induction false} TextLocal(given: seq<View>, more: seq<View>, a: seq<seq<Token>>, b: seq<seq<Token>>, j: nat)
    requires 0 < j <= |given| && given <= more && j <= |a| + 1 && j <= |b| + 1 && a[..j - 1] == b[..j - 1]
    ensures Text(given, a, j) == Text(more, b, j)
  {
    if j > 1 {
      assert a[j - 2] == a[..j - 1][j - 2] == b[j - 2];
      assert a[..j - 2] == a[..j - 1][..j - 2] == b[..j - 2];
      TextLocal(given, more, a, b, j - 1);
    }
  }

  /** One more object comes and is queued. */
  lemma OneMoreChunk(given: seq<View>, v: View, answers: seq<seq<Token>>, w: View, u: Option<Update>)
    requires Story(given, v, answers) && v.status != WaitingForStreamingReq && ChunkOf(u, w)
    ensures Story(given + [w], v.(queue := v.queue + [u]), answers)
  {
    var j, more := |given| - |v.queue|, given + [w];
    TextLocal(given, more, answers, answers, j);
    forall i | 0 <= i < |v.queue| + 1 ensures ChunkOf((v.queue + [u])[i], more[j + i]) {
      if i < |v.queue| {
        assert more[j + i] == given[j + i];
      }
    }
    SomeEnc(given, more, j);
    hide ChunkOf, Text;
  }

  lemma SomeEnc(given: seq<View>, more: seq<View>, j: nat)
    requires j <= |given| && given <= more
    ensures (exists i :: 0 <= i < j && given[i].enc) <==> (exists i :: 0 <= i < j && more[i].enc)
  {
    assert forall i :: 0 <= i < j ==> given[i] == more[i];
  }

  /** Tokens are received, and told. */
  lemma Receives(given: seq<View>, v: View, w: View, answers: seq<seq<Token>>, m: Message)
    requires Story(given, v, answers) && v.status != WaitingForStreamingReq
    requires w == v.(output := v.output + m.toks, all := v.all + m.toks, status := w.status, computed := w.computed)
    ensures var j, later := |given| - |v.queue|, Heard(answers, m, m.id);
      && |later| == j + (if m.reason.Some? then 1 else 0) && (m.reason.Some? ==> later[j] == [])
      && Consumed(given, w, later, j)
  {
    var j, later := |given| - |v.queue|, Heard(answers, m, m.id);
    assert later[..j - 1] == answers[..j - 1];
    TextLocal(given, given, answers, later, j);
    assert v.prompt + v.output + m.toks == v.prompt + (v.output + m.toks);
    hide ChunkOf, Text;
  }

  /** The answer is complete, without its last token it becomes prompt, and the next chunk follows. */
  lemma TakesChunk(given: seq<View>, v: View, answers: seq<seq<Token>>, u: Update)
    requires v.queue != [] && v.queue[0] == Some(u)
    requires var j := |given| - |v.queue|; 0 < j && |answers| == j + 1 && answers[j] == [] && Consumed(given, v, answers, j)
    requires |v.prompt| <= v.computed == |v.all| - 1
    ensures Story(given, SessionView(v.(queue := v.queue[1..]), u), answers)
  {
    var j := |given| - |v.queue|;
    var w := SessionView(v.(queue := v.queue[1..]), u);
    assert ChunkOf(v.queue[0], given[j + 0]);
    KeptText(v);
    assert w.all == w.prompt + [];
    forall i | 0 <= i < |w.queue| ensures ChunkOf(w.queue[i], given[j + 1 + i]) {
      assert ChunkOf(v.queue[i + 1], given[j + (i + 1)]);
    }
    EncMore(given, j);
    hide ChunkOf, Take, Slice, Front;
  }

  /** The answer is kept without its last token. */
  lemma KeptText(v: View)
    requires v.all == v.prompt + v.output && |v.prompt| <= v.computed == |v.all| - 1
    ensures Slice(v.all, |v.prompt|, v.computed) == Front(v.output)
    ensures Take(v.all, v.computed) == v.prompt + Front(v.output)
  {
  }

  lemma EncMore(given: seq<View>, j: nat)
    requires j < |given|
    ensures (exists i :: 0 <= i < j + 1 && given[i].enc) <==> (exists i :: 0 <= i < j && given[i].enc) || given[j].enc
  {
    if i :| 0 <= i < j && given[i].enc {
      assert 0 <= i < j + 1 && given[i].enc;
    }
  }

  // ------------------------------------------------------------------------- simple events

  /** Unfinished requests stay, or go, with the same chunks and the same text. */
  ghost predicate Steady(s: State, t: State, id: Id) {
    id in t.reqs && !IsFinished(t.reqs[id].status) ==>
      && id in s.reqs && !IsFinished(s.reqs[id].status)
      && var v, w := s.reqs[id], t.reqs[id];
         && w == v.(status := w.status, computed := w.computed, spec := w.spec, prefill := w.prefill, preemptions := w.preemptions)
         && (w.status == WaitingForStreamingReq <==> v.status == WaitingForStreamingReq)
         && (v.status == WaitingForStreamingReq ==> w.computed == v.computed)
  }

  lemma SteadyKnows(given: seq<View>, s: State, t: State, log: seq<Message>, id: Id)
    requires Knows(given, s, log, id) && Steady(s, t, id)
    ensures Knows(given, t, log, id)
  {
    hide Text, ChunkOf, Answers;
  }

  lemma SteadyTwice(s: State, t: State, u: State, id: Id)
    requires Steady(s, t, id) && Steady(t, u, id)
    ensures Steady(s, u, id)
  {
  }

  lemma StepSteady(c: Config, e: Engine, env: Env, id: Id)
    requires EngineInv(c, e) && Legal(c, e, Event.Step(env))
    ensures Steady(e.s, Next(c, e, Event.Step(env)).s, id)
  {
    AtRest(c, e);
    StepParts(c, e, env);
    StepNext(c, e, env);
    var p := SchedulePass(c, env, e.s);
    hide SchedulePass, Next, EngineInv, Legal, Rest, EnvOk, PassOk, Books, AfterSchedule, Steady;
    SchedulePassOk(c, env, e.s);
    PassOkParts(c, e.s, p);
    FramedSteady(c, e.s, p.s, id);
    AdvancedSteady(c, Tokens(c, e.s), p, id);
    SteadyTwice(e.s, p.s, AfterSchedule(p.s, p.order, p.num, p.specs), id);
  }

  lemma FramedSteady(c: Config, s: State, t: State, id: Id)
    requires Framed(c, s, t)
    ensures Steady(s, t, id)
  {
    if id in t.reqs {
      assert id in s.reqs.Keys && Touched(c, s.reqs[id], t.reqs[id]);
    }
  }

  lemma AdvancedSteady(c: Config, total: int, p: Pass, id: Id)
    requires Partition(p.s, []) && Books(c, total, p)
    ensures Steady(p.s, AfterSchedule(p.s, p.order, p.num, p.specs), id)
  {
    if id in p.num {
      assert id in p.order;
      RunningKnown(p.s, id);
    }
    hide WriteKv, Partition, Books;
  }

  lemma FinishSteady(s: State, ids: set<Id>, st: Status, delay: set<Id>, id: Id)
    requires IsFinished(st)
    ensures Steady(s, FinishRequests(s, ids, st, delay), id)
  {
    FinishViews(s, ids, st, delay);
    hide FinishRequests, DelayedFree, Finishable;
  }

  lemma TransferSteady(s: State, recv: set<Id>, send: set<Id>, id: Id)
    ensures Steady(s, TransfersFinished(s, recv, send), id)
  {
    hide WithStatus;
  }

  lemma {:induction false} ResetSteady(s: State, id: Id)
    requires Partition(s, [])
    ensures Steady(s, PreemptAll(s), id)
    decreases |s.running|
  {
    if s.running != [] {
      var n := |s.running| - 1;
      var x := s.running[n];
      assert RemoveAt(s.running, n) == s.running[..n];
      RunningKnown(s, x);
      PreemptKeeps(s, n, []);
      PreemptShortens(s);
      var t := Preempt(s.(running := s.running[..n]), x);
      hide Partition;
      assert Steady(s, t, id);
      hide Preempt, Steady;
      ResetSteady(t, id);
      SteadyTwice(s, t, PreemptAll(t), id);
    }
  }

  // ------------------------------------------------------------------------------ arrivals

  lemma NewStory(c: Config, v: View)
    requires NewRequest(c, v) && v.resumable
    ensures Story([v], v, [[]])
  {
    assert v.prompt + [] == v.prompt;
    assert [v][0].enc == v.enc;
  }

  lemma {:induction false} NobodyHeard(log: seq<Message>, id: Id)
    requires forall k :: 0 <= k < |log| ==> log[k].id != id
    ensures Answers(log, id) == [[]]
  {
    if log != [] {
      NobodyHeard(log[..|log| - 1], id);
    }
  }

  /** A further object comes for a session: it is queued, consumed, or ends the session. */
  lemma AddStory(s: State, log: seq<Message>, id: Id, v: View, late: set<Id>, given: seq<View>)
    requires id in s.reqs && Story(given, s.reqs[id], Answers(log, id))
    ensures Knows(given + [v], AddRequest(s, id, v, late), log, id)
  {
    var w, answers := s.reqs[id], Answers(log, id);
    hide Answers, Story;
    if w.status != WaitingForStreamingReq {
      OneMoreChunk(given, w, answers, v, UpdateOf(v));
    } else if v.resumable {
      NextChunkStory(given, w, answers, v, UpdateOf(v).value);
      hide SessionView;
    } else {
      FinishViews(s, {id}, FinishedAborted, late);
      hide FinishRequests, DelayedFree;
    }
  }

  lemma NextChunkStory(given: seq<View>, w: View, answers: seq<seq<Token>>, v: View, u: Update)
    requires Story(given, w, answers) && w.status == WaitingForStreamingReq && v.resumable && UpdateOf(v) == Some(u)
    ensures Story(given + [v], SessionView(w, u), answers)
  {
    var held := w.(queue := [Some(u)]);
    AwaitsChunk(given, w, answers, v, u);
    assert held.(queue := held.queue[1..]) == w by {
      assert w.queue == [];
    }
    hide Story, Consumed, SessionView;
    TakesChunk(given + [v], held, answers, u);
  }

  lemma AwaitsChunk(given: seq<View>, w: View, answers: seq<seq<Token>>, v: View, u: Update)
    requires Story(given, w, answers) && w.status == WaitingForStreamingReq && v.resumable && UpdateOf(v) == Some(u)
    ensures var j := |given|;
      && 0 < j && |answers| == j + 1 && answers[j] == []
      && Consumed(given + [v], w.(queue := [Some(u)]), answers, j) && |w.prompt| <= w.computed == |w.all| - 1
  {
    TextLocal(given, given + [v], answers, answers, |given|);
    SomeEnc(given, given + [v], |given|);
    hide Text;
  }

  // ------------------------------------------------------------------------------- reports

  /** The message about what a request receives; no tokens, no message. */
  function MessageFor(id: Id, r: Appended): Message {
    Message(id, r.toks, if r.stopped then ReasonOf(r.v.status) else None)
  }

  /** Whatever becomes of the request, its story goes on. */
  lemma TreatedStory(
      c: Config, v: View, n: int, d: seq<Token>, gen: seq<Token>, rejected: bool, given: seq<View>, answers: seq<seq<Token>>, id: Id)
    requires Flying(c, v, n, d) && TokensOk(v, d, gen) && Story(given, v, answers)
    ensures var r := Receive(c, v, d, gen, rejected);
      Treatment(r).Finish? || Story(given, Treated(r), Heard(answers, MessageFor(id, r), id))
  {
    SessionReceives(c, v, n, d, gen, rejected);
    hide Receive, TokensOk, Story, Heard, Flying, ReasonOf, Treatment, Treated;
    if !Treatment(Receive(c, v, d, gen, rejected)).Finish? {
      GoesOnWithStory(v, Receive(c, v, d, gen, rejected), given, answers, id);
    }
  }

  lemma GoesOnWithStory(v: View, r: Appended, given: seq<View>, answers: seq<seq<Token>>, id: Id)
    requires Story(given, v, answers) && v.status == Running && !Treatment(r).Finish?
    requires !r.stopped ==> r.v.status == Running
    requires r.stopped ==> ReasonOf(r.v.status).Some? && |r.v.prompt| <= r.v.computed == |r.v.all| - 1
    requires r.v == v.(output := v.output + r.toks, all := v.all + r.toks, status := r.v.status, computed := r.v.computed)
    ensures Story(given, Treated(r), Heard(answers, MessageFor(id, r), id))
  {
    hide Consumed, Heard, ReasonOf, SessionView;
    Receives(given, v, r.v, answers, MessageFor(id, r));
    var later := Heard(answers, MessageFor(id, r), id);
    if Treatment(r).NextChunk? {
      TakesChunk(given, r.v, later, r.v.queue[0].value);
    } else if Treatment(r).AwaitInput? {
      AwaitStory(given, r.v, later);
    }
  }

  /** A session that goes on has received tokens, and computed all but the last when it stopped. */
  lemma SessionReceives(c: Config, v: View, n: int, d: seq<Token>, gen: seq<Token>, rejected: bool)
    requires Flying(c, v, n, d) && TokensOk(v, d, gen) && v.resumable
    ensures var r := Receive(c, v, d, gen, rejected);
      && v.status == Running
      && (!r.stopped ==> r.v.status == Running)
      && (r.stopped ==> IsFinished(r.v.status) && ReasonOf(r.v.status).Some?)
      && (Treatment(r).Finish? || 
            (&& r.v == v.(output := v.output + r.toks, all := v.all + r.toks, status := r.v.status, computed := r.v.computed)
             && (r.stopped ==> |r.v.prompt| <= r.v.computed == |r.v.all| - 1)))
  {
    ReceiveShape(c, v, d, gen, rejected);
    StoppedSession(c, v, n, d, gen, rejected);
    hide Receive, TokensOk, ReasonOf;
  }

  lemma AwaitStory(given: seq<View>, v: View, answers: seq<seq<Token>>)
    requires var j := |given| - |v.queue|; 0 < j <= |answers| && Consumed(given, v, answers, j)
    requires v.queue == []
    ensures Consumed(given, v.(status := WaitingForStreamingReq), answers, |given|)
  {
  }

  lemma SilentAnswers(answers: seq<seq<Token>>, id: Id)
    requires answers != []
    ensures Heard(answers, Message(id, [], None), id) == answers
  {
    var k := |answers| - 1;
    assert answers[k] + [] == answers[k];
    assert answers[..k] + [answers[k]] == answers;
  }

  lemma HeardNext(log: seq<Message>, m: Message, id: Id)
    ensures Answers(log + [m], id) == Heard(Answers(log, id), m, id)
  {
    assert (log + [m])[..|log|] == log;
  }

  lemma UpdateOneStory(
      c: Config, out: Output, ans: Answer, failed: set<Id>, done: seq<Id>, a: Acc, id: Id, given: seq<View>, log: seq<Message>)
    requires Current(c, out, ans, failed, done, a, id) && Story(given, a.s.reqs[id], Answers(log + a.msgs, id))
    ensures var b := UpdateOne(c, out, ans, failed, a, id); Knows(given, b.s, log + b.msgs, id)
  {
    var v, d, gen := a.s.reqs[id], Drafts(out.specs, id), TokensFor(ans, id);
    var r := Receive(c, v, d, gen, id in ans.rejected);
    var b := UpdateOne(c, out, ans, failed, a, id);
    CurrentFacts(c, out, ans, failed, done, a, id);
    assert id !in failed;
    UpdateOneShape(c, out, ans, failed, a, id);
    UpdateOneText(c, out, ans, failed, a, id);
    TreatedStory(c, v, Get(out.num, id), d, gen, id in ans.rejected, given, Answers(log + a.msgs, id), id);
    FinishIsFinal(c, v, d, gen, id in ans.rejected);
    hide Receive, Current, UpdateOne, Treatment, Treated, Story, Heard, Answers, ReasonOf, Drafts, TokensFor, Flying, FlyingKv, TokensOk;
    if b.msgs == a.msgs {
      SilentAnswers(Answers(log + a.msgs, id), id);
    } else {
      HeardNext(log + a.msgs, MessageFor(id, r), id);
      assert log + b.msgs == log + a.msgs + [MessageFor(id, r)];
    }
  }

  lemma FinishIsFinal(c: Config, v: View, d: seq<Token>, gen: seq<Token>, rejected: bool)
    ensures var r := Receive(c, v, d, gen, rejected);
      Treatment(r).Finish? ==> IsFinished(Treated(r).status)
  {
    ReceiveShape(c, v, d, gen, rejected);
    hide Receive;
  }

  lemma UpdateStepStory(
      c: Config, out: Output, ans: Answer, failed: set<Id>, done: seq<Id>, a: Acc, x: Id, id: Id, given: seq<View>, log: seq<Message>)
    requires x in out.order && x !in done
    requires MidInv(c, out, failed, done, a) && ReportsOk(c, out, ans, failed, done, a.s) && Knows(given, a.s, log + a.msgs, id)
    ensures var b := UpdateOne(c, out, ans, failed, a, x); Knows(given, b.s, log + b.msgs, id)
  {
    hide MidInv, UpdateOne, TokensOk, NextInputFits, Story, Answers;
    if x in failed || x !in a.s.reqs || IsFinished(a.s.reqs[x].status) {
      UpdateOneNothing(c, out, ans, failed, a, x);
    } else if x == id {
      hide Knows;
      KnowsStory(given, a.s, log + a.msgs, id);
      UpdateOneStory(c, out, ans, failed, done, a, id, given, log);
    } else {
      BusyRuns(c, out, failed, done, a, x);
      UpdateOneText(c, out, ans, failed, a, x);
      var b := UpdateOne(c, out, ans, failed, a, x);
      if b.msgs != a.msgs {
        HeardNext(log + a.msgs, b.msgs[|a.msgs|], id);
        assert log + b.msgs == log + a.msgs + [b.msgs[|a.msgs|]];
      }
      hide Receive;
    }
  }

  lemma KnowsStory(given: seq<View>, s: State, log: seq<Message>, id: Id)
    requires Knows(given, s, log, id) && id in s.reqs && !IsFinished(s.reqs[id].status)
    ensures Story(given, s.reqs[id], Answers(log, id))
  {
  }

  lemma {:induction false} UpdateAllStory(
      c: Config, out: Output, ans: Answer, failed: set<Id>, a: Acc, n: nat, id: Id, given: seq<View>, log: seq<Message>)
    requires NoDup(out.order) && n <= |out.order| && Knows(given, a.s, log + a.msgs, id)
    requires MidInv(c, out, failed, [], a) && ReportsOk(c, out, ans, failed, [], a.s)
    ensures var b := UpdateAll(c, out, ans, failed, a, out.order[..n]); Knows(given, b.s, log + b.msgs, id)
  {
    hide MidInv, ReportsOk, UpdateOne, Knows;
    if n > 0 {
      UpdateAllStory(c, out, ans, failed, a, n - 1, id, given, log);
      UpdateAllInv(c, out, ans, failed, a, n - 1);
      NextInOrder(out.order, n - 1);
      var ids := out.order[..n];
      assert ids[..n - 1] == out.order[..n - 1] && ids[n - 1] == out.order[n - 1];
      UpdateStepStory(c, out, ans, failed, out.order[..n - 1],
                      UpdateAll(c, out, ans, failed, a, out.order[..n - 1]), out.order[n - 1], id, given, log);
    } else {
      assert out.order[..0] == [];
    }
  }

  lemma RecoveredSteady(s: State, r: Recovery, num: map<Id, int>, id: Id)
    requires RecoveryOk(s, num, r)
    ensures Steady(s, r.s, id)
  {
    if id in s.reqs {
      assert RecoveredRequest(s, num, r, id);
    }
  }

  lemma LoopStory(c: Config, e: Engine, ans: Answer, id: Id, given: seq<View>)
    requires EngineInv(c, e) && Legal(c, e, Event.Report(ans)) && Knows(given, e.s, e.log, id)
    ensures e.pending.Some?
    ensures var a := Loop(c, e.s, e.pending.value, ans); Knows(given, Settled(a), e.log + a.msgs, id)
  {
    var out := e.pending.value;
    var r := HandleInvalid(c, e.s, out.num, ans);
    assert AnswerOk(c, e.s, out, ans) && LoadsDisjoint(e.s, ans) && NoDup(out.order);
    hide HandleInvalid, LoadsDisjoint, UpdateAll, MidInv, EngineInv, AnswerOk, ReportsOk, RecoveryOk, Knows, Steady, Settled;
    RecoveredMid(c, e, ans);
    ReportsApply(c, e, ans, r);
    RecoveredSteady(e.s, r, out.num, id);
    SteadyKnows(given, e.s, r.s, e.log, id);
    assert out.order[..|out.order|] == out.order && e.log + [] == e.log;
    UpdateAllStory(c, out, ans, r.failed, Acc(r.s, {}, {}, []), |out.order|, id, given, e.log);
    SettledKnows(given, Loop(c, e.s, out, ans), e.log + Loop(c, e.s, out, ans).msgs, id);
  }

  lemma SettledKnows(given: seq<View>, a: Acc, log: seq<Message>, id: Id)
    requires Knows(given, a.s, log, id)
    ensures Knows(given, Settled(a), log, id)
  {
    hide Without, Story;
  }

  lemma {:induction false} FailAnswers(log: seq<Message>, q: seq<Id>, failed: set<Id>, id: Id)
    requires id !in failed
    ensures Answers(log + FailMessages(q, failed), id) == Answers(log, id)
  {
    if q == [] {
      assert log + [] == log;
    } else {
      var n := |q| - 1;
      FailAnswers(log, q[..n], failed, id);
      var front := log + FailMessages(q[..n], failed);
      if q[n] in failed {
        var m := Message(q[n], [], Some(FinishReason.Error));
        assert log + FailMessages(q, failed) == front + [m];
        HeardNext(front, m, id);
      } else {
        assert log + FailMessages(q, failed) == front;
      }
    }
  }

  lemma ReportStory(c: Config, e: Engine, ans: Answer, id: Id, given: seq<View>)
    requires EngineInv(c, e) && Legal(c, e, Event.Report(ans)) && Knows(given, e.s, e.log, id)
    ensures var f := Next(c, e, Event.Report(ans)); Knows(given, f.s, f.log, id)
  {
    hide EngineInv, Legal, Knows, AfterFail, UpdateFromOutput, Loop, Settled, FailedNow, HandleInvalid, FinishRequests,
         FailMessages, TransfersFinished, Steady, AllFaithful;
    LoopStory(c, e, ans, id, given);
    ReportStages(c, e, ans);
    FailStory(c, e, ans, id, given);
    var out := e.pending.value;
    var u := AfterFail(c, e.s, out, ans);
    TransferSteady(u, ans.recv, ans.send, id);
    SteadyKnows(given, u, TransfersFinished(u, ans.recv, ans.send), e.log + UpdateFromOutput(c, e.s, out, ans).msgs, id);
  }

  lemma FailStory(c: Config, e: Engine, ans: Answer, id: Id, given: seq<View>)
    requires EngineInv(c, e) && Legal(c, e, Event.Report(ans)) && e.pending.Some?
    requires var a := Loop(c, e.s, e.pending.value, ans); Knows(given, Settled(a), e.log + a.msgs, id)
    ensures var out := e.pending.value;
      Knows(given, AfterFail(c, e.s, out, ans), e.log + UpdateFromOutput(c, e.s, out, ans).msgs, id)
  {
    hide EngineInv, Legal, Knows, AfterFail, UpdateFromOutput, Loop, Settled, FailedNow, HandleInvalid, FinishRequests,
         FailMessages, Steady;
    var out := e.pending.value;
    var a, failed, q := Loop(c, e.s, out, ans), FailedNow(c, e.s, out, ans), e.s.skipped + e.s.running;
    AfterFailIs(c, e.s, out, ans);
    ReportMessages(c, e.s, out, ans);
    FailedParts(c, e.s, out, ans);
    if failed != {} {
      assert e.log + a.msgs + FailMessages(q, failed) == e.log + (a.msgs + FailMessages(q, failed));
      FailedKnown(c, e, ans);
      FailKnows(given, Settled(a), e.log + a.msgs, q, failed, ans.delay, id);
    }
  }

  lemma FailedKnown(c: Config, e: Engine, ans: Answer)
    requires EngineInv(c, e) && Legal(c, e, Event.Report(ans)) && e.pending.Some?
    ensures var s := Settled(Loop(c, e.s, e.pending.value, ans));
      forall id :: id in HandleInvalid(c, e.s, e.pending.value.num, ans).failed ==> id in s.reqs && !IsFinished(s.reqs[id].status)
  {
    var out := e.pending.value;
    var r := HandleInvalid(c, e.s, out.num, ans);
    var a := Acc(r.s, {}, {}, []);
    assert AnswerOk(c, e.s, out, ans) && LoadsDisjoint(e.s, ans);
    hide HandleInvalid, LoadsDisjoint, UpdateAll, MidInv, EngineInv, AnswerOk, RecoveryOk, TextsKept, Without;
    RecoveredMid(c, e, ans);
    RecoveredTexts(e.s, r, out.num);
    forall id | id in r.failed
      ensures id in Settled(Loop(c, e.s, out, ans)).reqs && !IsFinished(Settled(Loop(c, e.s, out, ans)).reqs[id].status)
    {
      FailedUntouched(c, out, ans, r.failed, a, out.order, id);
    }
  }

  lemma FailKnows(given: seq<View>, s: State, log: seq<Message>, q: seq<Id>, failed: set<Id>, delay: set<Id>, id: Id)
    requires Knows(given, s, log, id)
    requires forall x :: x in failed ==> x in s.reqs && !IsFinished(s.reqs[x].status)
    ensures Knows(given, FinishRequests(s, failed, FinishedError, delay), log + FailMessages(q, failed), id)
  {
    FinishSteady(s, failed, FinishedError, delay, id);
    FailedEnd(s, failed, delay);
    hide FinishRequests, Story, Steady, FailMessages, Answers, TextsKept;
    if id !in failed {
      FailAnswers(log, q, failed, id);
      SteadyKnows(given, s, FinishRequests(s, failed, FinishedError, delay), log, id);
    }
  }

  // ---------------------------------------------------------------------------- whole runs

  /** What holds of `id` between two events, `given` having come for it. */
  ghost predicate StoryOk(given: seq<View>, e: Engine, id: Id) {
    && (given == [] <==> id !in e.seen)
    && (given != [] && given[0].resumable ==> Knows(given, e.s, e.log, id))
  }

  lemma NextStory(c: Config, e: Engine, ev: Event, id: Id, given: seq<View>)
    requires EngineInv(c, e) && Legal(c, e, ev) && AllFaithful(e.seen, e.s, e.log) && StoryOk(given, e, id)
    ensures StoryOk(given + (if ev.Add? && ev.id == id then [ev.v] else []), Next(c, e, ev), id)
  {
    hide EngineInv, Knows, AllFaithful;
    if ev.Add? && ev.id == id {
      AddedStory(c, e, id, ev.v, ev.late, given);
    } else {
      assert given + [] == given;
      SameSeen(c, e, ev, id);
      if given != [] && given[0].resumable {
        OtherStory(c, e, ev, id, given);
      }
      hide Next;
    }
  }

  lemma SameSeen(c: Config, e: Engine, ev: Event, id: Id)
    requires !(ev.Add? && ev.id == id)
    ensures id in Next(c, e, ev).seen <==> id in e.seen
  {
    hide Schedule, SchedulePass, UpdateFromOutput, AddRequest, FinishRequests, PreemptAll;
  }

  lemma AddedStory(c: Config, e: Engine, id: Id, v: View, late: set<Id>, given: seq<View>)
    requires EngineInv(c, e) && Legal(c, e, Event.Add(id, v, late)) && AllFaithful(e.seen, e.s, e.log) && StoryOk(given, e, id)
    ensures StoryOk(given + [v], Next(c, e, Event.Add(id, v, late)), id)
  {
    InvParts(c, e);
    hide EngineInv, Story, Partition, LoadsOk, PrevOk, PendingOk, RequestOk, Faithful, Answers;
    if id in e.s.reqs {
      hide Enqueue, FinishRequests;
      if given[0].resumable {
        AddStory(e.s, e.log, id, v, late, given);
      }
    } else if v.resumable {
      NewStory(c, v);
      NobodyHeard(e.log, id);
    }
  }

  lemma OtherStory(c: Config, e: Engine, ev: Event, id: Id, given: seq<View>)
    requires EngineInv(c, e) && Legal(c, e, ev) && Knows(given, e.s, e.log, id) && !(ev.Add? && ev.id == id)
    ensures var f := Next(c, e, ev); Knows(given, f.s, f.log, id)
  {
    hide EngineInv, Knows, Steady;
    match ev {
      case Step(env) =>
        StepSteady(c, e, env, id);
        hide Schedule, SchedulePass;
        SteadyKnows(given, e.s, Next(c, e, ev).s, e.log, id);
      case Report(ans) =>
        hide UpdateFromOutput, Legal;
        ReportStory(c, e, ans, id, given);
      case _ =>
        QuietSteady(c, e, ev, id);
        hide AddRequest, FinishRequests, PreemptAll, UpdateDrafts, Legal;
        SteadyKnows(given, e.s, Next(c, e, ev).s, e.log, id);
    }
  }

  lemma AddSteady(s: State, x: Id, v: View, late: set<Id>, id: Id)
    requires x != id
    ensures Steady(s, AddRequest(s, x, v, late), id)
  {
    FinishSteady(s, {x}, FinishedAborted, late, id);
    hide FinishRequests;
  }

  lemma QuietSteady(c: Config, e: Engine, ev: Event, id: Id)
    requires EngineInv(c, e) && Legal(c, e, ev) && !ev.Step? && !ev.Report? && !(ev.Add? && ev.id == id)
    ensures Steady(e.s, Next(c, e, ev).s, id)
  {
    hide Partition;
    match ev {
      case Draft(drafts) => hide EngineInv;
      case Add(x, v, late) =>
        hide EngineInv;
        AddSteady(e.s, x, v, late, id);
        hide AddRequest;
      case Abort(ids, st, late) =>
        hide EngineInv, FinishRequests;
        FinishSteady(e.s, ids, st, late, id);
      case Reset(running) =>
        InvParts(c, e);
        ResetSteady(e.s, id);
        hide PreemptAll, EngineInv;
      case SetPause(pause) => hide EngineInv;
    }
  }

  /**
   * In every reachable state, of an unfinished session: the chunks added to it
   * are, in order, those consumed so far followed by its queue, the last
   * consumed gave it arrival time and stop tokens, and no end marker is among
   * them; the client got one answer for each, and the prompt is all of them,
   * chunk and answer in turn, each answer without its last token.
   */
  lemma {:induction false} EverySessionHasItsStory(c: Config, run: seq<Event>, id: Id)
    requires LegalRun(c, INITIAL, run)
    ensures var e := After(c, INITIAL, run); StoryOk(Given(run, id), e, id)
  {
    if run != [] {
      var front := run[..|run| - 1];
      EverySessionHasItsStory(c, front, id);
      InitialInv(c);
      hide EngineInv, Legal, Next, AllFaithful, StoryOk;
      RunKeepsInv(c, INITIAL, front);
      ExactlyOnceDelivery(c, front);
      NextStory(c, After(c, INITIAL, front), run[|run| - 1], id, Given(front, id));
    }
  }

  // ----------------------------------------------------------------- what a report makes of a request

  /** A request goes on, ends, takes the next chunk of its session, or awaits it. */
  ghost predicate Turned(s: State, id: Id, v: View, stopped: bool, rejected: bool) {
    if !stopped then id in s.reqs && s.reqs[id].status == Running && s.reqs[id].queue == v.queue
    else if rejected || !v.resumable || (v.queue != [] && v.queue[0].None?) then id !in Unfinished(s)
    else if v.queue != [] then id in s.reqs && s.reqs[id].status == Waiting && s.reqs[id].queue == v.queue[1..]
    else id in s.reqs && s.reqs[id].status == WaitingForStreamingReq && s.reqs[id].queue == []
  }

  ghost predicate TurnedWhenDone(s: State, id: Id, v: View, stopped: bool, rejected: bool, done: bool) {
    if done then Turned(s, id, v, stopped, rejected) else id in s.reqs && s.reqs[id] == v
  }

  lemma TreatedTurned(c: Config, v: View, d: seq<Token>, gen: seq<Token>, rejected: bool, s: State, id: Id, delayed: bool)
    requires v.status == Running
    requires var r := Receive(c, v, d, gen, rejected);
      if Treatment(r).Finish? && !delayed then id !in s.reqs else id in s.reqs && s.reqs[id] == Treated(r)
    ensures Turned(s, id, v, Receive(c, v, d, gen, rejected).stopped, rejected)
  {
    ReceiveShape(c, v, d, gen, rejected);
    hide Receive;
  }

  lemma TurnOne(c: Config, out: Output, ans: Answer, failed: set<Id>, done: seq<Id>, a: Acc, x: Id, id: Id, v: View)
    requires MidInv(c, out, failed, done, a) && x in out.order && x !in done && id !in failed && !IsFinished(v.status)
    requires var stopped := Receive(c, v, Drafts(out.specs, id), TokensFor(ans, id), id in ans.rejected).stopped;
      TurnedWhenDone(a.s, id, v, stopped, id in ans.rejected, id in done)
    ensures var stopped := Receive(c, v, Drafts(out.specs, id), TokensFor(ans, id), id in ans.rejected).stopped;
      TurnedWhenDone(UpdateOne(c, out, ans, failed, a, x).s, id, v, stopped, id in ans.rejected, id in done || x == id)
  {
    hide UpdateOne, Receive, Drafts, TokensFor, MidInv, Treatment, Treated, Turned;
    if x in failed || x !in a.s.reqs || IsFinished(a.s.reqs[x].status) {
      UpdateOneNothing(c, out, ans, failed, a, x);
    } else {
      BusyRuns(c, out, failed, done, a, x);
      if x == id {
        UpdateOneShape(c, out, ans, failed, a, id);
        TreatedTurned(c, v, Drafts(out.specs, id), TokensFor(ans, id), id in ans.rejected,
                      UpdateOne(c, out, ans, failed, a, id).s, id, id in ans.delay);
      } else {
        UpdateOneOthers(c, out, ans, failed, a, x);
        OtherTurn(a.s, UpdateOne(c, out, ans, failed, a, x).s, x, id, v,
                  Receive(c, v, Drafts(out.specs, id), TokensFor(ans, id), id in ans.rejected).stopped, id in ans.rejected);
      }
    }
  }

  lemma OtherTurn(s: State, t: State, x: Id, id: Id, v: View, stopped: bool, rejected: bool)
    requires SameBut(s, t, x) && x != id
    ensures Turned(s, id, v, stopped, rejected) ==> Turned(t, id, v, stopped, rejected)
    ensures id in s.reqs ==> id in t.reqs && t.reqs[id] == s.reqs[id]
  {
  }

  lemma {:induction false} TurnAll(c: Config, out: Output, ans: Answer, failed: set<Id>, a: Acc, n: nat, id: Id)
    requires NoDup(out.order) && n <= |out.order| && id !in failed && id in a.s.reqs && !IsFinished(a.s.reqs[id].status)
    requires MidInv(c, out, failed, [], a) && ReportsOk(c, out, ans, failed, [], a.s)
    ensures var v := a.s.reqs[id];
            var stopped := Receive(c, v, Drafts(out.specs, id), TokensFor(ans, id), id in ans.rejected).stopped;
            var b := UpdateAll(c, out, ans, failed, a, out.order[..n]);
      TurnedWhenDone(b.s, id, v, stopped, id in ans.rejected, id in out.order[..n])
  {
    hide MidInv, ReportsOk, UpdateOne, Receive, Drafts, TokensFor, Turned;
    if n > 0 {
      TurnAll(c, out, ans, failed, a, n - 1, id);
      UpdateAllInv(c, out, ans, failed, a, n - 1);
      NextInOrder(out.order, n - 1);
      var ids := out.order[..n];
      assert ids[..n - 1] == out.order[..n - 1] && ids[n - 1] == out.order[n - 1];
      hide TurnedWhenDone;
      TurnOne(c, out, ans, failed, out.order[..n - 1], UpdateAll(c, out, ans, failed, a, out.order[..n - 1]),
              out.order[n - 1], id, a.s.reqs[id]);
    } else {
      assert out.order[..0] == [];
    }
  }

  lemma LoopTurns(c: Config, e: Engine, ans: Answer, id: Id)
    requires EngineInv(c, e) && Legal(c, e, Event.Report(ans)) && InFlight(e, id)
    requires id !in HandleInvalid(c, e.s, e.pending.value.num, ans).failed
    ensures var out := e.pending.value;
            var v := e.s.reqs[id];
      Turned(Settled(Loop(c, e.s, out, ans)), id, v,
             Receive(c, v, Drafts(out.specs, id), TokensFor(ans, id), id in ans.rejected).stopped, id in ans.rejected)
  {
    var out := e.pending.value;
    var r := HandleInvalid(c, e.s, out.num, ans);
    assert AnswerOk(c, e.s, out, ans) && LoadsDisjoint(e.s, ans) && NoDup(out.order);
    assert out.order[..|out.order|] == out.order;
    hide HandleInvalid, LoadsDisjoint, UpdateAll, MidInv, EngineInv, AnswerOk, ReportsOk, RecoveryOk, Receive, Without;
    RecoveredMid(c, e, ans);
    ReportsApply(c, e, ans, r);
    InFlightUnchanged(c, e, r, id);
    TurnAll(c, out, ans, r.failed, Acc(r.s, {}, {}, []), |out.order|, id);
  }

  /**
   * What a report makes of each request in flight: one that meets no end keeps
   * running and keeps its chunks; a session that does takes the next chunk,
   * exactly one, and waits in a queue again, or awaits it when there is none;
   * the end marker ends it, and all other requests end with their last token.
   */
  lemma ReportTurns(c: Config, e: Engine, ans: Answer, id: Id)
    requires EngineInv(c, e) && Legal(c, e, Event.Report(ans)) && InFlight(e, id)
    requires id !in HandleInvalid(c, e.s, e.pending.value.num, ans).failed
    ensures var out := e.pending.value;
            var v := e.s.reqs[id];
            var r := Receive(c, v, Drafts(out.specs, id), TokensFor(ans, id), id in ans.rejected);
      && (r.stopped <==> r.toks != [] && (id in ans.rejected || AtEnd(c, v, v.output + r.toks)))
      && Turned(Next(c, e, Event.Report(ans)).s, id, v, r.stopped, id in ans.rejected)
  {
    hide EngineInv, Legal, HandleInvalid, Receive, AtEnd, Turned, Loop, Settled, AfterFail, TransfersFinished, Next, Drafts, TokensFor,
         FailedNow;
    var out := e.pending.value;
    InFlightText(c, e, id);
    ReceiveReason(c, e.s.reqs[id], Drafts(out.specs, id), TokensFor(ans, id), id in ans.rejected);
    LoopTurns(c, e, ans, id);
    ReportStages(c, e, ans);
    FailedParts(c, e.s, out, ans);
    AfterFailIs(c, e.s, out, ans);
    var v, s := e.s.reqs[id], Settled(Loop(c, e.s, out, ans));
    var stopped := Receive(c, v, Drafts(out.specs, id), TokensFor(ans, id), id in ans.rejected).stopped;
    FinishTurned(s, FailedNow(c, e.s, out, ans), ans.delay, id, v, stopped, id in ans.rejected);
    TransferTurned(AfterFail(c, e.s, out, ans), ans.recv, ans.send, id, v, stopped, id in ans.rejected);
  }

  lemma FinishTurned(s: State, failed: set<Id>, delay: set<Id>, id: Id, v: View, stopped: bool, rejected: bool)
    requires Turned(s, id, v, stopped, rejected) && id !in failed
    ensures Turned(FinishRequests(s, failed, FinishedError, delay), id, v, stopped, rejected)
  {
    FinishViews(s, failed, FinishedError, delay);
    hide FinishRequests, DelayedFree;
  }

  lemma TransferTurned(s: State, recv: set<Id>, send: set<Id>, id: Id, v: View, stopped: bool, rejected: bool)
    requires Turned(s, id, v, stopped, rejected)
    requires forall x :: x in recv && x in s.reqs ==> s.reqs[x].status == WaitingForRemoteKvs || IsFinished(s.reqs[x].status)
    requires forall x :: x in send && x in s.reqs ==> IsFinished(s.reqs[x].status)
    ensures Turned(TransfersFinished(s, recv, send), id, v, stopped, rejected)
  {
    TransfersView(s, recv, send);
    hide TransfersFinished;
  }
}
