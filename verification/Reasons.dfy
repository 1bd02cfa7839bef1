/**
 * Why a request ends: the messages of a report, word for word, and over whole
 * runs the first output of a request that meets one of its ends.
 */
module Reasons {
  import opened Seqs
  import opened Requests
  import opened SchedulerSpec
  import opened Engine
  import opened EngineStep
  import opened Reporting
  import opened Recovering
  import opened ReportStep
  import opened Delivery

  /** The last token is one of the stop tokens. */
  predicate AtStop(v: View, out: seq<Token>) { out != [] && out[|out| - 1] in v.stops }

  /** With `out` generated, the request is as long as the model or its own limit allow. */
  predicate AtLimit(c: Config, v: View, out: seq<Token>) {
    |v.prompt| + |out| >= c.maxModelLen || |out| >= v.maxTokens
  }

  predicate AtEnd(c: Config, v: View, out: seq<Token>) { out != [] && (AtStop(v, out) || AtLimit(c, v, out)) }

  /** Generated tokens are trimmed behind the first that ends the request. */
  ghost predicate EndsFirst(c: Config, v: View, out: seq<Token>, toks: seq<Token>) {
    forall k :: 0 < k < |toks| ==> !AtEnd(c, v, out + toks[..k])
  }

  lemma StopOf(c: Config, v: View, toks: seq<Token>)
    requires v.all == v.prompt + v.output && toks != []
    ensures var out, stop := v.output + toks, CheckStop(Extend(v, toks), c.maxModelLen);
      && (stop.Some? <==> AtEnd(c, v, out))
      && (stop.Some? ==> stop.value == if AtStop(v, out) then FinishedStopped else FinishedLengthCapped)
  {
    assert |Extend(v, toks).all| == |v.prompt| + |v.output + toks|;
  }

  lemma AsReconciled(c: Config, v: View, d: seq<Token>, gen: seq<Token>)
    ensures var w := Reconcile(v, d, gen);
      && w.prompt == v.prompt && w.output == v.output && w.all == v.all
      && forall out :: (AtEnd(c, w, out) <==> AtEnd(c, v, out)) && (AtStop(w, out) <==> AtStop(v, out))
  {
  }

  /** What one request receives, and why it ends. */
  lemma ReceiveReason(c: Config, v: View, d: seq<Token>, gen: seq<Token>, rejected: bool)
    requires v.all == v.prompt + v.output
    ensures var r := Receive(c, v, d, gen, rejected);
            var out := v.output + r.toks;
      && r.toks <= gen && EndsFirst(c, v, v.output, r.toks)
      && (r.stopped <==> r.toks != [] && (rejected || AtEnd(c, v, out)))
      && (!AtEnd(c, v, out) ==> r.toks == gen)
      && (r.stopped ==>
            ReasonOf(r.v.status) == if rejected then Some(FinishReason.Error)
                                    else if AtStop(v, out) then Some(Stop) else Some(Length))
  {
    var w := Reconcile(v, d, gen);
    var a := AppendUntilStop(w, gen, c.maxModelLen);
    AppendUntilStopFacts(w, gen, c.maxModelLen);
    hide CheckStop, AtEnd, AtStop, AtLimit, Extend;
    AsReconciled(c, v, d, gen);
    forall k | 0 < k < |a.toks| ensures !AtEnd(c, v, v.output + a.toks[..k]) {
      CutAtFirstStop(w, gen, c.maxModelLen, k);
      assert a.toks[..k] == gen[..k];
      StopOf(c, w, gen[..k]);
    }
    if a.toks != [] {
      CutAtFirstStop(w, gen, c.maxModelLen, |a.toks|);
      assert gen[..|a.toks|] == a.toks;
      StopOf(c, w, a.toks);
    }
  }

  // ------------------------------------------------------------------- the messages of a report

  /** The messages about `id`. */
  function About(log: seq<Message>, id: Id): seq<Message> {
    if log == [] then []
    else
      var n := |log| - 1;
      About(log[..n], id) + (if log[n].id == id then [log[n]] else [])
  }

  lemma {:induction false} AboutJoin(a: seq<Message>, b: seq<Message>, id: Id)
    ensures About(a + b, id) == About(a, id) + About(b, id)
  {
    if b == [] {
      assert a + b == a;
    } else {
      var n := |b| - 1;
      assert (a + b)[..|a| + n] == a + b[..n];
      AboutJoin(a, b[..n], id);
    }
  }

  lemma AboutOne(a: seq<Message>, m: Message, id: Id)
    ensures About(a + [m], id) == About(a, id) + (if m.id == id then [m] else [])
  {
    assert (a + [m])[..|a|] == a;
  }

  /** What the client is told of a request that receives `r`. */
  function Said(c: Config, v: View, id: Id, r: Appended, rejected: bool): seq<Message> {
    var out := v.output + r.toks;
    if r.toks == [] then []
    else if rejected then [Message(id, r.toks, Some(FinishReason.Error))]
    else if AtStop(v, out) then [Message(id, r.toks, Some(Stop))]
    else if AtLimit(c, v, out) then [Message(id, r.toks, Some(Length))]
    else [Message(id, r.toks, None)]
  }

  lemma SaidByOne(c: Config, out: Output, ans: Answer, failed: set<Id>, a: Acc, id: Id)
    requires id !in failed && id in a.s.reqs && !IsFinished(a.s.reqs[id].status) && a.s.reqs[id].status == Running
    requires a.s.reqs[id].all == a.s.reqs[id].prompt + a.s.reqs[id].output
    ensures var v := a.s.reqs[id];
            var r := Receive(c, v, Drafts(out.specs, id), TokensFor(ans, id), id in ans.rejected);
            UpdateOne(c, out, ans, failed, a, id).msgs == a.msgs + Said(c, v, id, r, id in ans.rejected)
  {
    var v := a.s.reqs[id];
    UpdateOneText(c, out, ans, failed, a, id);
    ReceiveReason(c, v, Drafts(out.specs, id), TokensFor(ans, id), id in ans.rejected);
    hide UpdateOne, Receive, Drafts, TokensFor, ReasonOf, AtStop, AtLimit;
  }

  /** Before its turn a request is as it was and nothing is said of it; then it is. */
  ghost predicate Spoken(c: Config, log: seq<Message>, s: State, id: Id, v: View, r: Appended, rejected: bool, done: bool) {
    if done then About(log, id) == Said(c, v, id, r, rejected)
    else id in s.reqs && s.reqs[id] == v && About(log, id) == []
  }

  lemma SayOne(c: Config, out: Output, ans: Answer, failed: set<Id>, done: seq<Id>, a: Acc, x: Id, id: Id, v: View)
    requires MidInv(c, out, failed, done, a) && x in out.order && x !in done && id !in failed
    requires !IsFinished(v.status) && v.all == v.prompt + v.output
    requires var r := Receive(c, v, Drafts(out.specs, id), TokensFor(ans, id), id in ans.rejected);
      Spoken(c, a.msgs, a.s, id, v, r, id in ans.rejected, id in done)
    ensures var r := Receive(c, v, Drafts(out.specs, id), TokensFor(ans, id), id in ans.rejected);
            var b := UpdateOne(c, out, ans, failed, a, x);
      Spoken(c, b.msgs, b.s, id, v, r, id in ans.rejected, id in done || x == id)
  {
    hide UpdateOne, Receive, Drafts, TokensFor, About, Said, MidInv;
    if x in failed || x !in a.s.reqs || IsFinished(a.s.reqs[x].status) {
      UpdateOneNothing(c, out, ans, failed, a, x);
    } else {
      BusyRuns(c, out, failed, done, a, x);
      UpdateOneText(c, out, ans, failed, a, x);
      if x == id {
        SaidByOne(c, out, ans, failed, a, id);
        AboutSaid(c, a.msgs, v, id, Receive(c, v, Drafts(out.specs, id), TokensFor(ans, id), id in ans.rejected), id in ans.rejected);
      } else {
        var b := UpdateOne(c, out, ans, failed, a, x);
        if b.msgs != a.msgs {
          AboutOne(a.msgs, b.msgs[|a.msgs|], id);
        }
      }
    }
  }

  lemma AboutSaid(c: Config, log: seq<Message>, v: View, id: Id, r: Appended, rejected: bool)
    ensures About(log + Said(c, v, id, r, rejected), id) == About(log, id) + Said(c, v, id, r, rejected)
  {
    var said := Said(c, v, id, r, rejected);
    if said == [] {
      assert log + [] == log;
    } else {
      assert said == [said[0]] && said[0].id == id;
      hide Said;
      AboutOne(log, said[0], id);
    }
  }

  lemma {:induction false} SayAll(c: Config, out: Output, ans: Answer, failed: set<Id>, a: Acc, n: nat, id: Id)
    requires NoDup(out.order) && n <= |out.order| && id !in failed && id in a.s.reqs && !IsFinished(a.s.reqs[id].status)
    requires a.s.reqs[id].all == a.s.reqs[id].prompt + a.s.reqs[id].output && a.msgs == []
    requires MidInv(c, out, failed, [], a) && ReportsOk(c, out, ans, failed, [], a.s)
    ensures var v := a.s.reqs[id];
            var r := Receive(c, v, Drafts(out.specs, id), TokensFor(ans, id), id in ans.rejected);
            var b := UpdateAll(c, out, ans, failed, a, out.order[..n]);
      Spoken(c, b.msgs, b.s, id, v, r, id in ans.rejected, id in out.order[..n])
  {
    hide MidInv, ReportsOk, UpdateOne, Receive, Drafts, TokensFor, Said;
    if n > 0 {
      SayAll(c, out, ans, failed, a, n - 1, id);
      UpdateAllInv(c, out, ans, failed, a, n - 1);
      NextInOrder(out.order, n - 1);
      var ids := out.order[..n];
      assert ids[..n - 1] == out.order[..n - 1] && ids[n - 1] == out.order[n - 1];
      hide Spoken;
      SayOne(c, out, ans, failed, out.order[..n - 1], UpdateAll(c, out, ans, failed, a, out.order[..n - 1]),
             out.order[n - 1], id, a.s.reqs[id]);
    } else {
      assert out.order[..0] == [];
    }
  }

  lemma {:induction false} AboutFailed(q: seq<Id>, failed: set<Id>, id: Id)
    requires NoDup(q)
    ensures About(FailMessages(q, failed), id) ==
      if id in q && id in failed then [Message(id, [], Some(FinishReason.Error))] else []
  {
    if q != [] {
      var n := |q| - 1;
      assert q == q[..n] + [q[n]];
      assert forall k :: 0 <= k < n ==> q[..n][k] == q[k];
      AboutFailed(q[..n], failed, id);
      if q[n] in failed {
        var m := Message(q[n], [], Some(FinishReason.Error));
        assert FailMessages(q, failed) == FailMessages(q[..n], failed) + [m];
        AboutOne(FailMessages(q[..n], failed), m, id);
      } else {
        assert FailMessages(q, failed) == FailMessages(q[..n], failed) + [] == FailMessages(q[..n], failed);
      }
    }
  }

  lemma InFlightText(c: Config, e: Engine, id: Id)
    requires EngineInv(c, e) && InFlight(e, id)
    ensures e.s.reqs[id].all == e.s.reqs[id].prompt + e.s.reqs[id].output
  {
    assert RequestOk(c, e, id);
  }

  lemma SaidByLoop(c: Config, e: Engine, ans: Answer, id: Id)
    requires EngineInv(c, e) && Legal(c, e, Event.Report(ans)) && InFlight(e, id)
    requires id !in HandleInvalid(c, e.s, e.pending.value.num, ans).failed
    ensures var out := e.pending.value;
            var v := e.s.reqs[id];
            var r := Receive(c, v, Drafts(out.specs, id), TokensFor(ans, id), id in ans.rejected);
      About(Loop(c, e.s, out, ans).msgs, id) == Said(c, v, id, r, id in ans.rejected)
  {
    var out := e.pending.value;
    var r := HandleInvalid(c, e.s, out.num, ans);
    assert AnswerOk(c, e.s, out, ans) && LoadsDisjoint(e.s, ans) && NoDup(out.order);
    assert out.order[..|out.order|] == out.order;
    InFlightText(c, e, id);
    hide HandleInvalid, LoadsDisjoint, UpdateAll, MidInv, EngineInv, AnswerOk, ReportsOk, RecoveryOk, Receive, About, Said;
    RecoveredMid(c, e, ans);
    ReportsApply(c, e, ans, r);
    InFlightUnchanged(c, e, r, id);
    SayAll(c, out, ans, r.failed, Acc(r.s, {}, {}, []), |out.order|, id);
  }

  /**
   * Word for word what a report says about a request in flight, session or not:
   * the tokens it receives, and with its last ones why it ends; `Error` when the
   * grammar rejected them, `Stop` when the last is a stop token, `Length` when
   * it reached a limit without one.
   */
  lemma ReportSays(c: Config, e: Engine, ans: Answer, id: Id)
    requires EngineInv(c, e) && Legal(c, e, Event.Report(ans)) && InFlight(e, id)
    requires id !in HandleInvalid(c, e.s, e.pending.value.num, ans).failed
    ensures var out := e.pending.value;
            var v := e.s.reqs[id];
            var r := Receive(c, v, Drafts(out.specs, id), TokensFor(ans, id), id in ans.rejected);
            var msgs := UpdateFromOutput(c, e.s, out, ans).msgs;
      && About(msgs, id) == Said(c, v, id, r, id in ans.rejected)
      && r.toks <= TokensFor(ans, id) && EndsFirst(c, v, v.output, r.toks)
      && (!AtEnd(c, v, v.output + r.toks) ==> r.toks == TokensFor(ans, id))
  {
    hide EngineInv, HandleInvalid, FailedNow, Receive, About, FailMessages, Loop, UpdateFromOutput, Legal, Drafts, TokensFor, Said,
         AtEnd, EndsFirst;
    var out := e.pending.value;
    var failed := FailedNow(c, e.s, out, ans);
    FailedParts(c, e.s, out, ans);
    SaidByLoop(c, e, ans, id);
    InFlightText(c, e, id);
    ReceiveReason(c, e.s.reqs[id], Drafts(out.specs, id), TokensFor(ans, id), id in ans.rejected);
    ReportMessages(c, e.s, out, ans);
    if failed != {} {
      QueuesDistinct(c, e);
      AboutFailed(e.s.skipped + e.s.running, failed, id);
      AboutJoin(Loop(c, e.s, out, ans).msgs, FailMessages(e.s.skipped + e.s.running, failed), id);
    }
  }

  /** The loop says nothing about a request that is not in flight, or failed to load. */
  lemma {:induction false} SilentLoop(c: Config, out: Output, ans: Answer, failed: set<Id>, a: Acc, ids: seq<Id>, id: Id)
    requires id in failed || id !in ids || id !in a.s.reqs || IsFinished(a.s.reqs[id].status)
    ensures var b := UpdateAll(c, out, ans, failed, a, ids);
      && About(b.msgs, id) == About(a.msgs, id) && (id in b.s.reqs <==> id in a.s.reqs) && At(b.s, id) == At(a.s, id)
  {
    hide UpdateOne, About;
    if ids != [] {
      var n := |ids| - 1;
      assert ids == ids[..n] + [ids[n]];
      SilentLoop(c, out, ans, failed, a, ids[..n], id);
      var b := UpdateAll(c, out, ans, failed, a, ids[..n]);
      if ids[n] in failed || ids[n] !in b.s.reqs || IsFinished(b.s.reqs[ids[n]].status) {
        UpdateOneNothing(c, out, ans, failed, b, ids[n]);
      } else {
        UpdateOneOthers(c, out, ans, failed, b, ids[n]);
        SilentOne(c, out, ans, failed, b, ids[n], id);
      }
    }
  }

  lemma SilentOne(c: Config, out: Output, ans: Answer, failed: set<Id>, a: Acc, x: Id, id: Id)
    requires x != id && x in a.s.reqs
    ensures About(UpdateOne(c, out, ans, failed, a, x).msgs, id) == About(a.msgs, id)
  {
    var b := UpdateOne(c, out, ans, failed, a, x);
    hide Receive, HandleStopped, Drafts, TokensFor, ReasonOf, About, Free;
    if b.msgs != a.msgs {
      AboutOne(a.msgs, b.msgs[|a.msgs|], id);
    }
  }

  /**
   * All other requests: those that the "fail" policy ends get one message that
   * says so, without tokens; nobody else is told anything.
   */
  lemma OthersAreTold(c: Config, e: Engine, ans: Answer, id: Id)
    requires EngineInv(c, e) && Legal(c, e, Event.Report(ans))
    requires !InFlight(e, id) || id in HandleInvalid(c, e.s, e.pending.value.num, ans).failed
    ensures var out := e.pending.value;
      About(UpdateFromOutput(c, e.s, out, ans).msgs, id) ==
        if !c.recompute && id in HandleInvalid(c, e.s, out.num, ans).failed && (id in e.s.skipped || id in e.s.running)
        then [Message(id, [], Some(FinishReason.Error))] else []
  {
    var out := e.pending.value;
    var r := HandleInvalid(c, e.s, out.num, ans);
    var failed := FailedNow(c, e.s, out, ans);
    hide EngineInv, HandleInvalid, FailedNow, About, FailMessages, UpdateFromOutput, Legal, UpdateAll, RecoveryOk, SameStatuses;
    RecoveredStays(c, e, ans, id);
    SilentLoop(c, out, ans, r.failed, Acc(r.s, {}, {}, []), out.order, id);
    ReportMessages(c, e.s, out, ans);
    FailedParts(c, e.s, out, ans);
    FailedIs(c, e.s, out, ans);
    QueuesDistinct(c, e);
    AboutFailed(e.s.skipped + e.s.running, failed, id);
    AboutJoin(Loop(c, e.s, out, ans).msgs, FailMessages(e.s.skipped + e.s.running, failed), id);
  }

  lemma FailedIs(c: Config, s: State, out: Output, ans: Answer)
    ensures FailedNow(c, s, out, ans) == if c.recompute then {} else HandleInvalid(c, s, out.num, ans).failed
  {
    hide HandleInvalid;
  }

  lemma RecoveredStays(c: Config, e: Engine, ans: Answer, id: Id)
    requires EngineInv(c, e) && Legal(c, e, Event.Report(ans))
    requires !InFlight(e, id) || id in HandleInvalid(c, e.s, e.pending.value.num, ans).failed
    ensures var out := e.pending.value;
            var r := HandleInvalid(c, e.s, out.num, ans);
      id in r.failed || id !in out.order || id !in r.s.reqs || IsFinished(r.s.reqs[id].status)
  {
    var out := e.pending.value;
    var r := HandleInvalid(c, e.s, out.num, ans);
    assert AnswerOk(c, e.s, out, ans) && LoadsDisjoint(e.s, ans);
    hide HandleInvalid, LoadsDisjoint, MidInv, EngineInv, AnswerOk, RecoveryOk, Receive;
    RecoveredMid(c, e, ans);
    RecoveredStatuses(e.s, r, out.num);
  }

  // ---------------------------------------------------------------------------------- whole runs

  /**
   * What the log says of a request that came as `first`: no output before the
   * last met an end, and the reason given with the last is that of its end.
   */
  ghost predicate ReasonsOk(c: Config, first: View, log: seq<Message>, id: Id) {
    var out := Delivered(log, id);
    && (forall k :: 0 < k < |out| ==> !AtEnd(c, first, out[..k]))
    && (!Ended(log, id) ==> !AtEnd(c, first, out))
    && (forall k :: 0 <= k < |log| && log[k].id == id && log[k].reason.Some? ==> ReasonFits(c, first, out, log[k].reason.value))
  }

  predicate ReasonFits(c: Config, first: View, out: seq<Token>, reason: FinishReason) {
    match reason
    case Stop => AtStop(first, out)
    case Length => out != [] && !AtStop(first, out) && AtLimit(c, first, out)
    case Error => true
    case _ => false
  }

  ghost predicate AllReasons(c: Config, seen: map<Id, View>, log: seq<Message>) {
    forall id :: id in seen && !seen[id].resumable ==> ReasonsOk(c, seen[id], log, id)
  }

  lemma SameEnds(c: Config, v: View, w: View)
    requires w.prompt == v.prompt && SameLimits(v, w)
    ensures forall out :: (AtEnd(c, w, out) <==> AtEnd(c, v, out)) && (AtStop(w, out) <==> AtStop(v, out))
                       && (AtLimit(c, w, out) <==> AtLimit(c, v, out))
  {
  }

  /** One more message, about a request that has not ended. */
  lemma ReasonAdded(c: Config, first: View, log: seq<Message>, id: Id, m: Message)
    requires ReasonsOk(c, first, log, id) && EndsOnce(log, id) && (m.id == id ==> !Ended(log, id))
    requires m.id == id ==>
      var out := Delivered(log, id);
      && EndsFirst(c, first, out, m.toks)
      && (m.reason.None? ==> !AtEnd(c, first, out + m.toks))
      && (m.reason.Some? ==> ReasonFits(c, first, out + m.toks, m.reason.value))
    ensures ReasonsOk(c, first, log + [m], id)
  {
    hide AtEnd, ReasonFits, Delivered;
    OneMore(log, m, id);
    var before, after := Delivered(log, id), Delivered(log + [m], id);
    if m.id == id {
      NoReasonYet(log, id);
      forall k | 0 < k < |after| ensures !AtEnd(c, first, after[..k]) {
        if k < |before| {
          assert after[..k] == before[..k];
        } else if k == |before| {
          assert after[..k] == before;
        } else {
          assert after[..k] == before + m.toks[..k - |before|];
        }
      }
    } else {
      assert after == before;
    }
    hide Ended, EndsOnce, EndsFirst;
  }

  lemma NoReasonYet(log: seq<Message>, id: Id)
    requires !Ended(log, id)
    ensures forall k :: 0 <= k < |log| && log[k].id == id ==> log[k].reason.None?
  {
  }

  lemma SaidReasons(
      c: Config, seen: map<Id, View>, s: State, log: seq<Message>, id: Id, r: Appended, gen: seq<Token>, d: seq<Token>, rejected: bool)
    requires AllReasons(c, seen, log) && AllFaithful(seen, s, log) && id in s.reqs && !IsFinished(s.reqs[id].status)
    requires s.reqs[id].all == s.reqs[id].prompt + s.reqs[id].output && r == Receive(c, s.reqs[id], d, gen, rejected)
    ensures AllReasons(c, seen, log + Said(c, s.reqs[id], id, r, rejected))
  {
    var v := s.reqs[id];
    var said := Said(c, v, id, r, rejected);
    ReceiveReason(c, v, d, gen, rejected);
    if said == [] {
      assert log + [] == log;
    } else {
      var m := said[0];
      assert said == [m] && m.id == id && m.toks == r.toks;
      forall x | x in seen && !seen[x].resumable ensures ReasonsOk(c, seen[x], log + [m], x) {
        assert Faithful(seen[x], s, log, x) && ReasonsOk(c, seen[x], log, x);
        if x == id {
          SameEnds(c, v, seen[x]);
        }
        hide ReasonsOk, Faithful, Receive;
        ReasonAdded(c, seen[x], log, x, m);
      }
    }
  }

  lemma UpdateStepReasons(
      c: Config, out: Output, ans: Answer, failed: set<Id>, done: seq<Id>, a: Acc, id: Id, seen: map<Id, View>, log: seq<Message>)
    requires AllFaithful(seen, a.s, log + a.msgs) && AllReasons(c, seen, log + a.msgs)
    requires id in out.order && id !in done && MidInv(c, out, failed, done, a)
    ensures AllReasons(c, seen, log + UpdateOne(c, out, ans, failed, a, id).msgs)
  {
    hide AllFaithful, AllReasons, UpdateOne, Receive, Said, Drafts, TokensFor;
    if id in failed || id !in a.s.reqs || IsFinished(a.s.reqs[id].status) {
      UpdateOneNothing(c, out, ans, failed, a, id);
    } else {
      BusyRuns(c, out, failed, done, a, id);
      FlyingText(c, out, failed, done, a, id);
      hide MidInv;
      SaidByOne(c, out, ans, failed, a, id);
      var v := a.s.reqs[id];
      var r := Receive(c, v, Drafts(out.specs, id), TokensFor(ans, id), id in ans.rejected);
      SaidReasons(c, seen, a.s, log + a.msgs, id, r, TokensFor(ans, id), Drafts(out.specs, id), id in ans.rejected);
      assert log + (a.msgs + Said(c, v, id, r, id in ans.rejected)) == log + a.msgs + Said(c, v, id, r, id in ans.rejected);
    }
  }

  lemma FlyingText(c: Config, out: Output, failed: set<Id>, done: seq<Id>, a: Acc, id: Id)
    requires MidInv(c, out, failed, done, a) && Busy(out, failed, done, id)
    requires id in a.s.reqs && !IsFinished(a.s.reqs[id].status)
    ensures a.s.reqs[id].all == a.s.reqs[id].prompt + a.s.reqs[id].output
  {
    assert MidRequest(c, out, failed, done, a.s, id);
  }

  lemma {:induction false} UpdateAllReasons(
      c: Config, out: Output, ans: Answer, failed: set<Id>, a: Acc, n: nat, seen: map<Id, View>, log: seq<Message>)
    requires NoDup(out.order) && n <= |out.order|
    requires AllFaithful(seen, a.s, log + a.msgs) && AllReasons(c, seen, log + a.msgs)
    requires MidInv(c, out, failed, [], a) && ReportsOk(c, out, ans, failed, [], a.s)
    ensures AllReasons(c, seen, log + UpdateAll(c, out, ans, failed, a, out.order[..n]).msgs)
  {
    hide MidInv, ReportsOk, UpdateOne, AllFaithful, AllReasons;
    if n > 0 {
      UpdateAllReasons(c, out, ans, failed, a, n - 1, seen, log);
      UpdateAllFaith(c, out, ans, failed, a, n - 1, seen, log);
      UpdateAllInv(c, out, ans, failed, a, n - 1);
      NextInOrder(out.order, n - 1);
      var ids := out.order[..n];
      assert ids[..n - 1] == out.order[..n - 1] && ids[n - 1] == out.order[n - 1];
      UpdateStepReasons(c, out, ans, failed, out.order[..n - 1],
                        UpdateAll(c, out, ans, failed, a, out.order[..n - 1]), out.order[n - 1], seen, log);
    } else {
      assert out.order[..0] == [];
    }
  }

  lemma {:induction false} FailReasons(c: Config, first: View, log: seq<Message>, q: seq<Id>, failed: set<Id>, id: Id)
    requires ReasonsOk(c, first, log, id) && EndsOnce(log, id) && NoDup(q) && (id in q && id in failed ==> !Ended(log, id))
    ensures ReasonsOk(c, first, log + FailMessages(q, failed), id)
  {
    if q == [] {
      assert log + [] == log;
    } else {
      var n := |q| - 1;
      var x := q[n];
      assert q == q[..n] + [x] && forall k :: 0 <= k < n ==> q[..n][k] == q[k];
      FailReasons(c, first, log, q[..n], failed, id);
      FailLog(log, q[..n], failed, id);
      var front := log + FailMessages(q[..n], failed);
      hide ReasonsOk, Ended, EndsOnce, AtEnd;
      if x in failed {
        var m := Message(x, [], Some(FinishReason.Error));
        assert log + FailMessages(q, failed) == front + [m];
        assert Delivered(front, id) + [] == Delivered(front, id);
        ReasonAdded(c, first, front, id, m);
      } else {
        assert log + FailMessages(q, failed) == front;
      }
    }
  }

  lemma FailAllReasons(c: Config, seen: map<Id, View>, s: State, log: seq<Message>, q: seq<Id>, failed: set<Id>)
    requires AllReasons(c, seen, log) && AllFaithful(seen, s, log) && NoDup(q)
    requires forall id :: id in failed ==> id in s.reqs && !IsFinished(s.reqs[id].status)
    ensures AllReasons(c, seen, log + FailMessages(q, failed))
  {
    forall id | id in seen && !seen[id].resumable ensures ReasonsOk(c, seen[id], log + FailMessages(q, failed), id) {
      assert Faithful(seen[id], s, log, id) && ReasonsOk(c, seen[id], log, id);
      hide ReasonsOk, FailMessages;
      FailReasons(c, seen[id], log, q, failed, id);
    }
  }

  lemma LoopReasons(c: Config, e: Engine, ans: Answer)
    requires EngineInv(c, e) && Legal(c, e, Event.Report(ans)) && AllFaithful(e.seen, e.s, e.log) && AllReasons(c, e.seen, e.log)
    ensures e.pending.Some? && AllReasons(c, e.seen, e.log + Loop(c, e.s, e.pending.value, ans).msgs)
  {
    var out := e.pending.value;
    var r := HandleInvalid(c, e.s, out.num, ans);
    var a := Acc(r.s, {}, {}, []);
    assert AnswerOk(c, e.s, out, ans) && LoadsDisjoint(e.s, ans) && NoDup(out.order);
    hide HandleInvalid, LoadsDisjoint, UpdateAll, MidInv, EngineInv, AnswerOk, ReportsOk, RecoveryOk, AllFaithful, TextsKept, AllReasons;
    RecoveredMid(c, e, ans);
    ReportsApply(c, e, ans, r);
    RecoveredTexts(e.s, r, out.num);
    TextsKeepFaith(e.seen, e.s, r.s, e.log);
    assert out.order[..|out.order|] == out.order && e.log + [] == e.log;
    UpdateAllReasons(c, out, ans, r.failed, a, |out.order|, e.seen, e.log);
  }

  lemma ReportReasons(c: Config, e: Engine, ans: Answer)
    requires EngineInv(c, e) && Legal(c, e, Event.Report(ans)) && AllFaithful(e.seen, e.s, e.log) && AllReasons(c, e.seen, e.log)
    ensures AllReasons(c, e.seen, Next(c, e, Event.Report(ans)).log)
  {
    hide EngineInv, Legal, AllFaithful, AllReasons, UpdateFromOutput, Loop, Settled, FailedNow, HandleInvalid, FailMessages, NoDup, Next;
    LoopReasons(c, e, ans);
    LoopFaith(c, e, ans);
    QueuesDistinct(c, e);
    var out := e.pending.value;
    var a, failed, q := Loop(c, e.s, out, ans), FailedNow(c, e.s, out, ans), e.s.skipped + e.s.running;
    ReportMessages(c, e.s, out, ans);
    FailedParts(c, e.s, out, ans);
    ReportLog(c, e, ans);
    if failed != {} {
      FailAllReasons(c, e.seen, Settled(a), e.log + a.msgs, q, failed);
      assert e.log + a.msgs + FailMessages(q, failed) == e.log + (a.msgs + FailMessages(q, failed));
    }
  }

  lemma NewReasons(c: Config, e: Engine, id: Id, v: View)
    requires AllReasons(c, e.seen, e.log) && AllFaithful(e.seen, e.s, e.log) && id !in e.seen
    ensures AllReasons(c, e.seen[id := v], e.log)
  {
    UnknownId(e.log, id);
    var seen := e.seen[id := v];
    forall x | x in seen && !seen[x].resumable ensures ReasonsOk(c, seen[x], e.log, x) {
      if x != id {
        assert ReasonsOk(c, e.seen[x], e.log, x);
      }
    }
  }

  lemma NextReasons(c: Config, e: Engine, ev: Event)
    requires EngineInv(c, e) && Legal(c, e, ev) && AllFaithful(e.seen, e.s, e.log) && AllReasons(c, e.seen, e.log)
    ensures AllReasons(c, Next(c, e, ev).seen, Next(c, e, ev).log)
  {
    hide EngineInv, AllFaithful, AllReasons, Schedule, SchedulePass, UpdateFromOutput, AddRequest, FinishRequests, PreemptAll;
    match ev {
      case Report(ans) => ReportReasons(c, e, ans);
      case Add(id, v, late) =>
        if id !in e.s.reqs {
          NewReasons(c, e, id, v);
        }
      case _ =>
    }
  }

  /**
   * Over every run, for every request that is not a streaming session: no
   * output delivered before the last token met an end, and the finish reason
   * is `Stop` only if the last token is a stop token, `Length` only if it is
   * none and a limit is reached; otherwise the request ended by an error.
   */
  lemma {:induction false} EveryEndHasItsReason(c: Config, run: seq<Event>)
    requires LegalRun(c, INITIAL, run)
    ensures var e := After(c, INITIAL, run); AllReasons(c, e.seen, e.log)
  {
    if run != [] {
      var front := run[..|run| - 1];
      EveryEndHasItsReason(c, front);
      InitialInv(c);
      hide EngineInv, Legal, Next, AllFaithful, AllReasons;
      RunKeepsInv(c, INITIAL, front);
      ExactlyOnceDelivery(c, front);
      NextReasons(c, After(c, INITIAL, front), run[|run| - 1]);
    }
  }
}
