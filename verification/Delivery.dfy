/** Every output token of a request is delivered exactly once, and nothing after its finish message. */
module Delivery {
  import opened Seqs
  import opened Requests
  import opened SchedulerSpec
  import opened QueuePartition
  import opened Frames
  import opened Accounting
  import opened ScheduleStep
  import opened Engine
  import opened EngineStep
  import opened Receiving
  import opened Reporting
  import opened Recovering
  import opened Finishing
  import opened Interventions
  import opened ReportStep

  /** The tokens that `log` delivers for `id`. */
  function Delivered(log: seq<Message>, id: Id): seq<Token> {
    if log == [] then []
    else
      var n := |log| - 1;
      Delivered(log[..n], id) + (if log[n].id == id then log[n].toks else [])
  }

  ghost predicate Ended(log: seq<Message>, id: Id) {
    exists k :: 0 <= k < |log| && log[k].id == id && log[k].reason.Some?
  }

  /** A message with a finish reason is the last one about its request. */
  ghost predicate EndsOnce(log: seq<Message>, id: Id) {
    forall j, k :: 0 <= j < k < |log| && log[j].id == id && log[k].id == id ==> log[j].reason.None?
  }

  /** The same tokens and the same length end it. */
  ghost predicate SameLimits(v: View, w: View) { w.stops == v.stops && w.maxTokens == v.maxTokens }

  ghost predicate SameText(v: View, w: View) {
    && w.prompt == v.prompt && w.output == v.output && w.all == v.all && w.resumable == v.resumable
    && SameLimits(v, w)
    && (IsFinished(v.status) ==> IsFinished(w.status))
  }

  /** Requests may go, but none comes, and no text changes. */
  ghost predicate TextsKept(s: State, t: State) {
    forall id {:trigger id in t.reqs} {:trigger t.reqs[id]} :: id in t.reqs ==> id in s.reqs && SameText(s.reqs[id], t.reqs[id])
  }

  /** What the client got for `id` so far, which came as `first` and is not a streaming session. */
  ghost predicate Faithful(first: View, s: State, log: seq<Message>, id: Id) {
    && EndsOnce(log, id)
    && (id in s.reqs ==>
          var v := s.reqs[id];
          && !v.resumable && v.prompt == first.prompt && SameLimits(first, v) && v.all == v.prompt + v.output
          && v.output == Delivered(log, id)
          && (!IsFinished(v.status) ==> !Ended(log, id)))
  }

  ghost predicate AllFaithful(seen: map<Id, View>, s: State, log: seq<Message>) {
    && (forall id :: id in seen && !seen[id].resumable ==> Faithful(seen[id], s, log, id))
    && (forall k :: 0 <= k < |log| ==> log[k].id in seen)
    && (forall id :: id in s.reqs ==> id in seen)
  }

  // ----------------------------------------------------------------------- the log

  lemma {:induction false} OneMore(log: seq<Message>, m: Message, id: Id)
    ensures Delivered(log + [m], id) == Delivered(log, id) + (if m.id == id then m.toks else [])
    ensures Ended(log + [m], id) <==> Ended(log, id) || (m.id == id && m.reason.Some?)
    ensures EndsOnce(log, id) && (m.id == id ==> !Ended(log, id)) ==> EndsOnce(log + [m], id)
  {
    var l := log + [m];
    assert l[..|log|] == log;
    if Ended(log, id) {
      var k :| 0 <= k < |log| && log[k].id == id && log[k].reason.Some?;
      assert l[k] == log[k];
    }
    if m.id == id && m.reason.Some? {
      assert l[|log|] == m;
    }
  }

  lemma {:induction false} UnknownId(log: seq<Message>, id: Id)
    requires forall k :: 0 <= k < |log| ==> log[k].id != id
    ensures Delivered(log, id) == [] && !Ended(log, id) && EndsOnce(log, id)
  {
    if log != [] {
      UnknownId(log[..|log| - 1], id);
    }
  }

  // ------------------------------------------------------------------- simple events

  lemma TextsKeepFaith(seen: map<Id, View>, s: State, t: State, log: seq<Message>)
    requires AllFaithful(seen, s, log) && TextsKept(s, t)
    ensures AllFaithful(seen, t, log)
  {
    forall id | id in seen && !seen[id].resumable ensures Faithful(seen[id], t, log, id) {
      assert Faithful(seen[id], s, log, id);
    }
  }

  lemma FramedTexts(c: Config, s: State, t: State)
    requires Framed(c, s, t)
    ensures TextsKept(s, t)
  {
    forall id | id in t.reqs ensures id in s.reqs && SameText(s.reqs[id], t.reqs[id]) {
      assert id in s.reqs.Keys && Touched(c, s.reqs[id], t.reqs[id]);
    }
  }

  lemma AdvancedTexts(p: Pass)
    ensures TextsKept(p.s, AfterSchedule(p.s, p.order, p.num, p.specs))
  {
    hide WriteKv;
  }

  lemma DraftTexts(s: State, drafts: map<Id, seq<Token>>)
    ensures TextsKept(s, UpdateDrafts(s, drafts))
  {
  }

  lemma FinishTexts(s: State, ids: set<Id>, st: Status, delay: set<Id>)
    requires IsFinished(st)
    ensures TextsKept(s, FinishRequests(s, ids, st, delay))
  {
    hide WithStatus, DelayedFree, Finishable, Without;
  }

  lemma TransferTexts(s: State, recv: set<Id>, send: set<Id>)
    ensures TextsKept(s, TransfersFinished(s, recv, send))
  {
    hide WithStatus;
  }

  lemma TextsTwice(s: State, t: State, u: State)
    requires TextsKept(s, t) && TextsKept(t, u)
    ensures TextsKept(s, u)
  {
  }

  lemma {:induction false} ResetTexts(s: State)
    requires Partition(s, [])
    ensures TextsKept(s, PreemptAll(s))
    decreases |s.running|
  {
    if s.running != [] {
      var n := |s.running| - 1;
      var id := s.running[n];
      assert RemoveAt(s.running, n) == s.running[..n];
      RunningKnown(s, id);
      PreemptKeeps(s, n, []);
      PreemptShortens(s);
      var t := Preempt(s.(running := s.running[..n]), id);
      hide Partition;
      assert TextsKept(s, t);
      hide Preempt;
      ResetTexts(t);
      TextsTwice(s, t, PreemptAll(t));
    }
  }

  lemma StepFaith(c: Config, e: Engine, env: Env)
    requires EngineInv(c, e) && Legal(c, e, Event.Step(env)) && AllFaithful(e.seen, e.s, e.log)
    ensures AllFaithful(e.seen, Next(c, e, Event.Step(env)).s, e.log)
  {
    AtRest(c, e);
    StepParts(c, e, env);
    StepNext(c, e, env);
    var p := SchedulePass(c, env, e.s);
    hide SchedulePass, Next, EngineInv, Legal, Rest, EnvOk, PassOk, Books, AllFaithful, TextsKept, Framed, AfterSchedule;
    SchedulePassOk(c, env, e.s);
    PassOkParts(c, e.s, p);
    FramedTexts(c, e.s, p.s);
    AdvancedTexts(p);
    TextsKeepFaith(e.seen, e.s, p.s, e.log);
    TextsKeepFaith(e.seen, p.s, AfterSchedule(p.s, p.order, p.num, p.specs), e.log);
  }

  lemma NewFaith(c: Config, e: Engine, id: Id, v: View)
    requires AllFaithful(e.seen, e.s, e.log) && id !in e.seen && NewRequest(c, v)
    ensures AllFaithful(e.seen[id := v], Enqueue(Put(e.s, id, v), id), e.log)
  {
    UnknownId(e.log, id);
    var t := Enqueue(Put(e.s, id, v), id);
    assert v.prompt + [] == v.prompt;
    var seen := e.seen[id := v];
    forall x | x in seen && !seen[x].resumable ensures Faithful(seen[x], t, e.log, x) {
      if x != id {
        assert Faithful(e.seen[x], e.s, e.log, x);
      }
    }
  }

  /** Only sessions are continued. */
  lemma SessionFaith(seen: map<Id, View>, s: State, t: State, log: seq<Message>, id: Id)
    requires AllFaithful(seen, s, log) && id in s.reqs && s.reqs[id].resumable && SameBut(s, t, id) && id in t.reqs
    ensures AllFaithful(seen, t, log)
  {
    forall x | x in seen && !seen[x].resumable ensures Faithful(seen[x], t, log, x) {
      assert Faithful(seen[x], s, log, x);
    }
  }

  lemma AddFaith(c: Config, e: Engine, id: Id, v: View, late: set<Id>)
    requires AllFaithful(e.seen, e.s, e.log) && Legal(c, e, Event.Add(id, v, late))
    ensures var f := Next(c, e, Event.Add(id, v, late)); AllFaithful(f.seen, f.s, f.log)
  {
    if id !in e.s.reqs {
      hide AllFaithful, Enqueue;
      NewFaith(c, e, id, v);
    } else if e.s.reqs[id].status == WaitingForStreamingReq && !v.resumable {
      hide AllFaithful, FinishRequests;
      FinishTexts(e.s, {id}, FinishedAborted, late);
      TextsKeepFaith(e.seen, e.s, FinishRequests(e.s, {id}, FinishedAborted, late), e.log);
    } else {
      hide AllFaithful;
      SessionFaith(e.seen, e.s, AddRequest(e.s, id, v, late), e.log, id);
    }
  }

  // -------------------------------------------------------------------------- reports

  /** Appending the same tokens to the output and to the log. */
  lemma SaidOnce(first: View, s: State, t: State, log: seq<Message>, id: Id, m: Message, v: View)
    requires Faithful(first, s, log, id) && id in s.reqs && !IsFinished(s.reqs[id].status) && m.id == id
    requires id in t.reqs ==>
      t.reqs[id] == v && v.prompt == s.reqs[id].prompt && v.output == s.reqs[id].output + m.toks
      && v.all == s.reqs[id].all + m.toks && !v.resumable && (m.reason.Some? ==> IsFinished(v.status))
      && SameLimits(s.reqs[id], v)
    ensures Faithful(first, t, log + [m], id)
  {
    OneMore(log, m, id);
    var w := s.reqs[id];
    assert (w.prompt + w.output) + m.toks == w.prompt + (w.output + m.toks);
    hide Delivered, Ended, EndsOnce;
  }

  lemma SaidOfAnother(first: View, s: State, t: State, log: seq<Message>, id: Id, m: Message)
    requires Faithful(first, s, log, id) && m.id != id && SameBut(s, t, m.id)
    ensures Faithful(first, t, log + [m], id)
  {
    OneMore(log, m, id);
    hide Delivered, Ended, EndsOnce;
  }

  /** One request gets one message, with the tokens that extend its output. */
  lemma MessageFaith(seen: map<Id, View>, s: State, t: State, log: seq<Message>, id: Id, m: Message, v: View)
    requires AllFaithful(seen, s, log) && id in s.reqs && !IsFinished(s.reqs[id].status) && SameBut(s, t, id)
    requires m.id == id
    requires !s.reqs[id].resumable && id in t.reqs ==>
      t.reqs[id] == v && v.prompt == s.reqs[id].prompt && v.output == s.reqs[id].output + m.toks
      && v.all == s.reqs[id].all + m.toks && !v.resumable && (m.reason.Some? ==> IsFinished(v.status))
      && SameLimits(s.reqs[id], v)
    ensures AllFaithful(seen, t, log + [m])
  {
    forall x | x in seen && !seen[x].resumable ensures Faithful(seen[x], t, log + [m], x) {
      assert Faithful(seen[x], s, log, x);
      if x == id {
        NotASession(seen[x], s, log, x);
        hide Faithful;
        SaidOnce(seen[x], s, t, log, x, m, v);
      } else {
        hide Faithful;
        SaidOfAnother(seen[x], s, t, log, x, m);
      }
    }
  }

  lemma NotASession(first: View, s: State, log: seq<Message>, id: Id)
    requires Faithful(first, s, log, id)
    ensures id in s.reqs ==> !s.reqs[id].resumable
  {
  }

  /** What the loop of `update_from_output` does for a request that is not a session. */
  lemma UpdateOneText(c: Config, out: Output, ans: Answer, failed: set<Id>, a: Acc, id: Id)
    requires id !in failed && id in a.s.reqs && !IsFinished(a.s.reqs[id].status) && a.s.reqs[id].status == Running
    ensures var v := a.s.reqs[id];
            var r := Receive(c, v, Drafts(out.specs, id), TokensFor(ans, id), id in ans.rejected);
            var b := UpdateOne(c, out, ans, failed, a, id);
            && r.v.prompt == v.prompt && r.v.output == v.output + r.toks && r.v.all == v.all + r.toks
            && (!v.resumable ==> !r.v.resumable) && SameLimits(v, r.v)
            && (r.stopped ==> IsFinished(r.v.status))
            && b.msgs == (if r.stopped then a.msgs + [Message(id, r.toks, ReasonOf(r.v.status))]
                          else if r.toks != [] then a.msgs + [Message(id, r.toks, None)] else a.msgs)
            && (!v.resumable && id in b.s.reqs ==> b.s.reqs[id] == r.v)
            && SameBut(a.s, b.s, id)
  {
    ReceiveShape(c, a.s.reqs[id], Drafts(out.specs, id), TokensFor(ans, id), id in ans.rejected);
    UpdateOneOthers(c, out, ans, failed, a, id);
    hide Receive, Drafts, TokensFor, SameBut;
  }

  lemma UpdateStepFaith(
      c: Config, out: Output, ans: Answer, failed: set<Id>, done: seq<Id>, a: Acc, id: Id, seen: map<Id, View>, log: seq<Message>)
    requires AllFaithful(seen, a.s, log + a.msgs) && id in out.order && id !in done && MidInv(c, out, failed, done, a)
    ensures var b := UpdateOne(c, out, ans, failed, a, id); AllFaithful(seen, b.s, log + b.msgs)
  {
    hide AllFaithful, UpdateOne, Receive;
    if id in failed || id !in a.s.reqs || IsFinished(a.s.reqs[id].status) {
      UpdateOneNothing(c, out, ans, failed, a, id);
    } else {
      BusyRuns(c, out, failed, done, a, id);
      hide MidInv;
      UpdateOneText(c, out, ans, failed, a, id);
      var b := UpdateOne(c, out, ans, failed, a, id);
      var r := Receive(c, a.s.reqs[id], Drafts(out.specs, id), TokensFor(ans, id), id in ans.rejected);
      if b.msgs == a.msgs {
        SilentFaith(seen, a.s, b.s, log + a.msgs, id, r.v);
      } else {
        var m := b.msgs[|a.msgs|];
        assert log + b.msgs == log + a.msgs + [m];
        MessageFaith(seen, a.s, b.s, log + a.msgs, id, m, r.v);
      }
    }
  }

  /** ... or none, while it is still being prefilled. */
  lemma SilentFaith(seen: map<Id, View>, s: State, t: State, log: seq<Message>, id: Id, v: View)
    requires AllFaithful(seen, s, log) && id in s.reqs && !IsFinished(s.reqs[id].status) && SameBut(s, t, id)
    requires !s.reqs[id].resumable && id in t.reqs ==>
      t.reqs[id] == v && v.prompt == s.reqs[id].prompt && v.output == s.reqs[id].output + []
      && v.all == s.reqs[id].all + [] && !v.resumable && SameLimits(s.reqs[id], v)
    ensures AllFaithful(seen, t, log)
  {
    forall x | x in seen && !seen[x].resumable ensures Faithful(seen[x], t, log, x) {
      assert Faithful(seen[x], s, log, x);
    }
  }

  lemma {:induction false} UpdateAllFaith(
      c: Config, out: Output, ans: Answer, failed: set<Id>, a: Acc, n: nat, seen: map<Id, View>, log: seq<Message>)
    requires NoDup(out.order) && n <= |out.order| && AllFaithful(seen, a.s, log + a.msgs)
    requires MidInv(c, out, failed, [], a) && ReportsOk(c, out, ans, failed, [], a.s)
    ensures var b := UpdateAll(c, out, ans, failed, a, out.order[..n]); AllFaithful(seen, b.s, log + b.msgs)
  {
    hide MidInv, ReportsOk, UpdateOne, AllFaithful;
    if n > 0 {
      UpdateAllFaith(c, out, ans, failed, a, n - 1, seen, log);
      UpdateAllInv(c, out, ans, failed, a, n - 1);
      NextInOrder(out.order, n - 1);
      var ids := out.order[..n];
      assert ids[..n - 1] == out.order[..n - 1] && ids[n - 1] == out.order[n - 1];
      UpdateStepFaith(c, out, ans, failed, out.order[..n - 1],
                      UpdateAll(c, out, ans, failed, a, out.order[..n - 1]), out.order[n - 1], seen, log);
    } else {
      assert out.order[..0] == [];
    }
  }

  // ------------------------------------------------------------------- the "fail" policy

  lemma {:induction false} FailLog(log: seq<Message>, q: seq<Id>, failed: set<Id>, id: Id)
    requires NoDup(q)
    ensures var l := log + FailMessages(q, failed);
            && Delivered(l, id) == Delivered(log, id)
            && (Ended(l, id) <==> Ended(log, id) || (id in q && id in failed))
            && (EndsOnce(log, id) && (id in q && id in failed ==> !Ended(log, id)) ==> EndsOnce(l, id))
  {
    if q == [] {
      assert log + [] == log;
    } else {
      var n := |q| - 1;
      var x := q[n];
      assert q == q[..n] + [x];
      assert forall k :: 0 <= k < n ==> q[..n][k] == q[k];
      FailLog(log, q[..n], failed, id);
      var front := log + FailMessages(q[..n], failed);
      hide Ended, EndsOnce, Delivered;
      if x in failed {
        var m := Message(x, [], Some(FinishReason.Error));
        assert log + FailMessages(q, failed) == front + [m];
        OneMore(front, m, id);
      } else {
        assert log + FailMessages(q, failed) == front;
      }
    }
  }

  lemma {:induction false} FailIds(q: seq<Id>, failed: set<Id>)
    ensures forall k :: 0 <= k < |FailMessages(q, failed)| ==> FailMessages(q, failed)[k].id in q && FailMessages(q, failed)[k].id in failed
  {
    if q != [] {
      FailIds(q[..|q| - 1], failed);
      assert q == q[..|q| - 1] + [q[|q| - 1]];
    }
  }

  lemma {:induction false} FailFaith(seen: map<Id, View>, s: State, t: State, log: seq<Message>, q: seq<Id>, failed: set<Id>)
    requires AllFaithful(seen, s, log) && TextsKept(s, t) && NoDup(q)
    requires forall id :: id in failed ==> id in s.reqs && !IsFinished(s.reqs[id].status)
    requires forall id :: id in failed && id in t.reqs ==> IsFinished(t.reqs[id].status)
    ensures AllFaithful(seen, t, log + FailMessages(q, failed))
  {
    FailIds(q, failed);
    hide FailMessages;
    forall id | id in seen && !seen[id].resumable ensures Faithful(seen[id], t, log + FailMessages(q, failed), id) {
      assert Faithful(seen[id], s, log, id);
      FailLog(log, q, failed, id);
      hide Delivered, Ended, EndsOnce;
    }
  }

  /** Requests that failed to load are passed over by the loop. */
  lemma {:induction false} FailedUntouched(c: Config, out: Output, ans: Answer, failed: set<Id>, a: Acc, ids: seq<Id>, id: Id)
    requires id in failed && id in a.s.reqs
    ensures var b := UpdateAll(c, out, ans, failed, a, ids); id in b.s.reqs && b.s.reqs[id] == a.s.reqs[id]
  {
    hide UpdateOne;
    if ids != [] {
      var n := |ids| - 1;
      FailedUntouched(c, out, ans, failed, a, ids[..n], id);
      var b := UpdateAll(c, out, ans, failed, a, ids[..n]);
      if ids[n] in failed || ids[n] !in b.s.reqs || IsFinished(b.s.reqs[ids[n]].status) {
        UpdateOneNothing(c, out, ans, failed, b, ids[n]);
      } else {
        UpdateOneOthers(c, out, ans, failed, b, ids[n]);
      }
    }
  }

  lemma RecoveredTexts(s: State, r: Recovery, num: map<Id, int>)
    requires RecoveryOk(s, num, r)
    ensures TextsKept(s, r.s)
    ensures forall id :: id in r.failed ==> id in r.s.reqs && !IsFinished(r.s.reqs[id].status)
  {
    forall id | id in s.reqs ensures Lowered(s.reqs[id], r.s.reqs[id], Get(num, id)) {
      assert RecoveredRequest(s, num, r, id);
    }
  }

  lemma LoopFaith(c: Config, e: Engine, ans: Answer)
    requires EngineInv(c, e) && Legal(c, e, Event.Report(ans)) && AllFaithful(e.seen, e.s, e.log)
    ensures e.pending.Some?
    ensures var a := Loop(c, e.s, e.pending.value, ans); AllFaithful(e.seen, Settled(a), e.log + a.msgs)
    ensures var failed := HandleInvalid(c, e.s, e.pending.value.num, ans).failed;
            var s := Settled(Loop(c, e.s, e.pending.value, ans));
      forall id :: id in failed ==> id in s.reqs && !IsFinished(s.reqs[id].status)
  {
    var out := e.pending.value;
    var r := HandleInvalid(c, e.s, out.num, ans);
    var a := Acc(r.s, {}, {}, []);
    assert AnswerOk(c, e.s, out, ans) && LoadsDisjoint(e.s, ans) && NoDup(out.order);
    hide HandleInvalid, LoadsDisjoint, UpdateAll, MidInv, EngineInv, AnswerOk, ReportsOk, RecoveryOk, AllFaithful, TextsKept;
    RecoveredMid(c, e, ans);
    ReportsApply(c, e, ans, r);
    RecoveredTexts(e.s, r, out.num);
    TextsKeepFaith(e.seen, e.s, r.s, e.log);
    assert out.order[..|out.order|] == out.order && e.log + [] == e.log;
    UpdateAllFaith(c, out, ans, r.failed, a, |out.order|, e.seen, e.log);
    var b := Loop(c, e.s, out, ans);
    SettledTexts(b);
    TextsKeepFaith(e.seen, b.s, Settled(b), e.log + b.msgs);
    forall id | id in r.failed ensures id in b.s.reqs && !IsFinished(b.s.reqs[id].status) {
      FailedUntouched(c, out, ans, r.failed, a, out.order, id);
    }
  }

  lemma SettledTexts(a: Acc)
    ensures TextsKept(a.s, Settled(a))
  {
    hide Without;
  }

  /** The messages of a report. */
  lemma ReportMessages(c: Config, s: State, out: Output, ans: Answer)
    ensures var a := Loop(c, s, out, ans);
            var failed := FailedNow(c, s, out, ans);
            UpdateFromOutput(c, s, out, ans).msgs ==
              if failed != {} then a.msgs + FailMessages(s.skipped + s.running, failed) else a.msgs
  {
    hide HandleInvalid, UpdateAll, FinishRequests, TransfersFinished, Without, FailMessages;
  }

  lemma FailedParts(c: Config, s: State, out: Output, ans: Answer)
    ensures FailedNow(c, s, out, ans) != {} ==> FailedNow(c, s, out, ans) == HandleInvalid(c, s, out.num, ans).failed
  {
    hide HandleInvalid;
  }

  lemma FailedEnd(s: State, failed: set<Id>, delay: set<Id>)
    requires forall id :: id in failed ==> id in s.reqs && !IsFinished(s.reqs[id].status)
    ensures var t := FinishRequests(s, failed, FinishedError, delay);
      TextsKept(s, t) && forall id :: id in failed && id in t.reqs ==> IsFinished(t.reqs[id].status)
  {
    FinishTexts(s, failed, FinishedError, delay);
    FinishViews(s, failed, FinishedError, delay);
    assert Finishable(s, failed) == failed;
    hide FinishRequests;
  }

  lemma QueueNoDup(s: State)
    requires Partition(s, [])
    ensures NoDup(s.skipped + s.running)
  {
    forall id | id in s.skipped + s.running ensures multiset(s.skipped + s.running)[id] == 1 {
      Member(s, [], id);
      assert multiset(s.skipped)[id] + multiset(s.running)[id] <= Queued(s, [])[id];
    }
    NoDupByCount(s.skipped + s.running);
  }

  lemma QueuesDistinct(c: Config, e: Engine)
    requires EngineInv(c, e)
    ensures NoDup(e.s.skipped + e.s.running)
  {
    QueueNoDup(e.s);
  }

  lemma AfterFailFaith(c: Config, e: Engine, ans: Answer)
    requires EngineInv(c, e) && Legal(c, e, Event.Report(ans)) && AllFaithful(e.seen, e.s, e.log)
    ensures e.pending.Some?
    ensures AllFaithful(e.seen, AfterFail(c, e.s, e.pending.value, ans),
                        e.log + UpdateFromOutput(c, e.s, e.pending.value, ans).msgs)
  {
    hide EngineInv, Legal, AllFaithful, AfterFail, UpdateFromOutput, Loop, Settled, FailedNow, HandleInvalid, FinishRequests,
         FailMessages, TextsKept, NoDup;
    QueuesDistinct(c, e);
    LoopFaith(c, e, ans);
    var out := e.pending.value;
    var a, failed, q := Loop(c, e.s, out, ans), FailedNow(c, e.s, out, ans), e.s.skipped + e.s.running;
    AfterFailIs(c, e.s, out, ans);
    ReportMessages(c, e.s, out, ans);
    FailedParts(c, e.s, out, ans);
    if failed != {} {
      FailedEnd(Settled(a), failed, ans.delay);
      FailFaith(e.seen, Settled(a), AfterFail(c, e.s, out, ans), e.log + a.msgs, q, failed);
      assert e.log + a.msgs + FailMessages(q, failed) == e.log + (a.msgs + FailMessages(q, failed));
    }
  }

  lemma ReportFaith(c: Config, e: Engine, ans: Answer)
    requires EngineInv(c, e) && Legal(c, e, Event.Report(ans)) && AllFaithful(e.seen, e.s, e.log)
    ensures var f := Next(c, e, Event.Report(ans)); AllFaithful(e.seen, f.s, f.log)
  {
    AfterFailFaith(c, e, ans);
    ReportStages(c, e, ans);
    hide Legal, EngineInv, TransfersFinished, UpdateFromOutput, AllFaithful, AfterFail, TextsKept, Loop, Settled;
    var out := e.pending.value;
    var u := AfterFail(c, e.s, out, ans);
    TransferTexts(u, ans.recv, ans.send);
    TextsKeepFaith(e.seen, u, TransfersFinished(u, ans.recv, ans.send), e.log + UpdateFromOutput(c, e.s, out, ans).msgs);
  }

  // ------------------------------------------------------------------------- whole runs

  lemma NextFaith(c: Config, e: Engine, ev: Event)
    requires EngineInv(c, e) && Legal(c, e, ev) && AllFaithful(e.seen, e.s, e.log)
    ensures var f := Next(c, e, ev); AllFaithful(f.seen, f.s, f.log)
  {
    match ev {
      case Step(env) => StepFaith(c, e, env);
      case Report(ans) => ReportFaith(c, e, ans);
      case Draft(drafts) =>
        DraftTexts(e.s, drafts);
        TextsKeepFaith(e.seen, e.s, UpdateDrafts(e.s, drafts), e.log);
      case Add(id, v, late) => AddFaith(c, e, id, v, late);
      case Abort(ids, st, late) =>
        FinishTexts(e.s, ids, st, late);
        TextsKeepFaith(e.seen, e.s, FinishRequests(e.s, ids, st, late), e.log);
      case Reset(running) =>
        InvParts(c, e);
        ResetTexts(e.s);
        hide PreemptAll, EngineInv;
        TextsKeepFaith(e.seen, e.s, ResetPrefixCache(e.s, running), e.log);
      case SetPause(pause) =>
        TextsKeepFaith(e.seen, e.s, e.s.(pause := pause), e.log);
    }
  }

  /**
   * Over every run, for every request that is not a streaming session: what was
   * delivered is exactly its output, its tokens are its prompt and that output,
   * and a message with a finish reason is the only one of its kind and the last.
   */
  lemma {:induction false} ExactlyOnceDelivery(c: Config, run: seq<Event>)
    requires LegalRun(c, INITIAL, run)
    ensures var e := After(c, INITIAL, run); AllFaithful(e.seen, e.s, e.log)
  {
    if run != [] {
      var front := run[..|run| - 1];
      ExactlyOnceDelivery(c, front);
      InitialInv(c);
      hide EngineInv, Legal, Next, AllFaithful;
      RunKeepsInv(c, INITIAL, front);
      NextFaith(c, After(c, INITIAL, front), run[|run| - 1]);
    }
  }

  // ------------------------------------------------------------------- the last message

  /** Before its turn a request is as it was; after it, its message is in the log. */
  ghost predicate Told(log: seq<Message>, s: State, id: Id, v: View, r: Appended, done: bool) {
    if done then Delivered(log, id) == v.output + r.toks && (Ended(log, id) <==> r.stopped)
    else id in s.reqs && s.reqs[id] == v && Delivered(log, id) == v.output && !Ended(log, id)
  }

  lemma TellOne(
      c: Config, out: Output, ans: Answer, failed: set<Id>, done: seq<Id>, a: Acc, x: Id, log: seq<Message>, id: Id, v: View)
    requires MidInv(c, out, failed, done, a) && x in out.order && x !in done && id !in failed
    requires !IsFinished(v.status)
    requires Told(log + a.msgs, a.s, id, v, Receive(c, v, Drafts(out.specs, id), TokensFor(ans, id), id in ans.rejected), id in done)
    ensures var b := UpdateOne(c, out, ans, failed, a, x);
      Told(log + b.msgs, b.s, id, v, Receive(c, v, Drafts(out.specs, id), TokensFor(ans, id), id in ans.rejected), id in done || x == id)
  {
    hide UpdateOne, Receive, Drafts, TokensFor, Delivered, Ended, MidInv, Extend, Reconcile;
    if x in failed || x !in a.s.reqs || IsFinished(a.s.reqs[x].status) {
      UpdateOneNothing(c, out, ans, failed, a, x);
    } else {
      BusyRuns(c, out, failed, done, a, x);
      UpdateOneText(c, out, ans, failed, a, x);
      ReceiveShape(c, a.s.reqs[x], Drafts(out.specs, x), TokensFor(ans, x), x in ans.rejected);
      var b := UpdateOne(c, out, ans, failed, a, x);
      if b.msgs != a.msgs {
        var m := b.msgs[|a.msgs|];
        assert log + b.msgs == log + a.msgs + [m];
        OneMore(log + a.msgs, m, id);
      } else {
        assert v.output + [] == v.output;
      }
    }
  }

  lemma {:induction false} TellAll(
      c: Config, out: Output, ans: Answer, failed: set<Id>, a: Acc, n: nat, log: seq<Message>, id: Id)
    requires NoDup(out.order) && n <= |out.order| && id !in failed && id in a.s.reqs && !IsFinished(a.s.reqs[id].status)
    requires MidInv(c, out, failed, [], a) && ReportsOk(c, out, ans, failed, [], a.s)
    requires Delivered(log + a.msgs, id) == a.s.reqs[id].output && !Ended(log + a.msgs, id)
    ensures var v := a.s.reqs[id];
      var b := UpdateAll(c, out, ans, failed, a, out.order[..n]);
      Told(log + b.msgs, b.s, id, v,
           Receive(c, v, Drafts(out.specs, id), TokensFor(ans, id), id in ans.rejected), id in out.order[..n])
  {
    hide MidInv, ReportsOk, UpdateOne, Receive, Drafts, TokensFor, Delivered, Ended;
    if n > 0 {
      TellAll(c, out, ans, failed, a, n - 1, log, id);
      UpdateAllInv(c, out, ans, failed, a, n - 1);
      NextInOrder(out.order, n - 1);
      var ids := out.order[..n];
      assert ids[..n - 1] == out.order[..n - 1] && ids[n - 1] == out.order[n - 1];
      hide Told;
      TellOne(c, out, ans, failed, out.order[..n - 1], UpdateAll(c, out, ans, failed, a, out.order[..n - 1]),
              out.order[n - 1], log, id, a.s.reqs[id]);
    } else {
      assert out.order[..0] == [];
    }
  }

  lemma {:induction false} NotEnded(e: Engine, id: Id)
    requires AllFaithful(e.seen, e.s, e.log) && id in e.s.reqs && !e.seen[id].resumable && !IsFinished(e.s.reqs[id].status)
    ensures Delivered(e.log, id) == e.s.reqs[id].output && !Ended(e.log, id)
  {
    assert Faithful(e.seen[id], e.s, e.log, id);
  }

  lemma InFlightUnchanged(c: Config, e: Engine, r: Recovery, id: Id)
    requires EngineInv(c, e) && e.pending.Some? && InFlight(e, id) && RecoveryOk(e.s, e.pending.value.num, r) && id !in r.failed
    ensures id in r.s.reqs && r.s.reqs[id] == e.s.reqs[id]
  {
    assert RequestOk(c, e, id) && RecoveredRequest(e.s, e.pending.value.num, r, id);
  }

  lemma {:induction false} ToldByLoop(c: Config, e: Engine, ans: Answer, id: Id)
    requires EngineInv(c, e) && Legal(c, e, Event.Report(ans)) && InFlight(e, id)
    requires id !in HandleInvalid(c, e.s, e.pending.value.num, ans).failed
    requires Delivered(e.log, id) == e.s.reqs[id].output && !Ended(e.log, id)
    ensures var out := e.pending.value;
            var v := e.s.reqs[id];
            var r := Receive(c, v, Drafts(out.specs, id), TokensFor(ans, id), id in ans.rejected);
            var log := e.log + Loop(c, e.s, out, ans).msgs;
            Delivered(log, id) == v.output + r.toks && (Ended(log, id) <==> r.stopped)
  {
    var out := e.pending.value;
    var r := HandleInvalid(c, e.s, out.num, ans);
    assert AnswerOk(c, e.s, out, ans) && LoadsDisjoint(e.s, ans) && NoDup(out.order);
    assert out.order[..|out.order|] == out.order && e.log + [] == e.log;
    hide HandleInvalid, LoadsDisjoint, UpdateAll, MidInv, EngineInv, AnswerOk, ReportsOk, RecoveryOk, Receive, Delivered, Ended;
    RecoveredMid(c, e, ans);
    ReportsApply(c, e, ans, r);
    InFlightUnchanged(c, e, r, id);
    TellAll(c, out, ans, r.failed, Acc(r.s, {}, {}, []), |out.order|, e.log, id);
  }

  /**
   * A report delivers exactly the tokens the request appends in it, also when
   * it stops there and is gone afterwards, and ends it iff it stopped.
   */
  lemma {:induction false} ReportDelivers(c: Config, e: Engine, ans: Answer, id: Id)
    requires EngineInv(c, e) && AllFaithful(e.seen, e.s, e.log) && Legal(c, e, Event.Report(ans))
    requires InFlight(e, id) && id in e.seen && !e.seen[id].resumable
    requires id !in HandleInvalid(c, e.s, e.pending.value.num, ans).failed
    ensures var out := e.pending.value;
            var v := e.s.reqs[id];
            var r := Receive(c, v, Drafts(out.specs, id), TokensFor(ans, id), id in ans.rejected);
            var log := Next(c, e, Event.Report(ans)).log;
            && Delivered(log, id) == v.output + r.toks && r.v.output == v.output + r.toks
            && (Ended(log, id) <==> r.stopped)
  {
    hide EngineInv, AllFaithful, HandleInvalid, FailedNow, Receive, Delivered, Ended, EndsOnce, FailMessages, Loop,
         UpdateFromOutput, Legal, Next, Drafts, TokensFor;
    var out := e.pending.value;
    var failed := FailedNow(c, e.s, out, ans);
    var msgs := Loop(c, e.s, out, ans).msgs;
    FailedParts(c, e.s, out, ans);
    NotEnded(e, id);
    ToldByLoop(c, e, ans, id);
    ReceiveShape(c, e.s.reqs[id], Drafts(out.specs, id), TokensFor(ans, id), id in ans.rejected);
    ReportMessages(c, e.s, out, ans);
    ReportLog(c, e, ans);
    if failed != {} {
      QueuesDistinct(c, e);
      FailLog(e.log + msgs, e.s.skipped + e.s.running, failed, id);
      assert e.log + msgs + FailMessages(e.s.skipped + e.s.running, failed)
        == e.log + (msgs + FailMessages(e.s.skipped + e.s.running, failed));
    }
  }

  lemma ReportLog(c: Config, e: Engine, ans: Answer)
    requires e.pending.Some?
    ensures Next(c, e, Event.Report(ans)).log == e.log + UpdateFromOutput(c, e.s, e.pending.value, ans).msgs
  {
  }
}
