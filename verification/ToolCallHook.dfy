/**
 * The tool-call hook (edmm_hook.py): two maps behind a lock. Each call is one
 * atomic step, so threads interleave call by call.
 */
module ToolCallHook {
  import opened Seqs
  import opened Requests
  import opened PageTable
  import opened Vmm

  datatype Decision = Speculate | Defer

  /** `ToolCallState`, as far as anybody reads it. */
  datatype PauseState = PauseState(handles: seq<Handle>, decision: Decision)

  datatype HookState = HookState(pauses: map<Id, PauseState>, responses: set<Id>)

  const NO_CALLS := HookState(map[], {})

  /** The critical sections. `Attach` stands for the code that speculates; it is not in the repository. */
  datatype Call =
    | Pause(id: Id, decision: Decision)
    | Attach(id: Id, handle: Handle)
    | Submit(id: Id)
    | Look(id: Id)
    | Resume(id: Id)
    | Cleanup(id: Id)

  function Step(s: HookState, call: Call): HookState {
    match call
    case Pause(id, decision) => s.(pauses := s.pauses[id := PauseState([], decision)])
    case Attach(id, h) =>
      if id in s.pauses then s.(pauses := s.pauses[id := s.pauses[id].(handles := s.pauses[id].handles + [h])]) else s
    case Submit(id) => s.(responses := s.responses + {id})
    case Look(id) => s
    case Resume(id) => HookState(s.pauses - {id}, s.responses - {id})
    case Cleanup(id) => HookState(s.pauses - {id}, s.responses - {id})
  }

  /** The hook after any interleaving of calls. */
  function Replay(calls: seq<Call>): HookState {
    if calls == [] then NO_CALLS else Step(Replay(calls[..|calls| - 1]), calls[|calls| - 1])
  }

  predicate Consumes(call: Call, id: Id) { call == Call.Resume(id) || call == Cleanup(id) }

  /** A response for `id` was submitted after the last resume or cleanup of `id`. */
  ghost predicate Pending(calls: seq<Call>, id: Id) {
    exists k :: 0 <= k < |calls| && calls[k] == Submit(id) && forall j :: k < j < |calls| ==> !Consumes(calls[j], id)
  }

  /** `id` was paused after its last resume or cleanup. */
  ghost predicate StillPaused(calls: seq<Call>, id: Id) {
    exists k :: 0 <= k < |calls| && calls[k].Pause? && calls[k].id == id && forall j :: k < j < |calls| ==> !Consumes(calls[j], id)
  }

  lemma PendingSnoc(calls: seq<Call>, call: Call, id: Id)
    ensures Pending(calls + [call], id) <==> call == Submit(id) || (Pending(calls, id) && !Consumes(call, id))
  {
    var all := calls + [call];
    if Pending(all, id) {
      var k :| 0 <= k < |all| && all[k] == Submit(id) && forall j :: k < j < |all| ==> !Consumes(all[j], id);
      if k < |calls| {
        assert !Consumes(all[|calls|], id);
        assert calls[k] == Submit(id) && forall j :: k < j < |calls| ==> calls[j] == all[j];
      }
    }
    if Pending(calls, id) && !Consumes(call, id) {
      var k :| 0 <= k < |calls| && calls[k] == Submit(id) && forall j :: k < j < |calls| ==> !Consumes(calls[j], id);
      assert all[k] == Submit(id);
    }
    if call == Submit(id) {
      assert all[|calls|] == Submit(id);
    }
  }

  lemma PausedSnoc(calls: seq<Call>, call: Call, id: Id)
    ensures StillPaused(calls + [call], id) <==>
      (call.Pause? && call.id == id) || (StillPaused(calls, id) && !Consumes(call, id))
  {
    var all := calls + [call];
    if StillPaused(all, id) {
      var k :| 0 <= k < |all| && all[k].Pause? && all[k].id == id && forall j :: k < j < |all| ==> !Consumes(all[j], id);
      if k < |calls| {
        assert !Consumes(all[|calls|], id);
        assert calls[k].Pause? && forall j :: k < j < |calls| ==> calls[j] == all[j];
      }
    }
    if StillPaused(calls, id) && !Consumes(call, id) {
      var k :| 0 <= k < |calls| && calls[k].Pause? && calls[k].id == id && forall j :: k < j < |calls| ==> !Consumes(calls[j], id);
      assert all[k].Pause? && all[k].id == id;
    }
    if call.Pause? && call.id == id {
      assert all[|calls|].Pause? && all[|calls|].id == id;
    }
  }

  /**
   * No lost wake-up: in every interleaving a response is visible exactly from
   * its submission, which may precede the pause, to the next resume or cleanup.
   */
  lemma {:induction false} ResponseVisible(calls: seq<Call>, id: Id)
    ensures id in Replay(calls).responses <==> Pending(calls, id)
  {
    if calls != [] {
      var n := |calls| - 1;
      ResponseVisible(calls[..n], id);
      PendingSnoc(calls[..n], calls[n], id);
      assert calls == calls[..n] + [calls[n]];
    }
  }

  lemma {:induction false} PauseVisible(calls: seq<Call>, id: Id)
    ensures id in Replay(calls).pauses <==> StillPaused(calls, id)
  {
    if calls != [] {
      var n := |calls| - 1;
      PauseVisible(calls[..n], id);
      PausedSnoc(calls[..n], calls[n], id);
      assert calls == calls[..n] + [calls[n]];
    }
  }

  /** The handles that `calls` attach to `id`, in their order. */
  function Attached(calls: seq<Call>, id: Id): seq<Handle> {
    if calls == [] then []
    else
      var n := |calls| - 1;
      Attached(calls[..n], id) + (if calls[n].Attach? && calls[n].id == id then [calls[n].handle] else [])
  }

  /** Call `k` is the last that paused `id`, and nothing consumed the pause since. */
  ghost predicate LastPause(calls: seq<Call>, id: Id, k: int) {
    && 0 <= k < |calls| && calls[k].Pause? && calls[k].id == id
    && forall j :: k < j < |calls| ==> !Consumes(calls[j], id) && !(calls[j].Pause? && calls[j].id == id)
  }

  /** A pause holds the decision that was taken with it, and exactly the handles attached since. */
  lemma {:induction false} PauseRemembers(calls: seq<Call>, id: Id) returns (k: int)
    requires id in Replay(calls).pauses
    ensures LastPause(calls, id, k)
    ensures Replay(calls).pauses[id] == PauseState(Attached(calls[k + 1..], id), calls[k].decision)
  {
    var n := |calls| - 1;
    var front, call := calls[..n], calls[n];
    if call.Pause? && call.id == id {
      k := n;
      assert calls[k + 1..] == [];
    } else {
      k := PauseRemembers(front, id);
      assert forall j :: 0 <= j < n ==> front[j] == calls[j];
      assert calls[k + 1..][..n - k - 1] == front[k + 1..] && calls[k + 1..][n - k - 1] == call;
    }
  }

  /** After a resume neither the pause nor any earlier response remains, whatever other threads did before. */
  lemma {:induction false} ResumeForgets(calls: seq<Call>, id: Id)
    ensures var s := Replay(calls + [Call.Resume(id)]);
            && id !in s.pauses && id !in s.responses
            && !Pending(calls + [Call.Resume(id)], id)
            && forall x :: x != id ==> (x in s.responses <==> x in Replay(calls).responses)
  {
    var all := calls + [Call.Resume(id)];
    assert all[..|calls|] == calls;
    ResponseVisible(all, id);
  }

  // ------------------------------------------------------------------------- the promotion

  /**
   * The scheduler thread promotes a WAITING_FOR_TOOL_CALL request in two
   * critical sections: look for the response, then resume. Other threads may
   * call the hook before, between and after.
   */
  datatype Event = Other(call: Call) | LookFor(id: Id) | Promote

  datatype System = System(calls: seq<Call>, blocked: set<Id>, promoting: Option<Id>, promoted: seq<Id>)

  function NextSystem(s: System, e: Event): System {
    match e
    case Other(call) => s.(calls := s.calls + [call])
    case LookFor(id) =>
      s.(calls := s.calls + [Look(id)], promoting := if id in Replay(s.calls).responses then Some(id) else None)
    case Promote =>
      if s.promoting.None? then s
      else
        var id := s.promoting.value;
        System(s.calls + [Call.Resume(id)], s.blocked - {id}, None, s.promoted + [id])
  }

  predicate LegalEvent(s: System, e: Event) {
    match e
    case Other(call) => true
    case LookFor(id) => id in s.blocked && s.promoting.None?
    case Promote => s.promoting.Some?
  }

  function RunSystem(s: System, es: seq<Event>): System {
    if es == [] then s else NextSystem(RunSystem(s, es[..|es| - 1]), es[|es| - 1])
  }

  ghost predicate LegalEvents(s: System, es: seq<Event>) {
    forall k :: 0 <= k < |es| ==> LegalEvent(RunSystem(s, es[..k]), es[k])
  }

  /** The scheduler looked at event `j`, saw a pending response of `id`, and did nothing since. */
  ghost predicate Looked(s: System, es: seq<Event>, j: nat, id: Id) {
    && j < |es| && es[j] == LookFor(id)
    && Pending(RunSystem(s, es[..j]).calls, id)
    && forall k :: j < k < |es| ==> es[k].Other?
  }

  lemma {:induction false} SawResponse(s: System, front: seq<Event>, id: Id)
    requires RunSystem(s, front + [LookFor(id)]).promoting.Some?
    ensures RunSystem(s, front + [LookFor(id)]).promoting == Some(id)
    ensures Looked(s, front + [LookFor(id)], |front|, id)
  {
    var es := front + [LookFor(id)];
    assert es[..|front|] == front;
    ResponseVisible(RunSystem(s, front).calls, id);
  }

  lemma StillLooked(s: System, front: seq<Event>, call: Call, j: nat, id: Id)
    requires Looked(s, front, j, id)
    ensures Looked(s, front + [Other(call)], j, id)
  {
    assert (front + [Other(call)])[..j] == front[..j];
  }

  lemma {:induction false} PromotingLooked(s: System, es: seq<Event>)
    requires s.promoting.None? && LegalEvents(s, es)
    ensures var t := RunSystem(s, es);
      t.promoting.Some? ==> exists j :: Looked(s, es, j, t.promoting.value)
  {
    if es != [] {
      var n := |es| - 1;
      var front, e := es[..n], es[n];
      FrontLegal(s, es, n);
      PromotingLooked(s, front);
      assert es == front + [e];
      var before, after := RunSystem(s, front), RunSystem(s, es);
      hide Looked, RunSystem;
      assert after == NextSystem(before, e) by { LastEvent(s, es); }
      if after.promoting.Some? {
        if e.LookFor? {
          SawResponse(s, front, e.id);
        } else if e.Other? {
          var j :| Looked(s, front, j, before.promoting.value);
          StillLooked(s, front, e.call, j, before.promoting.value);
        }
      }
    }
  }

  lemma {:induction false} LastEvent(s: System, es: seq<Event>)
    requires es != []
    ensures RunSystem(s, es) == NextSystem(RunSystem(s, es[..|es| - 1]), es[|es| - 1])
  {
  }

  lemma FrontLegal(s: System, es: seq<Event>, n: nat)
    requires LegalEvents(s, es) && n <= |es|
    ensures LegalEvents(s, es[..n])
  {
    forall k | 0 <= k < n ensures LegalEvent(RunSystem(s, es[..n][..k]), es[..n][k]) {
      assert es[..n][..k] == es[..k] && es[..n][k] == es[k];
    }
  }

  /**
   * A request becomes WAITING only after the scheduler saw a response that had
   * been submitted after the last resume or cleanup of that request.
   */
  lemma {:induction false} PromotedAfterResponse(s: System, es: seq<Event>, n: nat)
    requires s.promoting.None? && LegalEvents(s, es) && n < |es| && es[n].Promote?
    ensures var before := RunSystem(s, es[..n]);
            && before.promoting.Some?
            && (exists j :: Looked(s, es[..n], j, before.promoting.value))
            && RunSystem(s, es[..n + 1]).promoted == before.promoted + [before.promoting.value]
  {
    FrontLegal(s, es, n);
    assert LegalEvent(RunSystem(s, es[..n]), es[n]);
    PromotingLooked(s, es[..n]);
    assert es[..n + 1][..n] == es[..n] && es[..n + 1][n] == es[n];
  }

  /** A pending response is found the next time the scheduler looks. */
  lemma NoLostWakeUp(s: System, id: Id)
    requires id in s.blocked && s.promoting.None?
    ensures NextSystem(s, LookFor(id)).promoting == (if Pending(s.calls, id) then Some(id) else None)
  {
    ResponseVisible(s.calls, id);
  }

  ghost predicate ConsumesAt(e: Event, id: Id) { e.Other? && Consumes(e.call, id) }

  /** Nobody resumes or cleans up `id` after event `j`. */
  ghost predicate LeftAlone(es: seq<Event>, j: nat, id: Id) {
    forall k :: j < k < |es| ==> !ConsumesAt(es[k], id)
  }

  /** A response for `id` is submitted after event `j`, and nobody resumes or cleans up `id` after that. */
  ghost predicate Resubmitted(es: seq<Event>, j: nat, id: Id) {
    exists k :: j < k < |es| && es[k] == Other(Submit(id)) && LeftAlone(es, k, id)
  }

  lemma LeftAloneSnoc(es: seq<Event>, j: nat, id: Id, e: Event)
    requires j < |es|
    ensures LeftAlone(es + [e], j, id) <==> LeftAlone(es, j, id) && !ConsumesAt(e, id)
  {
    var all := es + [e];
    assert all[|es|] == e;
    assert forall k :: 0 <= k < |es| ==> all[k] == es[k];
  }

  lemma ResubmittedSnoc(es: seq<Event>, j: nat, id: Id, e: Event)
    requires j < |es|
    ensures Resubmitted(es + [e], j, id) <==> e == Other(Submit(id)) || (Resubmitted(es, j, id) && !ConsumesAt(e, id))
  {
    hide LeftAlone;
    var all := es + [e];
    if Resubmitted(all, j, id) {
      var k :| j < k < |all| && all[k] == Other(Submit(id)) && LeftAlone(all, k, id);
      if k < |es| {
        LeftAloneSnoc(es, k, id, e);
      }
    }
    if Resubmitted(es, j, id) && !ConsumesAt(e, id) {
      var k :| j < k < |es| && es[k] == Other(Submit(id)) && LeftAlone(es, k, id);
      LeftAloneSnoc(es, k, id, e);
      assert all[k] == es[k];
    }
    if e == Other(Submit(id)) {
      NothingAfter(all, |es|, id);
      assert all[|es|] == e;
    }
  }

  lemma NothingAfter(es: seq<Event>, j: nat, id: Id)
    requires j == |es| - 1
    ensures LeftAlone(es, j, id) && !Resubmitted(es, j, id)
  {
  }

  lemma LookedBefore(s: System, es: seq<Event>, j: nat, id: Id)
    requires Looked(s, es, j, id) && j < |es| - 1
    ensures Looked(s, es[..|es| - 1], j, id) && es[|es| - 1].Other?
  {
    assert es[..|es| - 1][..j] == es[..j];
  }

  lemma LookedNow(s: System, es: seq<Event>, j: nat, id: Id)
    requires Looked(s, es, j, id)
    ensures j < |es| && (j == |es| - 1 ==> es[j] == LookFor(id) && Pending(RunSystem(s, es[..j]).calls, id))
  {
  }

  /**
   * The response that was seen is there when the scheduler resumes the request
   * exactly if nobody else resumed or cleaned up the request since, or a new
   * response was submitted after the last time that happened.
   */
  lemma {:induction false} StillThereAtResume(s: System, es: seq<Event>, j: nat, id: Id)
    requires Looked(s, es, j, id)
    ensures Pending(RunSystem(s, es).calls, id) <==> LeftAlone(es, j, id) || Resubmitted(es, j, id)
    decreases |es|
  {
    hide Looked, RunSystem, Pending, LeftAlone, Resubmitted;
    LookedNow(s, es, j, id);
    var n := |es| - 1;
    var front, e := es[..n], es[n];
    assert es == front + [e];
    LastEvent(s, es);
    if j < n {
      LookedBefore(s, es, j, id);
      StillThereAtResume(s, front, j, id);
      LeftAloneSnoc(front, j, id, e);
      ResubmittedSnoc(front, j, id, e);
      PendingSnoc(RunSystem(s, front).calls, e.call, id);
    } else {
      NothingAfter(es, j, id);
      PendingSnoc(RunSystem(s, front).calls, Look(id), id);
    }
  }

  lemma {:induction false} ThreeEvents(s: System, e0: Event, e1: Event, e2: Event)
    ensures var es := [e0, e1, e2];
            var a := NextSystem(s, e0);
            var b := NextSystem(a, e1);
            && RunSystem(s, es) == NextSystem(b, e2)
            && (LegalEvent(s, e0) && LegalEvent(a, e1) && LegalEvent(b, e2) ==> LegalEvents(s, es))
  {
    var es := [e0, e1, e2];
    assert es[..0] == [] && es[..1] == [e0] && es[..2] == [e0, e1] && es[..3] == es;
    assert es[..2][..1] == es[..1] && es[..1][..0] == es[..0];
    hide NextSystem, LegalEvent;
    LastEvent(s, es[..1]);
    LastEvent(s, es[..2]);
  }

  /** That proviso is needed: a cleanup between the two critical sections leaves nothing to resume. */
  lemma CleanupInBetween()
    ensures exists s: System, es: seq<Event>, id: Id ::
      && s.promoting.None? && LegalEvents(s, es) && RunSystem(s, es).promoting == Some(id)
      && !Pending(RunSystem(s, es).calls, id)
  {
    var s := System([], {1}, None, []);
    hide Pending, LegalEvents, RunSystem, Replay;
    ThreeEvents(s, Other(Submit(1)), LookFor(1), Other(Cleanup(1)));
    var a := NextSystem(s, Other(Submit(1)));
    PendingSnoc([], Submit(1), 1);
    assert a.calls == [] + [Submit(1)];
    NoLostWakeUp(a, 1);
    var b := NextSystem(a, LookFor(1));
    PendingSnoc(b.calls, Cleanup(1), 1);
    var es := [Other(Submit(1)), LookFor(1), Other(Cleanup(1))];
    assert LegalEvents(s, es) && RunSystem(s, es).promoting == Some(1);
  }

  // ------------------------------------------------------------------------------- the class

  const CPU_LOAD_THRESHOLD := 75.0

  /** Each method body is what one critical section does; the lock makes it atomic. */
  class EdmmSchedulerHook {
    var activePauses: map<Id, PauseState>
    var toolResponses: map<Id, bool>

    ghost function State(): HookState
      reads this
    {
      HookState(activePauses, toolResponses.Keys)
    }

    constructor ()
      ensures State() == NO_CALLS
    {
      activePauses, toolResponses := map[], map[];
    }

    method OnToolCallPause(id: Id, cpuLoad: real) returns (decision: Decision)
      modifies this
      ensures decision == (if cpuLoad > CPU_LOAD_THRESHOLD then Defer else Speculate)
      ensures State() == Step(old(State()), Call.Pause(id, decision))
    {
      decision := if cpuLoad > CPU_LOAD_THRESHOLD then Defer else Speculate;
      activePauses := activePauses[id := PauseState([], decision)];
    }

    /** Speculation hands a physical handle to a paused request. */
    method AttachHandle(id: Id, h: Handle)
      requires id in activePauses
      modifies this
      ensures State() == Step(old(State()), Attach(id, h))
    {
      var state := activePauses[id];
      activePauses := activePauses[id := state.(handles := state.handles + [h])];
    }

    method SubmitToolResponse(id: Id)
      modifies this
      ensures State() == Step(old(State()), Submit(id))
    {
      toolResponses := toolResponses[id := true];
    }

    method IsToolResponseReady(id: Id) returns (ready: bool)
      ensures ready <==> id in State().responses
    {
      ready := id in toolResponses;
    }

    method OnToolCallResume(id: Id) returns (state: Option<PauseState>)
      modifies this
      ensures State() == Step(old(State()), Call.Resume(id))
      ensures state == if id in old(activePauses) then Some(old(activePauses)[id]) else None
    {
      state := if id in activePauses then Some(activePauses[id]) else None;
      toolResponses, activePauses := toolResponses - {id}, activePauses - {id};
    }

    method GetActivePause(id: Id) returns (state: Option<PauseState>)
      ensures state == if id in State().pauses then Some(State().pauses[id]) else None
    {
      state := if id in activePauses then Some(activePauses[id]) else None;
    }

    /**
     * `cleanup_request`: forget the request and release its speculative handles.
     * A handle that is listed twice or already released does not stop it.
     */
    method CleanupRequest(id: Id, alloc: Allocator)
      requires alloc.Valid()
      requires id in activePauses ==> forall h :: h in activePauses[id].handles ==> !Owns(alloc.Tensors(), h)
      modifies this, alloc.gpu`memory, alloc.gpu`released
      ensures State() == Step(old(State()), Cleanup(id))
      ensures alloc.Valid() && alloc.Contents() == old(alloc.Contents())
      ensures var handles := if id in old(activePauses) then (set h | h in old(activePauses)[id].handles) else {};
              && alloc.gpu.released == old(alloc.gpu.released) + handles * old(alloc.gpu.memory).Keys
              && alloc.gpu.memory == old(alloc.gpu.memory) - handles
    {
      hide Good, Tidy, Model, Owns, Address, NoDup;
      var state := if id in activePauses then Some(activePauses[id]) else None;
      toolResponses, activePauses := toolResponses - {id}, activePauses - {id};
      if state.Some? {
        ReleaseHandles(state.value.handles, alloc);
      }
    }

    method ReleaseHandles(handles: seq<Handle>, alloc: Allocator)
      requires alloc.Valid()
      requires forall h :: h in handles ==> !Owns(alloc.Tensors(), h)
      modifies alloc.gpu`memory, alloc.gpu`released
      ensures alloc.Valid() && alloc.Contents() == old(alloc.Contents())
      ensures alloc.gpu.released == old(alloc.gpu.released) + (set h | h in handles) * old(alloc.gpu.memory).Keys
      ensures alloc.gpu.memory == old(alloc.gpu.memory) - (set h | h in handles)
    {
      hide Good, Tidy, Model, Owns;
      var k := 0;
      while k < |handles|
        invariant 0 <= k <= |handles|
        invariant alloc.Valid() && alloc.Contents() == old(alloc.Contents()) && alloc.Tensors() == old(alloc.Tensors())
        invariant alloc.gpu.released == old(alloc.gpu.released) + (set h | h in handles[..k]) * old(alloc.gpu.memory).Keys
        invariant alloc.gpu.memory == old(alloc.gpu.memory) - (set h | h in handles[..k])
      {
        assert handles[..k + 1] == handles[..k] + [handles[k]];
        assert handles[k] in handles;
        var ok := alloc.ReleasePhysicalHandle(handles[k]);
        k := k + 1;
      }
      assert handles[..k] == handles;
    }
  }
}
