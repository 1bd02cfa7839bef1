/**
 * Every physical handle that was ever created is in exactly one place: a live
 * tensor, a paused request, the caller, or released.
 */
module HandleOwnership {
  import opened Seqs
  import opened Requests
  import opened PageTable
  import opened Vmm
  import opened ToolCallHook

  type Pauses = map<Id, PauseState>

  ghost predicate Speculates(pauses: Pauses, h: Handle) {
    exists id :: id in pauses && h in pauses[id].handles
  }

  /** No handle is held for two paused requests, or twice for one. */
  ghost predicate OneEach(pauses: Pauses) {
    && (forall id :: id in pauses ==> NoDup(pauses[id].handles))
    && (forall a, b, h :: a in pauses && b in pauses && h in pauses[a].handles && h in pauses[b].handles ==> a == b)
  }

  function One(b: bool): nat { if b then 1 else 0 }

  /** In how many of the four places the handle is. */
  ghost function Places(live: Live, pauses: Pauses, held: set<Handle>, released: set<Handle>, h: Handle): nat {
    One(Owns(live, h)) + One(Speculates(pauses, h)) + One(h in held) + One(h in released)
  }

  ghost predicate Conserved(created: set<Handle>, live: Live, pauses: Pauses, held: set<Handle>, released: set<Handle>) {
    forall h :: Places(live, pauses, held, released, h) == One(h in created)
  }

  lemma HeldFacts(created: set<Handle>, live: Live, pauses: Pauses, held: set<Handle>, released: set<Handle>, h: Handle)
    requires Conserved(created, live, pauses, held, released)
    ensures h in held ==> h in created && h !in released && !Owns(live, h)
    ensures h !in created ==> h !in held
  {
    assert Places(live, pauses, held, released, h) == One(h in created);
  }

  // ---------------------------------------------------------------------- one operation each

  lemma CreateConserves(created: set<Handle>, live: Live, pauses: Pauses, held: set<Handle>, released: set<Handle>, h: Handle)
    requires Conserved(created, live, pauses, held, released) && h !in created
    ensures Conserved(created + {h}, live, pauses, held + {h}, released)
  {
    forall x ensures Places(live, pauses, held + {h}, released, x) == One(x in created + {h}) {
      assert Places(live, pauses, held, released, x) == One(x in created);
    }
  }

  lemma ReleaseConserves(created: set<Handle>, live: Live, pauses: Pauses, held: set<Handle>, released: set<Handle>, h: Handle)
    requires Conserved(created, live, pauses, held, released) && h in held
    ensures Conserved(created, live, pauses, held - {h}, released + {h})
  {
    forall x ensures Places(live, pauses, held - {h}, released + {h}, x) == One(x in created) {
      assert Places(live, pauses, held, released, x) == One(x in created);
    }
  }

  lemma AllocateConserves(
      created: set<Handle>, live: Live, pauses: Pauses, held: set<Handle>, released: set<Handle>,
      va: nat, e: Entry, more: set<Handle>)
    requires Conserved(created, live, pauses, held, released) && va !in live
    requires forall h :: h in e.handles ==> h !in created
    requires forall h :: h in more <==> h in created || h in e.handles
    ensures Conserved(more, live[va := e], pauses, held, released)
  {
    forall x ensures Places(live[va := e], pauses, held, released, x) == One(x in more) {
      assert Places(live, pauses, held, released, x) == One(x in created);
      AllocateOwns(live, va, e, x);
    }
  }

  lemma RemapConserves(
      created: set<Handle>, live: Live, pauses: Pauses, held: set<Handle>, released: set<Handle>, va: nat, k: nat, h: Handle)
    requires Conserved(created, live, pauses, held, released) && Unique(live)
    requires va in live && k < |live[va].handles| && h in held
    ensures !Owns(live, h)
    ensures Conserved(created, Swapped(live, va, k, h), pauses, held - {h} + {live[va].handles[k]}, released)
  {
    var gone := live[va].handles[k];
    assert Places(live, pauses, held, released, h) == One(h in created);
    assert gone in live[va].handles;
    forall x ensures Places(Swapped(live, va, k, h), pauses, held - {h} + {gone}, released, x) == One(x in created) {
      assert Places(live, pauses, held, released, x) == One(x in created);
      SwapOwns(live, va, k, h, x);
    }
  }

  lemma FreeConserves(
      created: set<Handle>, live: Live, pauses: Pauses, held: set<Handle>, released: set<Handle>, va: nat)
    requires Conserved(created, live, pauses, held, released) && Unique(live) && va in live
    ensures Conserved(created, live - {va}, pauses, held, released + (set h | h in live[va].handles))
  {
    var gone := set h | h in live[va].handles;
    forall x ensures Places(live - {va}, pauses, held, released + gone, x) == One(x in created) {
      assert Places(live, pauses, held, released, x) == One(x in created);
      FreeOwns(live, va, x);
      assert x in live[va].handles ==> Owns(live, x);
    }
  }

  /**
   * Pausing conserves handles exactly when nothing is forgotten by it: the
   * entry it overwrites, if any, holds no speculative handle.
   */
  lemma PauseConservesIff(
      created: set<Handle>, live: Live, pauses: Pauses, held: set<Handle>, released: set<Handle>, id: Id, d: Decision)
    requires Conserved(created, live, pauses, held, released) && OneEach(pauses)
    ensures OneEach(pauses[id := PauseState([], d)])
    ensures Conserved(created, live, pauses[id := PauseState([], d)], held, released)
       <==> (id in pauses ==> pauses[id].handles == [])
  {
    var after := pauses[id := PauseState([], d)];
    forall x ensures Speculates(after, x) <==> exists y :: y in pauses && y != id && x in pauses[y].handles {
      if y :| y in pauses && y != id && x in pauses[y].handles {
        assert y in after && x in after[y].handles;
      }
    }
    if id in pauses && pauses[id].handles != [] {
      var h := pauses[id].handles[0];
      assert h in pauses[id].handles;
      assert Speculates(pauses, h) && !Speculates(after, h);
      assert Places(live, pauses, held, released, h) == One(h in created);
      assert Places(live, after, held, released, h) != One(h in created);
    } else {
      forall x ensures Places(live, after, held, released, x) == One(x in created) {
        assert Places(live, pauses, held, released, x) == One(x in created);
        assert Speculates(pauses, x) <==> Speculates(after, x);
      }
    }
  }

  lemma AttachConserves(
      created: set<Handle>, live: Live, pauses: Pauses, held: set<Handle>, released: set<Handle>, id: Id, h: Handle)
    requires Conserved(created, live, pauses, held, released) && OneEach(pauses) && id in pauses && h in held
    ensures var after := pauses[id := pauses[id].(handles := pauses[id].handles + [h])];
      OneEach(after) && Conserved(created, live, after, held - {h}, released)
  {
    var after := pauses[id := pauses[id].(handles := pauses[id].handles + [h])];
    assert Places(live, pauses, held, released, h) == One(h in created);
    assert !Speculates(pauses, h);
    assert forall a, x :: a in pauses && x in after[a].handles ==> x in pauses[a].handles || (a == id && x == h);
    forall x ensures Speculates(after, x) <==> Speculates(pauses, x) || x == h {
      if y :| y in pauses && x in pauses[y].handles {
        assert y in after && x in after[y].handles;
      }
      assert h in after[id].handles;
    }
    forall x ensures Places(live, after, held - {h}, released, x) == One(x in created) {
      assert Places(live, pauses, held, released, x) == One(x in created);
    }
  }

  /** A request that leaves the table of pauses: its handles go elsewhere. */
  lemma LeaveSpeculates(pauses: Pauses, id: Id, x: Handle)
    requires OneEach(pauses) && id in pauses
    ensures OneEach(pauses - {id})
    ensures Speculates(pauses, x) <==> Speculates(pauses - {id}, x) || x in pauses[id].handles
    ensures !(Speculates(pauses - {id}, x) && x in pauses[id].handles)
  {
    if y :| y in pauses && x in pauses[y].handles {
      assert y != id ==> y in pauses - {id};
    }
  }

  /** `on_tool_call_resume` hands the handles to its caller, `cleanup_request` releases them. */
  lemma LeaveConserves(
      created: set<Handle>, live: Live, pauses: Pauses, held: set<Handle>, released: set<Handle>, id: Id)
    requires Conserved(created, live, pauses, held, released) && OneEach(pauses) && id in pauses
    ensures var handles := set h | h in pauses[id].handles;
            && OneEach(pauses - {id})
            && Conserved(created, live, pauses - {id}, held + handles, released)
            && Conserved(created, live, pauses - {id}, held, released + handles)
            && NoDup(pauses[id].handles)
            && forall h :: h in handles ==> h in created && h !in released && !Owns(live, h)
  {
    var handles := set h | h in pauses[id].handles;
    forall x
      ensures Places(live, pauses - {id}, held + handles, released, x) == One(x in created)
      ensures Places(live, pauses - {id}, held, released + handles, x) == One(x in created)
      ensures x in handles ==> x in created && x !in released && !Owns(live, x)
      ensures OneEach(pauses - {id})
    {
      assert Places(live, pauses, held, released, x) == One(x in created);
      LeaveSpeculates(pauses, id, x);
    }
  }

  lemma GoodUnique(live: Live, memory: Memory, table: Mapping)
    requires Good(live, memory, table)
    ensures Unique(live)
  {
  }

  // ------------------------------------------------------------------------ the whole system

  /** The allocator, the hook, and a caller who keeps track of the handles it holds. */
  class Edmm {
    const alloc: Allocator
    const hook: EdmmSchedulerHook
    ghost var held: set<Handle>

    ghost predicate Valid()
      reads this, alloc, alloc.gpu, alloc.allocations.Values, hook
    {
      && alloc.Valid() && OneEach(hook.activePauses)
      && Conserved(alloc.gpu.created, alloc.Tensors(), hook.activePauses, held, alloc.gpu.released)
    }

    constructor (alloc: Allocator, hook: EdmmSchedulerHook)
      requires alloc.Valid() && alloc.allocations == map[] && alloc.gpu.created == {} && alloc.gpu.released == {}
      requires hook.activePauses == map[]
      ensures Valid() && this.alloc == alloc && this.hook == hook && held == {}
    {
      this.alloc, this.hook, held := alloc, hook, {};
    }

    /** The pages of the new tensor are backed by handles that did not exist before. */
    method Allocate(sizeBytes: nat, granularity: nat, va: nat) returns (a: Allocation)
      requires Valid()
      requires var page := Max(granularity, MIN_PAGE); FreeRange(alloc.Tensors(), va, NumPages(sizeBytes, page) * page)
      modifies alloc, alloc.gpu
      ensures Valid() && held == old(held) && hook.activePauses == old(hook.activePauses)
      ensures sizeBytes <= |a.handles| * a.pageSize
      ensures alloc.Tensors() == old(alloc.Tensors())[va := Entry(a.pageSize, a.handles)]
      ensures forall h :: h in alloc.gpu.created <==> h in old(alloc.gpu.created) || h in a.handles
      ensures forall h :: h in a.handles ==> h !in old(alloc.gpu.created)
    {
      hide Good, Tidy, Model, Owns, Address, Conserved, OneEach, Speculates, Places, NoDup;
      ghost var created, live, pauses, released := alloc.gpu.created, alloc.Tensors(), hook.activePauses, alloc.gpu.released;
      a := alloc.AllocateVmmKvCache(sizeBytes, granularity, va);
      AllocateConserves(created, live, pauses, held, released, va, Entry(a.pageSize, a.handles), alloc.gpu.created);
    }

    method CreateHandle(size: nat) returns (h: Handle)
      requires Valid()
      modifies this, alloc.gpu
      ensures Valid() && held == old(held) + {h} && h !in old(held)
      ensures alloc.gpu.created == old(alloc.gpu.created) + {h} && h !in old(alloc.gpu.created)
      ensures alloc.Tensors() == old(alloc.Tensors()) && hook.activePauses == old(hook.activePauses)
    {
      hide Good, Tidy, Model, Owns, Address, Conserved, OneEach, Speculates, Places, NoDup;
      ghost var created, live, pauses, released := alloc.gpu.created, alloc.Tensors(), hook.activePauses, alloc.gpu.released;
      h := alloc.CreatePhysicalHandle(size);
      CreateConserves(created, live, pauses, held, released, h);
      HeldFacts(created, live, pauses, held, released, h);
      held := held + {h};
    }

    /** Nothing is released twice: what the caller holds has not been released. */
    method ReleaseHandle(h: Handle)
      requires Valid() && h in held
      modifies this, alloc.gpu`memory, alloc.gpu`released
      ensures Valid() && held == old(held) - {h} && h !in old(alloc.gpu.released)
      ensures alloc.gpu.released == old(alloc.gpu.released) + {h}
      ensures alloc.Tensors() == old(alloc.Tensors()) && hook.activePauses == old(hook.activePauses)
    {
      hide Good, Tidy, Model, Owns, Address, Conserved, OneEach, Speculates, Places, NoDup;
      ghost var created, live, pauses, released := alloc.gpu.created, alloc.Tensors(), hook.activePauses, alloc.gpu.released;
      HeldFacts(created, live, pauses, held, released, h);
      ReleaseConserves(created, live, pauses, held, released, h);
      var ok := alloc.ReleasePhysicalHandle(h);
      assert ok;
      held := held - {h};
    }

    /** The caller trades a handle of the page's size for the one that backed the page. */
    method Remap(va: nat, block: int, h: Handle) returns (r: Result)
      requires Valid() && h in held
      requires va in alloc.allocations ==> h in alloc.gpu.memory && |alloc.gpu.memory[h]| == alloc.allocations[va].pageSize
      modifies this, alloc.gpu`table, if va in alloc.allocations then {alloc.allocations[va]} else {}
      ensures Valid() && hook.activePauses == old(hook.activePauses)
      ensures r.Ok? <==> va in alloc.allocations && 0 <= block < |old(alloc.Tensors())[va].handles|
      ensures held == if r.Ok? then old(held) - {h} + {r.handle} else old(held)
      ensures r.Ok? ==>
        && r.handle == old(alloc.Tensors())[va].handles[block]
        && alloc.Tensors() == Swapped(old(alloc.Tensors()), va, block, h)
      ensures r.Err? ==> alloc.Tensors() == old(alloc.Tensors())
    {
      hide Good, Tidy, Model, Owns, Address, Conserved, OneEach, Speculates, Places, NoDup;
      ghost var created, live, pauses, released := alloc.gpu.created, alloc.Tensors(), hook.activePauses, alloc.gpu.released;
      HeldFacts(created, live, pauses, held, released, h);
      ghost var memory, table := alloc.gpu.memory, alloc.gpu.table;
      r := alloc.RemapBlock(va, block, h);
      if r.Ok? {
        GoodUnique(live, memory, table);
        RemapConserves(created, live, pauses, held, released, va, block, h);
        held := held - {h} + {r.handle};
      }
    }

    /** The handles of the tensor were not released before, and are now; an unknown tensor is ignored. */
    method Free(va: nat)
      requires Valid()
      modifies alloc, alloc.gpu`table, alloc.gpu`memory, alloc.gpu`released
      ensures Valid() && held == old(held) && hook.activePauses == old(hook.activePauses)
      ensures alloc.Tensors() == old(alloc.Tensors()) - {va}
      ensures var gone := if va in old(alloc.Tensors()) then (set h | h in old(alloc.Tensors())[va].handles) else {};
        gone !! old(alloc.gpu.released) && alloc.gpu.released == old(alloc.gpu.released) + gone
    {
      hide Good, Tidy, Model, Owns, Address, Conserved, OneEach, Speculates, Places, NoDup;
      ghost var created, live, pauses, released := alloc.gpu.created, alloc.Tensors(), hook.activePauses, alloc.gpu.released;
      if va in alloc.allocations {
        GoodUnique(live, alloc.gpu.memory, alloc.gpu.table);
        FreeConserves(created, live, pauses, held, released, va);
      } else {
        assert live - {va} == live;
      }
      alloc.FreeVmmKvCache(va);
    }

    /** A request that is not paused yet pauses. */
    method Pause(id: Id, cpuLoad: real)
      requires Valid() && id !in hook.activePauses
      modifies hook
      ensures Valid() && held == old(held)
      ensures hook.activePauses ==
        old(hook.activePauses)[id := PauseState([], if cpuLoad > CPU_LOAD_THRESHOLD then Defer else Speculate)]
    {
      hide Good, Tidy, Model, Owns, Address, Conserved, OneEach, Speculates, Places, NoDup;
      ghost var created, live, pauses, released := alloc.gpu.created, alloc.Tensors(), hook.activePauses, alloc.gpu.released;
      var d := hook.OnToolCallPause(id, cpuLoad);
      assert hook.activePauses == hook.State().pauses;
      PauseConservesIff(created, live, pauses, held, released, id, d);
    }

    method Attach(id: Id, h: Handle)
      requires Valid() && id in hook.activePauses && h in held
      modifies this, hook
      ensures Valid() && held == old(held) - {h}
      ensures hook.activePauses ==
        old(hook.activePauses)[id := old(hook.activePauses)[id].(handles := old(hook.activePauses)[id].handles + [h])]
    {
      hide Good, Tidy, Model, Owns, Address, Conserved, OneEach, Speculates, Places, NoDup;
      ghost var created, live, pauses, released := alloc.gpu.created, alloc.Tensors(), hook.activePauses, alloc.gpu.released;
      AttachConserves(created, live, pauses, held, released, id, h);
      hook.AttachHandle(id, h);
      assert hook.activePauses == hook.State().pauses;
      held := held - {h};
    }

    method Resume(id: Id) returns (state: Option<PauseState>)
      requires Valid()
      modifies this, hook
      ensures Valid() && hook.activePauses == old(hook.activePauses) - {id}
      ensures state == if id in old(hook.activePauses) then Some(old(hook.activePauses)[id]) else None
      ensures held == if state.Some? then old(held) + (set h | h in state.value.handles) else old(held)
    {
      hide Good, Tidy, Model, Owns, Address, Conserved, OneEach, Speculates, Places, NoDup;
      ghost var created, live, pauses, released := alloc.gpu.created, alloc.Tensors(), hook.activePauses, alloc.gpu.released;
      if id in hook.activePauses {
        LeaveConserves(created, live, pauses, held, released, id);
      } else {
        assert pauses - {id} == pauses;
      }
      state := hook.OnToolCallResume(id);
      assert hook.activePauses == hook.State().pauses;
      if state.Some? {
        held := held + (set h | h in state.value.handles);
      }
    }

    /** Cleaning up a request releases every handle it owned. */
    method Cleanup(id: Id)
      requires Valid()
      modifies hook, alloc.gpu`memory, alloc.gpu`released
      ensures Valid() && held == old(held) && hook.activePauses == old(hook.activePauses) - {id}
      ensures var gone := if id in old(hook.activePauses) then (set h | h in old(hook.activePauses)[id].handles) else {};
        gone !! old(alloc.gpu.released) && alloc.gpu.released == old(alloc.gpu.released) + gone
    {
      hide Good, Tidy, Model, Owns, Address, Conserved, OneEach, Speculates, Places, NoDup;
      ghost var created, live, pauses, released := alloc.gpu.created, alloc.Tensors(), hook.activePauses, alloc.gpu.released;
      if id in hook.activePauses {
        LeaveConserves(created, live, pauses, held, released, id);
        ghost var handles := set h | h in pauses[id].handles;
        assert handles * alloc.gpu.memory.Keys == handles;
      } else {
        assert pauses - {id} == pauses && released + {} == released;
      }
      ghost var gone := if id in pauses then (set h | h in pauses[id].handles) else {};
      ghost var spare := alloc.gpu.memory.Keys;
      hook.CleanupRequest(id, alloc);
      assert hook.activePauses == hook.State().pauses;
      assert alloc.gpu.released == released + gone * spare && gone * spare == gone;
    }

    /** `cleanup_all`: every pause goes, and all speculative handles are released. */
    method CleanupAll()
      requires Valid()
      modifies hook, alloc.gpu`memory, alloc.gpu`released
      ensures Valid() && held == old(held) && hook.activePauses == map[]
      ensures forall h :: Speculates(old(hook.activePauses), h) ==> h in alloc.gpu.released
    {
      hide Good, Tidy, Model, Owns, Address, Conserved, OneEach;
      var ids := hook.activePauses.Keys;
      ghost var pauses := hook.activePauses;
      while ids != {}
        invariant Valid() && held == old(held) && hook.activePauses.Keys == ids <= pauses.Keys
        invariant forall id :: id in ids ==> hook.activePauses[id] == pauses[id]
        invariant forall id, h :: id in pauses && id !in ids && h in pauses[id].handles ==> h in alloc.gpu.released
        decreases |ids|
      {
        var id :| id in ids;
        Cleanup(id);
        ids := ids - {id};
      }
    }
  }
}
