/**
 * The VMM-backed KV cache allocator (edmm_allocator.py): the driver's memory,
 * live allocations, and the operations that swap the backing of a page.
 */
module Vmm {
  import opened Seqs
  import opened Arithmetic
  import opened PageTable

  // ---------------------------------------------------------------- facts about tables

  /** Only pages of live tensors are mapped. */
  ghost predicate Tidy(live: Live, table: Mapping) {
    forall at :: at in table ==> PageOf(live, at)
  }

  ghost predicate PageOf(live: Live, at: nat) {
    exists va, k :: va in live && 0 <= k < |live[va].handles| && at == Address(va, live[va], k)
  }

  /** A handle that backs no page is not mapped. */
  lemma SpareNotMapped(live: Live, memory: Memory, table: Mapping, h: Handle, at: nat)
    requires Good(live, memory, table) && Tidy(live, table) && !Owns(live, h) && at in table
    ensures table[at] != h
  {
    assert PageOf(live, at);
    var va, k :| va in live && 0 <= k < |live[va].handles| && at == Address(va, live[va], k);
    assert Backed(va, live[va], memory, table);
    assert live[va].handles[k] in live[va].handles;
  }

  lemma MappedInTensor(live: Live, memory: Memory, table: Mapping, at: nat) returns (va: nat, k: nat)
    requires Good(live, memory, table) && Tidy(live, table) && at in table
    ensures va in live && k < |live[va].handles| && at == Address(va, live[va], k) && va <= at < va + live[va].Bytes()
  {
    assert PageOf(live, at);
    va, k :| va in live && 0 <= k < |live[va].handles| && at == Address(va, live[va], k);
    InTensor(live, memory, table, va, k);
  }

  lemma NothingMapped(live: Live, memory: Memory, table: Mapping, va: nat, bytes: nat)
    requires Good(live, memory, table) && Tidy(live, table) && FreeRange(live, va, bytes)
    ensures forall at :: va <= at < va + bytes ==> at !in table
  {
    hide Good, Tidy, Address;
    forall at | va <= at < va + bytes && at in table ensures false {
      var vb, k := MappedInTensor(live, memory, table, at);
    }
  }

  lemma InTensor(live: Live, memory: Memory, table: Mapping, va: nat, k: nat)
    requires Good(live, memory, table) && va in live && k < |live[va].handles|
    ensures va <= Address(va, live[va], k) < va + live[va].Bytes()
  {
    assert Backed(va, live[va], memory, table);
    AddressIn(va, live[va], k);
  }

  lemma SwapTidy(live: Live, table: Mapping, va: nat, k: nat, h: Handle)
    requires Tidy(live, table) && va in live && k < |live[va].handles|
    ensures Tidy(Swapped(live, va, k, h), table[Address(va, live[va], k) := h])
  {
    var t, m := Swapped(live, va, k, h), table[Address(va, live[va], k) := h];
    forall at | at in m ensures PageOf(t, at) {
      if at in table {
        assert PageOf(live, at);
        var vb, l :| vb in live && 0 <= l < |live[vb].handles| && at == Address(vb, live[vb], l);
        SameAddress(vb, live[vb], t[vb], l);
        assert vb in t && at == Address(vb, t[vb], l);
      } else {
        SameAddress(va, live[va], t[va], k);
        assert va in t && at == Address(va, t[va], k);
      }
    }
  }

  lemma FreeTidy(live: Live, memory: Memory, table: Mapping, va: nat, m: Mapping)
    requires Good(live, memory, table) && Tidy(live, table) && va in live && Unmapped(table, m, va, live[va].Bytes())
    ensures Tidy(live - {va}, m)
  {
    hide Good, Address;
    forall at | at in m ensures PageOf(live - {va}, at) {
      var vb, l := MappedInTensor(live, memory, table, at);
      assert vb in live - {va} && (live - {va})[vb] == live[vb];
    }
  }

  lemma AllocateTidy(live: Live, table: Mapping, va: nat, e: Entry, m: Mapping)
    requires Tidy(live, table) && va !in live
    requires forall at :: at in m ==> at in table || exists k :: 0 <= k < |e.handles| && at == Address(va, e, k)
    ensures Tidy(live[va := e], m)
  {
    var t := live[va := e];
    forall at | at in m ensures PageOf(t, at) {
      if at in table {
        assert PageOf(live, at);
        var vb, l :| vb in live && 0 <= l < |live[vb].handles| && at == Address(vb, live[vb], l);
        assert vb in t && at == Address(vb, t[vb], l);
      } else {
        var k :| 0 <= k < |e.handles| && at == Address(va, e, k);
        assert va in t && t[va] == e;
      }
    }
  }

  // --------------------------------------------------------------------------- the driver

  function Zeros(n: nat): (p: Page)
    ensures |p| == n && forall k :: 0 <= k < n ==> p[k] == 0
  {
    seq(n, k => 0)
  }

  /** Physical memory and its mapping, as the CUDA driver keeps them. */
  class Gpu {
    var memory: Memory
    var table: Mapping
    var created: set<Handle>
    var released: set<Handle>
    var next: Handle

    ghost predicate Valid()
      reads this
    {
      memory.Keys == created - released && released <= created && forall h :: h in created ==> h < next
    }

    constructor ()
      ensures Valid() && created == {} && released == {} && memory == map[] && table == map[]
    {
      memory, table, created, released, next := map[], map[], {}, {}, 0;
    }

    /** `cuMemCreate`; callers know nothing about what new memory holds. */
    method Create(size: nat) returns (h: Handle)
      requires Valid()
      modifies this
      ensures Valid() && h !in old(created) && h !in old(memory)
      ensures h in memory && |memory[h]| == size && memory == old(memory)[h := memory[h]]
      ensures created == old(created) + {h} && table == old(table) && released == old(released)
    {
      h := next;
      next := next + 1;
      memory, created := memory[h := Zeros(size)], created + {h};
    }

    /** `cuMemMap` of one page. */
    method Map(at: nat, h: Handle)
      requires Valid() && h in memory && at !in table
      modifies this`table
      ensures Valid() && table == old(table)[at := h]
    {
      table := table[at := h];
    }

    /** `cuMemUnmap` of a range. */
    method Unmap(va: nat, bytes: nat)
      requires Valid()
      modifies this`table
      ensures Valid() && Unmapped(old(table), table, va, bytes)
      ensures table.Keys <= old(table).Keys
    {
      table := map at | at in table && !(va <= at < va + bytes) :: table[at];
    }

    /** Unmap one page and map it again. */
    method Swap(at: nat, page: nat, h: Handle)
      requires Valid() && h in memory && page > 0 && at in table
      requires forall x :: x in table && at <= x < at + page ==> x == at
      modifies this`table
      ensures Valid() && table == old(table)[at := h]
    {
      Unmap(at, page);
      Map(at, h);
    }

    /** `cuMemRelease` of a handle that is not mapped any more; releasing twice is an error. */
    method Release(h: Handle)
      requires Valid() && h in memory && forall at :: at in table ==> table[at] != h
      modifies this`memory, this`released
      ensures Valid() && memory == old(memory) - {h} && released == old(released) + {h}
    {
      memory, released := memory - {h}, released + {h};
    }

    /** A kernel, or `cudaMemset`, writes physical memory. */
    method Write(h: Handle, contents: Page)
      requires Valid() && h in memory
      modifies this`memory
      ensures Valid() && memory == old(memory)[h := contents]
    {
      memory := memory[h := contents];
    }

    /** The loop of `allocate_vmm_kv_cache`: one handle for each page, created and mapped. */
    method BackRange(va: nat, page: nat, aligned: nat, ghost n: nat) returns (handles: seq<Handle>)
      requires Valid() && page > 0 && aligned == n * page
      requires forall at :: va <= at < va + aligned ==> at !in table
      modifies this
      ensures Valid() && |handles| == n && NoDup(handles) && released == old(released)
      ensures forall h :: h in handles ==> h !in old(created) && h in memory && |memory[h]| == page
      ensures forall h :: h in old(memory) ==> h in memory && memory[h] == old(memory)[h]
      ensures forall h :: h in created <==> h in old(created) || h in handles
      ensures OnlyPages(old(table), table, va, Entry(page, handles))
    {
      hide OnlyPages, Address, NoDup;
      handles := [];
      var offset := 0;
      NoPages(table, va, page);
      while offset < aligned
        invariant Valid() && released == old(released)
        invariant offset == |handles| * page && |handles| <= n && NoDup(handles)
        invariant forall h :: h in handles ==> h !in old(created) && h in memory && |memory[h]| == page
        invariant forall h :: h in old(memory) ==> h in memory && memory[h] == old(memory)[h]
        invariant forall h :: h in created <==> h in old(created) || h in handles
        invariant OnlyPages(old(table), table, va, Entry(page, handles))
      {
        ghost var e := Entry(page, handles);
        var chunk := Min(page, aligned - offset);
        WholeChunk(|handles|, n, page);
        StillFree(old(table), table, va, e, n);
        AddressIs(va, e, |handles|);
        var h := Create(chunk);
        FreshHandle(handles, h);
        ghost var before := table;
        Map(va + offset, h);
        OnePageMore(old(table), before, table, va, e, h);
        handles := handles + [h];
        offset := offset + chunk;
      }
      WholeChunk(|handles|, n, page);
    }

    /** `cudaMemset` of a mapped range to zero. */
    method ZeroPages(handles: seq<Handle>, page: nat)
      requires Valid() && forall h :: h in handles ==> h in memory
      modifies this`memory
      ensures Valid() && forall h :: h in handles ==> h in memory && memory[h] == Zeros(page)
      ensures forall h :: h in old(memory) && h !in handles ==> h in memory && memory[h] == old(memory)[h]
    {
      var k := 0;
      while k < |handles|
        invariant 0 <= k <= |handles| && Valid() && memory.Keys == old(memory).Keys
        invariant forall l :: 0 <= l < k ==> memory[handles[l]] == Zeros(page)
        invariant forall h :: h in old(memory) && h !in handles ==> memory[h] == old(memory)[h]
      {
        Write(handles[k], Zeros(page));
        k := k + 1;
      }
    }

    /** A range of zeroed pages. */
    method BackWithZeros(va: nat, page: nat, aligned: nat, ghost n: nat) returns (handles: seq<Handle>)
      requires Valid() && page > 0 && aligned == n * page
      requires forall at :: va <= at < va + aligned ==> at !in table
      modifies this
      ensures Valid() && |handles| == n && NoDup(handles) && released == old(released)
      ensures forall h :: h in handles ==> h !in old(created) && h !in old(memory) && h in memory && |memory[h]| == page
      ensures forall h :: h in old(memory) ==> h in memory && memory[h] == old(memory)[h]
      ensures forall h :: h in created <==> h in old(created) || h in handles
      ensures OnlyPages(old(table), table, va, Entry(page, handles))
      ensures Pages(Entry(page, handles), memory) == seq(n, k => Zeros(page))
    {
      hide OnlyPages, NoDup;
      handles := BackRange(va, page, aligned, n);
      ZeroPages(handles, page);
    }

    /** Release the handles of a freed tensor, each of them once. */
    method ReleaseAll(handles: seq<Handle>)
      requires Valid() && NoDup(handles) && forall h :: h in handles ==> h in memory
      requires forall at :: at in table ==> table[at] !in handles
      modifies this`memory, this`released
      ensures Valid() && released == old(released) + (set h | h in handles)
      ensures memory == old(memory) - (set h | h in handles)
    {
      var k := 0;
      while k < |handles|
        invariant 0 <= k <= |handles| && Valid()
        invariant released == old(released) + (set h | h in handles[..k])
        invariant memory == old(memory) - (set h | h in handles[..k])
      {
        assert handles[..k + 1] == handles[..k] + [handles[k]];
        assert handles[k] !in handles[..k];
        Release(handles[k]);
        k := k + 1;
      }
      assert handles[..k] == handles;
    }
  }

  /** `m` maps what `table` did, and the pages of `e` at `va`. */
  ghost predicate OnlyPages(table: Mapping, m: Mapping, va: nat, e: Entry) {
    && (forall k :: 0 <= k < |e.handles| ==> Address(va, e, k) in m && m[Address(va, e, k)] == e.handles[k])
    && (forall at :: at in table ==> at in m && m[at] == table[at])
    && (forall at :: at in m ==> at in table || exists k :: 0 <= k < |e.handles| && at == Address(va, e, k))
  }

  lemma NoPages(table: Mapping, va: nat, page: nat)
    ensures OnlyPages(table, table, va, Entry(page, [])) && NoDup<Handle>([])
  {
  }

  lemma AddressIs(va: nat, e: Entry, k: nat)
    ensures Address(va, e, k) == va + k * e.page && (k + 1) * e.page == k * e.page + e.page
  {
  }

  lemma FreshHandle(handles: seq<Handle>, h: Handle)
    requires NoDup(handles) && h !in handles
    ensures NoDup(handles + [h])
  {
  }

  lemma WholeChunk(k: nat, n: nat, page: nat)
    requires page > 0
    ensures k * page < n * page ==> k < n && n * page - k * page >= page
    ensures k < n ==> k * page < n * page
  {
    if k < n {
      Below(k, n, page);
    } else {
      AtMost(n, k, page);
    }
  }

  lemma StillFree(table: Mapping, m: Mapping, va: nat, e: Entry, n: nat)
    requires OnlyPages(table, m, va, e) && e.page > 0 && |e.handles| < n
    requires forall at :: va <= at < va + n * e.page ==> at !in table
    ensures Address(va, e, |e.handles|) !in m
  {
    Below(|e.handles|, n, e.page);
    var at := Address(va, e, |e.handles|);
    forall k | 0 <= k < |e.handles| ensures at != Address(va, e, k) {
      Below(k, |e.handles|, e.page);
    }
  }

  lemma OnePageMore(table: Mapping, before: Mapping, m: Mapping, va: nat, e: Entry, h: Handle)
    requires OnlyPages(table, before, va, e) && Address(va, e, |e.handles|) !in before
    requires m == before[Address(va, e, |e.handles|) := h]
    ensures OnlyPages(table, m, va, e.(handles := e.handles + [h]))
  {
    var f := e.(handles := e.handles + [h]);
    forall k ensures 0 <= k ==> Address(va, e, k) == Address(va, f, k) {
    }
    hide Address;
    assert f.handles[|e.handles|] == h;
    forall at | at in m && at !in table ensures exists k :: 0 <= k < |f.handles| && at == Address(va, f, k) {
      if at in before {
        var k :| 0 <= k < |e.handles| && at == Address(va, e, k);
        assert at == Address(va, f, k);
      } else {
        assert at == Address(va, f, |e.handles|);
      }
    }
  }

  class Allocation {
    const va: nat
    const totalBytes: nat
    const pageSize: nat
    var handles: seq<Handle>

    constructor (va: nat, totalBytes: nat, pageSize: nat, handles: seq<Handle>)
      ensures this.va == va && this.totalBytes == totalBytes && this.pageSize == pageSize && this.handles == handles
    {
      this.va, this.totalBytes, this.pageSize, this.handles := va, totalBytes, pageSize, handles;
    }
  }

  const MIN_PAGE: nat := 2 * 1024 * 1024

  datatype Error = NotBacked | OutOfRange
  datatype Result = Ok(handle: Handle) | Err(error: Error)

  /** Whole pages that hold `size` bytes. */
  function NumPages(size: nat, page: nat): nat
    requires page > 0
  {
    (size + page - 1) / page
  }

  lemma RoundUp(size: nat, page: nat)
    requires page > 0
    ensures size <= NumPages(size, page) * page < size + page
  {
    var x := size + page - 1;
    assert x == page * (x / page) + x % page;
  }

  /** `after` is `before` with page `k` of the tensor at `va` replaced by `p`. */
  ghost predicate PageReplaced(before: map<nat, seq<Page>>, after: map<nat, seq<Page>>, va: nat, k: int, p: Page) {
    va in before && 0 <= k < |before[va]| && after == before[va := before[va][k := p]]
  }

  /** `after` is `before` with the byte at offset `i` of the tensor at `va`, which has pages of `page` bytes, replaced by `b`. */
  ghost predicate ByteReplaced(
    before: map<nat, seq<Page>>, after: map<nat, seq<Page>>, va: nat, page: nat, i: nat, b: Byte)
  {
    && va in before && page > 0 && i / page < |before[va]| && i % page < |before[va][i / page]|
    && after == before[va := before[va][i / page := before[va][i / page][i % page := b]]]
  }

  /** What `remap_block` answers, and what becomes of the handles: an error leaves them alone. */
  ghost predicate RemapResult(live: Live, after: Live, va: nat, block: int, h: Handle, r: Result) {
    if va !in live then r == Err(NotBacked) && after == live
    else if !(0 <= block < |live[va].handles|) then r == Err(OutOfRange) && after == live
    else r == Ok(live[va].handles[block]) && after == Swapped(live, va, block, h)
  }

  class Allocator {
    const gpu: Gpu
    var allocations: map<nat, Allocation>

    ghost function Tensors(): Live
      reads this, allocations.Values
    {
      map va | va in allocations :: Entry(allocations[va].pageSize, allocations[va].handles)
    }

    ghost predicate Valid()
      reads this, gpu, allocations.Values
    {
      && gpu.Valid() && Good(Tensors(), gpu.memory, gpu.table) && Tidy(Tensors(), gpu.table)
      && forall va :: va in allocations ==>
           allocations[va].va == va && |allocations[va].handles| * allocations[va].pageSize == allocations[va].totalBytes
    }

    /** The plain model: every live tensor as an array of pages. */
    ghost function Contents(): map<nat, seq<Page>>
      reads this, gpu, allocations.Values
      requires Valid()
    {
      Model(Tensors(), gpu.memory, gpu.table)
    }

    constructor (gpu: Gpu)
      requires gpu.Valid() && gpu.table == map[]
      ensures Valid() && this.gpu == gpu && allocations == map[] && Contents() == map[]
    {
      this.gpu, allocations := gpu, map[];
    }

    /** `create_physical_handle`. */
    method CreatePhysicalHandle(size: nat) returns (h: Handle)
      requires Valid()
      modifies gpu
      ensures Valid() && Contents() == old(Contents()) && allocations == old(allocations)
      ensures h !in old(gpu.created) && !Owns(Tensors(), h)
      ensures h in gpu.memory && |gpu.memory[h]| == size && gpu.memory == old(gpu.memory)[h := gpu.memory[h]]
      ensures gpu.created == old(gpu.created) + {h} && gpu.released == old(gpu.released)
    {
      ghost var live, memory, table := Tensors(), gpu.memory, gpu.table;
      h := gpu.Create(size);
      MoreMemory(live, memory, table, gpu.memory);
      OwnedInMemory(live, memory, table, h);
    }

    /**
     * `release_physical_handle`, of a handle that backs no page; releasing an
     * unknown or already released one is an error without effect.
     */
    method ReleasePhysicalHandle(h: Handle) returns (ok: bool)
      requires Valid() && !Owns(Tensors(), h)
      modifies gpu`memory, gpu`released
      ensures Valid() && Contents() == old(Contents()) && ok == (h in old(gpu.memory))
      ensures gpu.memory == old(gpu.memory) - {h}
      ensures gpu.released == if ok then old(gpu.released) + {h} else old(gpu.released)
    {
      ok := h in gpu.memory;
      if !ok {
        assert gpu.memory - {h} == gpu.memory;
        return;
      }
      ghost var live, memory, table := Tensors(), gpu.memory, gpu.table;
      forall at | at in table ensures table[at] != h {
        SpareNotMapped(live, memory, table, h, at);
      }
      gpu.Release(h);
      LessMemory(live, memory, table, h);
    }

    /**
     * `allocate_vmm_kv_cache`: a zeroed tensor at a virtual address that the
     * driver reserves, in whole pages of at least two megabytes.
     */
    method AllocateVmmKvCache(sizeBytes: nat, granularity: nat, va: nat) returns (a: Allocation)
      requires Valid()
      requires var page := Max(granularity, MIN_PAGE); FreeRange(Tensors(), va, NumPages(sizeBytes, page) * page)
      modifies this, gpu
      ensures Valid() && fresh(a) && allocations == old(allocations)[va := a]
      ensures var page := Max(granularity, MIN_PAGE);
              && a.pageSize == page && a.totalBytes == |a.handles| * page && sizeBytes <= a.totalBytes < sizeBytes + page
              && Contents() == old(Contents())[va := seq(|a.handles|, k => Zeros(page))]
      ensures Tensors() == old(Tensors())[va := Entry(a.pageSize, a.handles)]
      ensures forall h :: h in a.handles ==> h !in old(gpu.created)
      ensures forall h :: h in gpu.created <==> h in old(gpu.created) || h in a.handles
      ensures gpu.released == old(gpu.released)
      ensures forall h :: h in old(gpu.memory) ==> h in gpu.memory && gpu.memory[h] == old(gpu.memory)[h]
    {
      hide Good, Tidy, Model, Address, OnlyPages, FreeRange, Owns, NoDup, Zeros, NumPages;
      var page := Max(granularity, MIN_PAGE);
      var n := NumPages(sizeBytes, page);
      RoundUp(sizeBytes, page);
      var aligned := n * page;
      ghost var live, memory, table, created := Tensors(), gpu.memory, gpu.table, gpu.created;
      NothingMapped(live, memory, table, va, aligned);
      var handles := gpu.BackWithZeros(va, page, aligned, n);
      ghost var e := Entry(page, handles);
      SpareHandles(live, memory, table, handles);
      AllocateStep(live, memory, table, va, e, gpu.table, gpu.memory);
      a := Track(va, aligned, page, handles);
    }

    /** `_allocations[va] = alloc`. */
    method Track(va: nat, totalBytes: nat, page: nat, handles: seq<Handle>) returns (a: Allocation)
      requires page > 0
      modifies this`allocations
      ensures fresh(a) && allocations == old(allocations)[va := a]
      ensures a.va == va && a.totalBytes == totalBytes && a.pageSize == page && a.handles == handles
      ensures Tensors() == old(Tensors())[va := Entry(page, handles)]
    {
      ghost var live := Tensors();
      a := new Allocation(va, totalBytes, page, handles);
      allocations := allocations[va := a];
      assert Tensors() == live[va := Entry(page, handles)];
    }

    /** `free_vmm_kv_cache`: unmap everything and release every handle, once; unknown tensors are ignored. */
    method FreeVmmKvCache(va: nat)
      requires Valid()
      modifies this, gpu`table, gpu`memory, gpu`released
      ensures Valid() && allocations == old(allocations) - {va}
      ensures Contents() == old(Contents()) - {va} && Tensors() == old(Tensors()) - {va}
      ensures va !in old(allocations) ==> gpu.released == old(gpu.released) && gpu.memory == old(gpu.memory)
      ensures va in old(allocations) ==>
        var handles := set h | h in old(allocations[va].handles);
        gpu.released == old(gpu.released) + handles && handles !! old(gpu.released) && gpu.memory == old(gpu.memory) - handles
    {
      hide Good, Tidy, Model, Address, Unmapped, Owns;
      ghost var live, memory, table := Tensors(), gpu.memory, gpu.table;
      if va !in allocations {
        assert allocations - {va} == allocations && live - {va} == live;
        assert Contents() - {va} == Contents() by { ModelKeys(live, memory, table); }
        return;
      }
      var a := allocations[va];
      allocations := allocations - {va};
      assert Tensors() == live - {va};
      gpu.Unmap(a.va, a.totalBytes);
      FreeStep(live, memory, table, va, gpu.table);
      gpu.ReleaseAll(a.handles);
      FreeGood(live, memory, table, va, gpu.table, gpu.memory);
      assert Tensors() == live - {va};
    }

    /** A kernel stores byte `b` at offset `i` of the tensor at `va`. */
    method Store(va: nat, i: nat, b: Byte)
      requires Valid() && va in allocations && i < allocations[va].totalBytes
      modifies gpu`memory
      ensures Valid()
      ensures ByteReplaced(old(Contents()), Contents(), va, allocations[va].pageSize, i, b)
    {
      hide Good, Tidy, Model;
      var a := allocations[va];
      WriteGood(Tensors(), gpu.memory, gpu.table, va, i, b);
      var h := a.handles[i / a.pageSize];
      gpu.Write(h, gpu.memory[h][i % a.pageSize := b]);
    }

    /** If there is such a page, `h` has its size and backs no page. */
    ghost predicate Fits(va: nat, block: int, h: Handle)
      reads this, gpu, allocations.Values
    {
      va in allocations && 0 <= block < |allocations[va].handles| ==>
        h in gpu.memory && |gpu.memory[h]| == allocations[va].pageSize && !Owns(Tensors(), h)
    }

    /** `remap_block`: swap the physical backing of one page under the same virtual address. */
    method RemapBlock(va: nat, block: int, h: Handle) returns (r: Result)
      requires Valid() && Fits(va, block, h)
      modifies gpu`table, if va in allocations then {allocations[va]} else {}
      ensures Valid() && allocations == old(allocations)
      ensures RemapResult(old(Tensors()), Tensors(), va, block, h, r)
      ensures r.Err? ==> Contents() == old(Contents())
      ensures r.Ok? ==> h in gpu.memory && PageReplaced(old(Contents()), Contents(), va, block, gpu.memory[h])
    {
      hide Good, Tidy, Model, Owns, Address;
      if va !in allocations {
        return Err(NotBacked);
      }
      var a := allocations[va];
      if block < 0 || block >= |a.handles| {
        return Err(OutOfRange);
      }
      ghost var live, memory, table := Tensors(), gpu.memory, gpu.table;
      RemapStep(live, memory, table, va, block, h);
      var at := Address(a.va, Entry(a.pageSize, a.handles), block);
      gpu.Swap(at, a.pageSize, h);
      var gone := a.handles[block];
      a.handles := a.handles[block := h];
      assert Tensors() == Swapped(live, va, block, h);
      return Ok(gone);
    }

    /** Remapping the returned handle, while it is still there, restores the previous contents. */
    method RemapAndBack(va: nat, block: nat, h: Handle) returns (r: Result)
      requires Valid() && va in allocations && block < |allocations[va].handles|
      requires h in gpu.memory && |gpu.memory[h]| == allocations[va].pageSize && !Owns(Tensors(), h)
      modifies gpu`table, allocations[va]
      ensures Valid() && r == Ok(h)
      ensures Contents() == old(Contents()) && Tensors() == old(Tensors())
    {
      hide Good, Tidy, Model, Owns, Address;
      ghost var live := Tensors();
      WasBacked(live, gpu.memory, gpu.table, va, block);
      ghost var pages := Contents()[va];
      RemapBack(live, gpu.table, va, block, h);
      var first := RemapBlock(va, block, h);
      SwapsOwner(live, gpu.memory, va, block, h);
      r := RemapBlock(va, block, first.handle);
      assert pages[block := gpu.memory[h]][block := pages[block]] == pages;
    }
  }

  lemma WasBacked(live: Live, memory: Memory, table: Mapping, va: nat, k: nat)
    requires Good(live, memory, table) && va in live && k < |live[va].handles|
    ensures Unique(live) && live[va].handles[k] in memory && |memory[live[va].handles[k]]| == live[va].page
    ensures Address(va, live[va], k) in table && table[Address(va, live[va], k)] == live[va].handles[k]
    ensures va in Model(live, memory, table) && k < |Model(live, memory, table)[va]|
    ensures Model(live, memory, table)[va][k] == memory[live[va].handles[k]]
  {
    assert Backed(va, live[va], memory, table);
  }

  lemma SwapsOwner(live: Live, memory: Memory, va: nat, k: nat, h: Handle)
    requires Unique(live) && va in live && k < |live[va].handles| && !Owns(live, h)
    ensures !Owns(Swapped(live, va, k, h), live[va].handles[k])
  {
    SwapOwns(live, va, k, h, live[va].handles[k]);
  }

  lemma ModelKeys(live: Live, memory: Memory, table: Mapping)
    requires Good(live, memory, table)
    ensures Model(live, memory, table).Keys == live.Keys
  {
  }

  lemma SpareHandles(live: Live, memory: Memory, table: Mapping, handles: seq<Handle>)
    requires Good(live, memory, table) && forall h :: h in handles ==> h !in memory
    ensures forall h :: h in handles ==> !Owns(live, h)
  {
    forall h | h in handles ensures !Owns(live, h) {
      OwnedInMemory(live, memory, table, h);
    }
  }

  /** Everything `allocate_vmm_kv_cache` needs to know about the table. */
  lemma AllocateStep(live: Live, memory: Memory, table: Mapping, va: nat, e: Entry, m: Mapping, more: Memory)
    requires Good(live, memory, table) && Tidy(live, table) && FreeRange(live, va, e.Bytes()) && OnlyPages(table, m, va, e)
    requires e.page > 0 && NoDup(e.handles)
    requires forall h :: h in memory ==> h in more && more[h] == memory[h]
    requires forall h :: h in e.handles ==> !Owns(live, h) && h in more && |more[h]| == e.page
    ensures va !in live && Good(live[va := e], more, m) && Tidy(live[va := e], m)
    ensures Model(live[va := e], more, m) == Model(live, memory, table)[va := Pages(e, more)]
  {
    hide Good, Tidy, Model, Address, Owns;
    AllocateGood(live, memory, table, va, e, m, more);
    AllocateTidy(live, table, va, e, m);
  }

  /** Everything `free_vmm_kv_cache` needs to know about the table. */
  lemma FreeStep(live: Live, memory: Memory, table: Mapping, va: nat, m: Mapping)
    requires Good(live, memory, table) && Tidy(live, table) && va in live && Unmapped(table, m, va, live[va].Bytes())
    ensures Tidy(live - {va}, m)
    ensures NoDup(live[va].handles) && forall h :: h in live[va].handles ==> h in memory
    ensures forall at :: at in m ==> m[at] !in live[va].handles
  {
    FreeTidy(live, memory, table, va, m);
    assert Unique(live) && Backed(va, live[va], memory, table);
    forall at | at in m ensures m[at] !in live[va].handles {
      NotOfFreed(live, memory, table, va, m, at);
    }
  }

  lemma NotOfFreed(live: Live, memory: Memory, table: Mapping, va: nat, m: Mapping, at: nat)
    requires Good(live, memory, table) && Tidy(live, table) && va in live && Unmapped(table, m, va, live[va].Bytes())
    requires at in m
    ensures m[at] !in live[va].handles
  {
    hide Address;
    var vb, l := MappedInTensor(live, memory, table, at);
    assert Backed(vb, live[vb], memory, table);
    assert vb != va;
  }

  /** Everything `remap_block` needs to know about the table. */
  lemma RemapStep(live: Live, memory: Memory, table: Mapping, va: nat, k: nat, h: Handle)
    requires Good(live, memory, table) && Tidy(live, table) && va in live && k < |live[va].handles|
    requires h in memory && |memory[h]| == live[va].page && !Owns(live, h)
    ensures live[va].page > 0 && Address(va, live[va], k) in table
    ensures forall x :: x in table && Address(va, live[va], k) <= x < Address(va, live[va], k) + live[va].page ==>
      x == Address(va, live[va], k)
    ensures var t, m := Swapped(live, va, k, h), table[Address(va, live[va], k) := h];
            && Good(t, memory, m) && Tidy(t, m)
            && va in Model(live, memory, table) && k < |Model(live, memory, table)[va]|
            && Model(t, memory, m) == Model(live, memory, table)[va := Model(live, memory, table)[va][k := memory[h]]]
  {
    RemapGood(live, memory, table, va, k, h);
    SwapTidy(live, table, va, k, h);
    OnePage(live, memory, table, va, k);
    assert Backed(va, live[va], memory, table);
  }

  lemma MoreMemory(live: Live, memory: Memory, table: Mapping, more: Memory)
    requires Good(live, memory, table) && forall h :: h in memory ==> h in more && more[h] == memory[h]
    ensures Good(live, more, table) && Model(live, more, table) == Model(live, memory, table)
  {
    forall va | va in live ensures Backed(va, live[va], more, table) && Pages(live[va], more) == Pages(live[va], memory) {
      assert Backed(va, live[va], memory, table);
    }
  }

  lemma OwnedInMemory(live: Live, memory: Memory, table: Mapping, h: Handle)
    requires Good(live, memory, table)
    ensures Owns(live, h) ==> h in memory
  {
    if Owns(live, h) {
      var va :| va in live && h in live[va].handles;
      assert Backed(va, live[va], memory, table);
    }
  }

  lemma LessMemory(live: Live, memory: Memory, table: Mapping, h: Handle)
    requires Good(live, memory, table) && !Owns(live, h)
    ensures Good(live, memory - {h}, table) && Model(live, memory - {h}, table) == Model(live, memory, table)
  {
    forall va | va in live
      ensures Backed(va, live[va], memory - {h}, table) && Pages(live[va], memory - {h}) == Pages(live[va], memory)
    {
      assert Backed(va, live[va], memory, table);
      assert forall k :: 0 <= k < |live[va].handles| ==> live[va].handles[k] in live[va].handles;
    }
  }

  /** Within a page's range of addresses only its own base is mapped. */
  lemma OnePage(live: Live, memory: Memory, table: Mapping, va: nat, k: nat)
    requires Good(live, memory, table) && Tidy(live, table) && va in live && k < |live[va].handles|
    ensures var at := Address(va, live[va], k);
      forall x :: x in table && at <= x < at + live[va].page ==> x == at
  {
    var at := Address(va, live[va], k);
    forall x | x in table && at <= x < at + live[va].page ensures x == at {
      assert PageOf(live, x);
      var vb, l :| vb in live && 0 <= l < |live[vb].handles| && x == Address(vb, live[vb], l);
      PagesApart(live, memory, table, va, k, vb, l);
    }
  }

  lemma PagesApart(live: Live, memory: Memory, table: Mapping, va: nat, k: nat, vb: nat, l: nat)
    requires Good(live, memory, table) && va in live && k < |live[va].handles| && vb in live && l < |live[vb].handles|
    requires Address(va, live[va], k) <= Address(vb, live[vb], l) < Address(va, live[va], k) + live[va].page
    ensures Address(vb, live[vb], l) == Address(va, live[va], k)
  {
    var e, f := live[va], live[vb];
    InTensor(live, memory, table, va, k);
    InTensor(live, memory, table, vb, l);
    Below(k, |e.handles|, e.page);
    if va == vb {
      if k < l {
        Below(k, l, e.page);
      } else if l < k {
        Below(l, k, e.page);
      }
    }
  }
}
