/**
 * Page tables of VMM-backed tensors, on values: which physical handle backs
 * each page, and the plain per-page byte arrays this amounts to.
 */
module PageTable {
  import opened Seqs
  import opened Arithmetic

  type Handle = nat
  type Byte = bv8
  type Page = seq<Byte>

  /** `VMMAllocation`: one handle for each page of a tensor. */
  datatype Entry = Entry(page: nat, handles: seq<Handle>) {
    function Bytes(): nat { |handles| * page }
  }

  /** Live allocations, by virtual address. */
  type Live = map<nat, Entry>

  /** Physical memory by handle, and the virtual address of every mapped page. */
  type Memory = map<Handle, Page>
  type Mapping = map<nat, Handle>

  /** Virtual address of page `k`. */
  function Address(va: nat, e: Entry, k: nat): nat { va + k * e.page }

  /** Each page of the tensor is mapped to its handle, which backs a whole page. */
  ghost predicate Backed(va: nat, e: Entry, memory: Memory, table: Mapping) {
    && e.page > 0
    && forall k :: 0 <= k < |e.handles| ==>
         && Address(va, e, k) in table && table[Address(va, e, k)] == e.handles[k]
         && e.handles[k] in memory && |memory[e.handles[k]]| == e.page
  }

  /** No handle backs two pages. */
  ghost predicate Unique(live: Live) {
    forall va, vb, k, l ::
      (&& va in live && vb in live && 0 <= k < |live[va].handles| && 0 <= l < |live[vb].handles|
       && live[va].handles[k] == live[vb].handles[l]) ==> va == vb && k == l
  }

  /** Tensors do not overlap in virtual memory. */
  ghost predicate Apart(live: Live) {
    forall va, vb :: va in live && vb in live && va < vb ==> va + live[va].Bytes() <= vb
  }

  ghost predicate Good(live: Live, memory: Memory, table: Mapping) {
    && (forall va :: va in live ==> Backed(va, live[va], memory, table))
    && Unique(live) && Apart(live)
  }

  ghost predicate Owns(live: Live, h: Handle) {
    exists va :: va in live && h in live[va].handles
  }

  /** The bytes of a tensor, page by page. */
  function Pages(e: Entry, memory: Memory): (p: seq<Page>)
    requires forall k :: 0 <= k < |e.handles| ==> e.handles[k] in memory
    ensures |p| == |e.handles| && forall k :: 0 <= k < |p| ==> p[k] == memory[e.handles[k]]
  {
    seq(|e.handles|, k requires 0 <= k < |e.handles| => memory[e.handles[k]])
  }

  /** The plain model: every live tensor as an array of pages. */
  ghost function Model(live: Live, memory: Memory, table: Mapping): map<nat, seq<Page>>
    requires Good(live, memory, table)
  {
    map va | va in live :: assert Backed(va, live[va], memory, table); Pages(live[va], memory)
  }

  /** What a load from byte `i` of the tensor at `va` yields: through the mapping of its page. */
  function Load(va: nat, page: nat, i: nat, memory: Memory, table: Mapping): Option<Byte>
    requires page > 0
  {
    var base := va + i / page * page;
    if base in table && table[base] in memory && i % page < |memory[table[base]]|
    then Some(memory[table[base]][i % page]) else None
  }

  lemma Divide(i: nat, m: nat, n: nat)
    requires m > 0 && i < n * m
    ensures 0 <= i / m < n && 0 <= i % m < m
  {
    assert i == m * (i / m) + i % m;
    if i / m >= n {
      AtMost(n, i / m, m);
    }
  }

  /** A load through the page table sees exactly the byte of the plain model. */
  lemma LoadIsModel(live: Live, memory: Memory, table: Mapping, va: nat, i: nat)
    requires Good(live, memory, table) && va in live && i < live[va].Bytes()
    ensures live[va].page > 0
    ensures var e := live[va];
            var pages := Model(live, memory, table)[va];
            && i / e.page < |pages| && i % e.page < |pages[i / e.page]|
            && Load(va, e.page, i, memory, table) == Some(pages[i / e.page][i % e.page])
  {
    var e := live[va];
    assert Backed(va, e, memory, table);
    Divide(i, e.page, |e.handles|);
    assert Address(va, e, i / e.page) == va + i / e.page * e.page;
  }

  lemma AddressIn(va: nat, e: Entry, k: nat)
    requires k < |e.handles| && e.page > 0
    ensures va <= Address(va, e, k) < va + e.Bytes()
  {
    Below(k, |e.handles|, e.page);
  }

  lemma SameTensor(va: nat, e: Entry, k: nat, l: nat)
    requires e.page > 0
    ensures Address(va, e, k) == Address(va, e, l) ==> k == l
  {
    if k < l {
      Below(k, l, e.page);
    } else if l < k {
      Below(l, k, e.page);
    }
  }

  /** Pages of live tensors have different addresses. */
  lemma AddressesDiffer(live: Live, va: nat, k: nat, vb: nat, l: nat)
    requires Apart(live) && va in live && vb in live && live[va].page > 0 && live[vb].page > 0
    requires k < |live[va].handles| && l < |live[vb].handles|
    ensures Address(va, live[va], k) == Address(vb, live[vb], l) ==> va == vb && k == l
  {
    AddressIn(va, live[va], k);
    AddressIn(vb, live[vb], l);
    SameTensor(va, live[va], k, l);
    hide Address;
  }

  // ---------------------------------------------------------------------------- remap

  function Swapped(live: Live, va: nat, k: nat, h: Handle): Live
    requires va in live && k < |live[va].handles|
  {
    live[va := live[va].(handles := live[va].handles[k := h])]
  }

  lemma SwapUnique(live: Live, va: nat, k: nat, h: Handle)
    requires Unique(live) && va in live && k < |live[va].handles| && !Owns(live, h)
    ensures Unique(Swapped(live, va, k, h))
  {
    var t := Swapped(live, va, k, h);
    forall x, y, i, j | x in t && y in t && 0 <= i < |t[x].handles| && 0 <= j < |t[y].handles|
      && t[x].handles[i] == t[y].handles[j] ensures x == y && i == j
    {
      assert live[x].handles[i] in live[x].handles && live[y].handles[j] in live[y].handles;
    }
  }

  lemma SwapOwns(live: Live, va: nat, k: nat, h: Handle, x: Handle)
    requires Unique(live) && va in live && k < |live[va].handles| && !Owns(live, h)
    ensures Owns(Swapped(live, va, k, h), x) <==> (x == h || Owns(live, x)) && x != live[va].handles[k]
  {
    var t, gone := Swapped(live, va, k, h), live[va].handles[k];
    assert t[va].handles[k] == h && h in t[va].handles;
    assert gone in live[va].handles;
    if Owns(live, x) && x != gone {
      var vb :| vb in live && x in live[vb].handles;
      var l :| 0 <= l < |live[vb].handles| && live[vb].handles[l] == x;
      assert t[vb].handles[l] == x;
    }
    if Owns(t, x) {
      var vb :| vb in t && x in t[vb].handles;
      var l :| 0 <= l < |t[vb].handles| && t[vb].handles[l] == x;
      assert x == h || live[vb].handles[l] == x;
    }
  }

  lemma SwapBacked(live: Live, memory: Memory, table: Mapping, va: nat, k: nat, h: Handle, x: nat)
    requires Good(live, memory, table) && va in live && k < |live[va].handles| && x in live
    requires h in memory && |memory[h]| == live[va].page
    ensures Backed(x, Swapped(live, va, k, h)[x], memory, table[Address(va, live[va], k) := h])
  {
    var t, m := Swapped(live, va, k, h), table[Address(va, live[va], k) := h];
    assert Backed(x, live[x], memory, table) && Backed(va, live[va], memory, table);
    forall l | 0 <= l < |t[x].handles|
      ensures var at := Address(x, t[x], l);
        at in m && m[at] == t[x].handles[l] && t[x].handles[l] in memory && |memory[t[x].handles[l]]| == t[x].page
    {
      AddressesDiffer(live, va, k, x, l);
      SameAddress(x, live[x], t[x], l);
      hide Address;
    }
  }

  lemma SameAddress(va: nat, e: Entry, f: Entry, k: nat)
    requires e.page == f.page
    ensures Address(va, e, k) == Address(va, f, k)
  {
  }

  lemma SwapApart(live: Live, va: nat, k: nat, h: Handle)
    requires Apart(live) && va in live && k < |live[va].handles|
    ensures Apart(Swapped(live, va, k, h))
  {
    var t := Swapped(live, va, k, h);
    forall x | x in t ensures t[x].Bytes() == live[x].Bytes() {
    }
  }

  /**
   * Remapping one page: the table stays good, exactly that page changes, to
   * what the new handle holds, and no other tensor changes.
   */
  lemma RemapGood(live: Live, memory: Memory, table: Mapping, va: nat, k: nat, h: Handle)
    requires Good(live, memory, table) && va in live && k < |live[va].handles|
    requires h in memory && |memory[h]| == live[va].page && !Owns(live, h)
    ensures var t, m := Swapped(live, va, k, h), table[Address(va, live[va], k) := h];
            && Good(t, memory, m)
            && Model(t, memory, m) == Model(live, memory, table)[va := Model(live, memory, table)[va][k := memory[h]]]
  {
    var t, m := Swapped(live, va, k, h), table[Address(va, live[va], k) := h];
    SwapUnique(live, va, k, h);
    SwapApart(live, va, k, h);
    forall x | x in t ensures Backed(x, t[x], memory, m) {
      SwapBacked(live, memory, table, va, k, h, x);
    }
    hide Apart, Unique, Address;
    forall x | x in t
      ensures Model(t, memory, m)[x] == (if x == va then Model(live, memory, table)[va][k := memory[h]] else Model(live, memory, table)[x])
    {
      assert Backed(x, t[x], memory, m) && Backed(x, live[x], memory, table);
    }
  }

  /** Putting the old handle back restores table and contents. */
  lemma RemapBack(live: Live, table: Mapping, va: nat, k: nat, h: Handle)
    requires va in live && k < |live[va].handles|
    requires Address(va, live[va], k) in table && table[Address(va, live[va], k)] == live[va].handles[k]
    ensures var t, m, gone := Swapped(live, va, k, h), table[Address(va, live[va], k) := h], live[va].handles[k];
            && Swapped(t, va, k, gone) == live
            && m[Address(va, t[va], k) := gone] == table
  {
    var t := Swapped(live, va, k, h);
    assert t[va].handles[k := live[va].handles[k]] == live[va].handles;
  }

  // ------------------------------------------------------------------------ write, free, allocate

  lemma WriteGood(live: Live, memory: Memory, table: Mapping, va: nat, i: nat, b: Byte)
    requires Good(live, memory, table) && va in live && i < live[va].Bytes()
    ensures live[va].page > 0 && i / live[va].page < |live[va].handles|
    ensures var e := live[va];
            var k, o := i / e.page, i % e.page;
            var h := e.handles[k];
            && h in memory && o < |memory[h]|
            && Good(live, memory[h := memory[h][o := b]], table)
            && va in Model(live, memory, table) && k < |Model(live, memory, table)[va]|
            && o < |Model(live, memory, table)[va][k]|
            && Model(live, memory[h := memory[h][o := b]], table)
                 == Model(live, memory, table)[va := Model(live, memory, table)[va][k := Model(live, memory, table)[va][k][o := b]]]
  {
    var e := live[va];
    assert Backed(va, e, memory, table);
    Divide(i, e.page, |e.handles|);
    var k, o := i / e.page, i % e.page;
    var h := e.handles[k];
    var w := memory[h := memory[h][o := b]];
    forall x | x in live ensures Backed(x, live[x], w, table) {
      assert Backed(x, live[x], memory, table);
    }
    forall x | x in live ensures
      Pages(live[x], w) == (if x == va then Pages(e, memory)[k := memory[h][o := b]] else Pages(live[x], memory))
    {
      assert Backed(x, live[x], memory, table);
    }
  }

  /** Nothing of the tensor at `va` is left in `m`, and the rest of the mapping is as in `table`. */
  ghost predicate Unmapped(table: Mapping, m: Mapping, va: nat, bytes: nat) {
    forall at {:trigger at in m} {:trigger at in table} ::
      (at in m <==> at in table && !(va <= at < va + bytes)) && (at in m ==> m[at] == table[at])
  }

  lemma FreeBacked(live: Live, memory: Memory, table: Mapping, va: nat, m: Mapping, rest: Memory, x: nat)
    requires Good(live, memory, table) && va in live && Unmapped(table, m, va, live[va].Bytes())
    requires forall h :: h in memory && h !in live[va].handles ==> h in rest && rest[h] == memory[h]
    requires x in live && x != va
    ensures Backed(x, live[x], rest, m)
    ensures forall l :: 0 <= l < |live[x].handles| ==>
      live[x].handles[l] in memory && live[x].handles[l] in rest && rest[live[x].handles[l]] == memory[live[x].handles[l]]
  {
    assert Backed(x, live[x], memory, table) && Backed(va, live[va], memory, table);
    forall l | 0 <= l < |live[x].handles|
      ensures var at := Address(x, live[x], l);
        at in m && m[at] == live[x].handles[l] && live[x].handles[l] in rest && rest[live[x].handles[l]] == memory[live[x].handles[l]]
    {
      AddressIn(x, live[x], l);
      hide Address;
      assert live[x].handles[l] !in live[va].handles;
    }
  }

  lemma FreeGood(live: Live, memory: Memory, table: Mapping, va: nat, m: Mapping, rest: Memory)
    requires Good(live, memory, table) && va in live && Unmapped(table, m, va, live[va].Bytes())
    requires forall h :: h in memory && h !in live[va].handles ==> h in rest && rest[h] == memory[h]
    ensures Good(live - {va}, rest, m)
    ensures Model(live - {va}, rest, m) == Model(live, memory, table) - {va}
  {
    var t := live - {va};
    forall x | x in t ensures Backed(x, t[x], rest, m) {
      FreeBacked(live, memory, table, va, m, rest, x);
    }
    assert Unique(t) && Apart(t);
    hide Apart, Unique, Address;
    forall x | x in t ensures Model(t, rest, m)[x] == Model(live, memory, table)[x] {
      FreeBacked(live, memory, table, va, m, rest, x);
      assert Backed(x, t[x], rest, m) && Backed(x, live[x], memory, table);
    }
  }

  lemma FreeOwns(live: Live, va: nat, x: Handle)
    requires Unique(live) && va in live
    ensures Owns(live - {va}, x) <==> Owns(live, x) && x !in live[va].handles
  {
    if Owns(live - {va}, x) {
      var vb :| vb in live - {va} && x in live[vb].handles;
    }
    if Owns(live, x) && x !in live[va].handles {
      var vb :| vb in live && x in live[vb].handles;
      assert vb in live - {va};
    }
  }

  /** Mapping the tensor at `va`, page by page, over a free range of virtual memory. */
  ghost predicate Mapped(table: Mapping, m: Mapping, va: nat, e: Entry) {
    && (forall k :: 0 <= k < |e.handles| ==> Address(va, e, k) in m && m[Address(va, e, k)] == e.handles[k])
    && (forall at {:trigger at in m} {:trigger at in table} :: at in table && !(va <= at < va + e.Bytes()) ==>
          at in m && m[at] == table[at])
  }

  /** The driver hands out a range of virtual memory in which nothing is live. */
  ghost predicate FreeRange(live: Live, va: nat, bytes: nat) {
    va !in live && forall vb :: vb in live ==> vb + live[vb].Bytes() <= va || va + bytes <= vb
  }

  lemma AllocateApart(live: Live, va: nat, e: Entry)
    requires Apart(live) && FreeRange(live, va, e.Bytes())
    ensures Apart(live[va := e])
  {
  }

  lemma AllocateUnique(live: Live, va: nat, e: Entry)
    requires Unique(live) && va !in live && NoDup(e.handles) && forall h :: h in e.handles ==> !Owns(live, h)
    ensures Unique(live[va := e])
  {
    var t := live[va := e];
    forall x, y, i, j | x in t && y in t && 0 <= i < |t[x].handles| && 0 <= j < |t[y].handles|
      && t[x].handles[i] == t[y].handles[j] ensures x == y && i == j
    {
      assert t[x].handles[i] in t[x].handles && t[y].handles[j] in t[y].handles;
      assert x == va && y != va ==> Owns(live, t[y].handles[j]);
      assert y == va && x != va ==> Owns(live, t[x].handles[i]);
    }
  }

  lemma AllocateBacked(live: Live, memory: Memory, table: Mapping, va: nat, e: Entry, m: Mapping, more: Memory, x: nat)
    requires Good(live, memory, table) && FreeRange(live, va, e.Bytes()) && Mapped(table, m, va, e)
    requires forall h :: h in memory ==> h in more && more[h] == memory[h]
    requires x in live
    ensures x != va && Backed(x, live[x], more, m)
  {
    assert Backed(x, live[x], memory, table);
    forall l | 0 <= l < |live[x].handles|
      ensures var at := Address(x, live[x], l);
        at in m && m[at] == live[x].handles[l] && live[x].handles[l] in more && |more[live[x].handles[l]]| == live[x].page
    {
      AddressIn(x, live[x], l);
      hide Address;
    }
  }

  /** A new tensor: its pages are what its handles hold, and no other tensor changes. */
  lemma AllocateGood(live: Live, memory: Memory, table: Mapping, va: nat, e: Entry, m: Mapping, more: Memory)
    requires Good(live, memory, table) && FreeRange(live, va, e.Bytes()) && Mapped(table, m, va, e)
    requires e.page > 0 && NoDup(e.handles)
    requires forall h :: h in memory ==> h in more && more[h] == memory[h]
    requires forall h :: h in e.handles ==> !Owns(live, h) && h in more && |more[h]| == e.page
    ensures Good(live[va := e], more, m)
    ensures Model(live[va := e], more, m) == Model(live, memory, table)[va := Pages(e, more)]
  {
    var t := live[va := e];
    AllocateApart(live, va, e);
    AllocateUnique(live, va, e);
    forall x | x in t ensures Backed(x, t[x], more, m) {
      if x != va {
        AllocateBacked(live, memory, table, va, e, m, more, x);
      }
    }
    hide Apart, Unique, Address, Mapped, FreeRange;
    forall x | x in t && x != va ensures Model(t, more, m)[x] == Model(live, memory, table)[x] {
      assert Backed(x, t[x], more, m) && Backed(x, live[x], memory, table);
    }
  }

  lemma AllocateOwns(live: Live, va: nat, e: Entry, x: Handle)
    requires va !in live
    ensures Owns(live[va := e], x) <==> Owns(live, x) || x in e.handles
  {
    var t := live[va := e];
    if Owns(live, x) {
      var vb :| vb in live && x in live[vb].handles;
      assert vb in t && x in t[vb].handles;
    }
    if x in e.handles {
      assert va in t && x in t[va].handles;
    }
  }
}
