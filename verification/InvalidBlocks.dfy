/** Recovery from failed KV loads (`_update_requests_with_invalid_blocks`). */
module InvalidBlocks {
  import opened Seqs
  import opened Requests
  import opened Arithmetic

  type Block = nat

  /** What the scan looks at for one request. */
  datatype Item = Item(computed: int, scheduled: int, blocks: seq<Block>) {
    /** Tokens computed before this step. */
    function Prior(): int { computed - scheduled }

    /** How many leading blocks may hold externally computed tokens. */
    function Window(blockSize: nat): nat
      requires blockSize > 0
    {
      Max(0, Min((Prior() + blockSize - 1) / blockSize, |blocks|))
    }

    ghost predicate Valid() { 0 <= scheduled <= computed }

    /** An invalid block in the previously computed prefix, at position `i`. */
    ghost predicate Hit(i: int, invalid: set<Block>, blockSize: nat)
      requires blockSize > 0
    {
      0 <= i < Window(blockSize) && blocks[i] in invalid
    }

    /** The invalid blocks of that prefix. */
    function Bad(invalid: set<Block>, blockSize: nat): set<Block>
      requires blockSize > 0
    {
      BadAmong(blocks[..Window(blockSize)], invalid)
    }
  }

  function BadAmong(blocks: seq<Block>, invalid: set<Block>): set<Block> {
    if blocks == [] then {}
    else
      var front := BadAmong(blocks[..|blocks| - 1], invalid);
      if blocks[|blocks| - 1] in invalid then front + {blocks[|blocks| - 1]} else front
  }

  lemma {:induction false} BadAmongIff(blocks: seq<Block>, invalid: set<Block>, b: Block)
    ensures b in BadAmong(blocks, invalid) <==> b in blocks && b in invalid
  {
    if blocks != [] {
      BadAmongIff(blocks[..|blocks| - 1], invalid, b);
      assert blocks == blocks[..|blocks| - 1] + [blocks[|blocks| - 1]];
    }
  }

  lemma BadPosition(it: Item, invalid: set<Block>, blockSize: nat, b: Block) returns (i: nat)
    requires blockSize > 0 && b in it.Bad(invalid, blockSize)
    ensures it.Hit(i, invalid, blockSize) && it.blocks[i] == b
  {
    BadAmongIff(it.blocks[..it.Window(blockSize)], invalid, b);
    i :| 0 <= i < it.Window(blockSize) && it.blocks[i] == b;
  }

  lemma HitIsBad(it: Item, invalid: set<Block>, blockSize: nat, i: nat)
    requires blockSize > 0 && it.Hit(i, invalid, blockSize)
    ensures it.blocks[i] in it.Bad(invalid, blockSize)
  {
    var w := it.blocks[..it.Window(blockSize)];
    assert w[i] == it.blocks[i];
    BadAmongIff(w, invalid, it.blocks[i]);
  }

  /** First position below `limit` that holds a block of `bad`, or `limit`. */
  function First(blocks: seq<Block>, limit: nat, bad: set<Block>, from: nat := 0): (i: nat)
    requires from <= limit <= |blocks|
    ensures from <= i <= limit
    ensures i < limit ==> blocks[i] in bad
    ensures forall j :: from <= j < i ==> blocks[j] !in bad
    decreases limit - from
  {
    if from == limit || blocks[from] in bad then from else First(blocks, limit, bad, from + 1)
  }

  datatype Outcome = Outcome(
    computed: map<Id, int>, affected: set<Id>, total: int, evict: set<Block>, marked: set<Block>)

  const NOTHING := Outcome(map[], {}, 0, {}, {})

  /** One request: truncate at the first invalid block that no earlier request recomputes. */
  function RepairOne(o: Outcome, id: Id, it: Item, invalid: set<Block>, evict: bool, blockSize: nat): Outcome
    requires blockSize > 0
  {
    var w := it.Window(blockSize);
    var found := it.Bad(invalid, blockSize);
    if found == {} then o.(computed := o.computed[id := it.computed])
    else
      var i := First(it.blocks, w, invalid - o.marked);
      var kept := if i < w then i * blockSize else it.Prior();
      Outcome(
        o.computed[id := kept],
        o.affected + {id},
        o.total + (if i < w then it.Prior() - kept else it.computed - kept),
        if evict && i < w then o.evict + (set b | b in it.blocks[i..]) else o.evict,
        o.marked + found)
  }

  /** The scan over a batch, in order. */
  function Repair(items: map<Id, Item>, ids: seq<Id>, invalid: set<Block>, evict: bool, blockSize: nat): Outcome
    requires blockSize > 0
    requires forall id :: id in ids ==> id in items
  {
    if ids == [] then NOTHING
    else
      var n := |ids| - 1;
      RepairOne(Repair(items, ids[..n], invalid, evict, blockSize), ids[n], items[ids[n]], invalid, evict, blockSize)
  }

  lemma WindowBound(it: Item, blockSize: nat, i: int)
    requires blockSize > 0 && 0 <= i < it.Window(blockSize)
    ensures i * blockSize < it.Prior()
  {
    var q := (it.Prior() + blockSize - 1) / blockSize;
    assert it.Prior() + blockSize - 1 == blockSize * q + (it.Prior() + blockSize - 1) % blockSize;
    assert blockSize * q == q * blockSize && i + 1 <= q;
    if i + 1 < q {
      NonNegative(q - i - 1, blockSize);
    }
    assert (q - i - 1) * blockSize == q * blockSize - i * blockSize - blockSize;
  }

  /** What repairing one request does, whatever was marked before. */
  lemma RepairOneFacts(o: Outcome, id: Id, it: Item, invalid: set<Block>, evict: bool, blockSize: nat)
    requires blockSize > 0 && it.Valid()
    ensures var r := RepairOne(o, id, it, invalid, evict, blockSize);
            var bad := it.Bad(invalid, blockSize);
            && r.computed.Keys == o.computed.Keys + {id}
            && (forall k :: k in o.computed && k != id ==> r.computed[k] == o.computed[k])
            && 0 <= r.computed[id] <= it.computed
            && r.affected == (if bad == {} then o.affected else o.affected + {id})
            && (bad == {} ==> r.computed[id] == it.computed)
            && (bad != {} ==> r.computed[id] <= it.Prior())
            && r.marked == o.marked + bad
            && o.evict <= r.evict
  {
    var w := it.Window(blockSize);
    var i := First(it.blocks, w, invalid - o.marked);
    if i < w {
      WindowBound(it, blockSize, i);
      NonNegative(i, blockSize);
    }
  }

  /** A bad block nobody marked yet forces the truncation at or below its own start. */
  lemma RepairOneTruncates(o: Outcome, id: Id, it: Item, invalid: set<Block>, evict: bool, blockSize: nat, i: nat)
    requires blockSize > 0 && it.Valid() && it.Hit(i, invalid, blockSize) && it.blocks[i] !in o.marked
    ensures var r := RepairOne(o, id, it, invalid, evict, blockSize);
            && r.computed[id] <= i * blockSize
            && exists t :: TruncatedAt(r, id, it, t, evict, blockSize)
  {
    var w := it.Window(blockSize);
    var t := First(it.blocks, w, invalid - o.marked);
    HitIsBad(it, invalid, blockSize, i);
    assert t <= i;
    NonNegative(i - t, blockSize);
    assert (i - t) * blockSize == i * blockSize - t * blockSize;
    assert TruncatedAt(RepairOne(o, id, it, invalid, evict, blockSize), id, it, t, evict, blockSize);
  }

  /** The count is the start of block `t`; with eviction on, that block and all behind it are evicted. */
  ghost predicate TruncatedAt(o: Outcome, id: Id, it: Item, t: int, evict: bool, blockSize: nat) {
    && id in o.computed && o.computed[id] == t * blockSize
    && 0 <= t < |it.blocks|
    && (evict ==> forall j :: t <= j < |it.blocks| ==> it.blocks[j] in o.evict)
  }

  ghost predicate ValidBatch(items: map<Id, Item>, ids: seq<Id>) {
    NoDup(ids) && forall id :: id in ids ==> id in items && items[id].Valid()
  }

  /** Some request of the batch had computed the invalid block `b`. */
  ghost predicate Held(items: map<Id, Item>, ids: seq<Id>, b: Block, invalid: set<Block>, blockSize: nat)
    requires blockSize > 0 && forall id :: id in ids ==> id in items
  {
    exists k :: 0 <= k < |ids| && b in items[ids[k]].Bad(invalid, blockSize)
  }

  lemma {:induction false} ReportedIff(items: map<Id, Item>, ids: seq<Id>, invalid: set<Block>, evict: bool, blockSize: nat, id: Id)
    requires blockSize > 0 && ValidBatch(items, ids)
    ensures var o := Repair(items, ids, invalid, evict, blockSize);
            && (id in o.computed <==> id in ids)
            && (id in o.affected <==> id in ids && items[id].Bad(invalid, blockSize) != {})
  {
    hide RepairOne;
    if ids != [] {
      var n := |ids| - 1;
      ReportedIff(items, ids[..n], invalid, evict, blockSize, id);
      RepairOneFacts(Repair(items, ids[..n], invalid, evict, blockSize), ids[n], items[ids[n]], invalid, evict, blockSize);
      assert ids == ids[..n] + [ids[n]];
    }
  }

  lemma {:induction false} CountsFall(items: map<Id, Item>, ids: seq<Id>, invalid: set<Block>, evict: bool, blockSize: nat, id: Id)
    requires blockSize > 0 && ValidBatch(items, ids) && id in ids
    ensures var o := Repair(items, ids, invalid, evict, blockSize);
            && id in o.computed && 0 <= o.computed[id] <= items[id].computed
            && (if items[id].Bad(invalid, blockSize) == {} then o.computed[id] == items[id].computed
                else o.computed[id] <= items[id].Prior())
  {
    hide RepairOne;
    var n := |ids| - 1;
    RepairOneFacts(Repair(items, ids[..n], invalid, evict, blockSize), ids[n], items[ids[n]], invalid, evict, blockSize);
    assert ids == ids[..n] + [ids[n]];
    if id != ids[n] {
      CountsFall(items, ids[..n], invalid, evict, blockSize, id);
    }
  }

  /** Exactly the requests with an invalid block in their computed prefix are reported, and no count grows. */
  lemma {:induction false} ExactlyTheAffected(
      items: map<Id, Item>, ids: seq<Id>, invalid: set<Block>, evict: bool, blockSize: nat)
    requires blockSize > 0 && ValidBatch(items, ids)
    ensures var o := Repair(items, ids, invalid, evict, blockSize);
            && (forall id :: id in o.computed <==> id in ids)
            && (forall id :: id in o.affected <==> id in ids && items[id].Bad(invalid, blockSize) != {})
            && (forall id :: id in ids ==> 0 <= o.computed[id] <= items[id].computed)
            && (forall id :: id in ids && id !in o.affected ==> o.computed[id] == items[id].computed)
            && (forall id :: id in o.affected ==> o.computed[id] <= items[id].Prior())
  {
    hide Repair;
    forall id { ReportedIff(items, ids, invalid, evict, blockSize, id); }
    forall id | id in ids { CountsFall(items, ids, invalid, evict, blockSize, id); }
  }

  /** The marked blocks are exactly the invalid ones that the batch had computed. */
  lemma {:induction false} MarkedIffHeld(
      items: map<Id, Item>, ids: seq<Id>, invalid: set<Block>, evict: bool, blockSize: nat, b: Block)
    requires blockSize > 0 && ValidBatch(items, ids)
    ensures b in Repair(items, ids, invalid, evict, blockSize).marked <==> Held(items, ids, b, invalid, blockSize)
  {
    if ids != [] {
      var n := |ids| - 1;
      MarkedIffHeld(items, ids[..n], invalid, evict, blockSize, b);
      var before := Repair(items, ids[..n], invalid, evict, blockSize);
      RepairOneFacts(before, ids[n], items[ids[n]], invalid, evict, blockSize);
      HeldLast(items, ids, b, invalid, blockSize);
    }
  }

  lemma HeldLast(items: map<Id, Item>, ids: seq<Id>, b: Block, invalid: set<Block>, blockSize: nat)
    requires blockSize > 0 && ids != [] && forall id :: id in ids ==> id in items
    ensures Held(items, ids, b, invalid, blockSize) <==>
      Held(items, ids[..|ids| - 1], b, invalid, blockSize) || b in items[ids[|ids| - 1]].Bad(invalid, blockSize)
  {
    var front := ids[..|ids| - 1];
    if Held(items, ids, b, invalid, blockSize) {
      var k :| 0 <= k < |ids| && b in items[ids[k]].Bad(invalid, blockSize);
      assert k < |front| ==> front[k] == ids[k];
    }
    if Held(items, front, b, invalid, blockSize) {
      var k :| 0 <= k < |front| && b in items[front[k]].Bad(invalid, blockSize);
      assert front[k] == ids[k];
    }
  }

  /** The first request of the batch that holds `b`. */
  lemma {:induction false} FirstHolder(
      items: map<Id, Item>, ids: seq<Id>, invalid: set<Block>, blockSize: nat, b: Block) returns (k: nat)
    requires blockSize > 0 && forall id :: id in ids ==> id in items
    requires Held(items, ids, b, invalid, blockSize)
    ensures k < |ids| && b in items[ids[k]].Bad(invalid, blockSize)
    ensures !Held(items, ids[..k], b, invalid, blockSize)
  {
    var n := |ids| - 1;
    HeldLast(items, ids, b, invalid, blockSize);
    if Held(items, ids[..n], b, invalid, blockSize) {
      k := FirstHolder(items, ids[..n], invalid, blockSize, b);
      assert ids[..n][..k] == ids[..k];
    } else {
      k := n;
    }
  }

  /**
   * For each invalid block found, the first request of the batch that holds it
   * ends at or below the block's start, so that someone recomputes it, and
   * exactly there if it has no invalid block in front; with eviction on, the
   * block and everything behind the truncation point go too.
   */
  lemma {:induction false} FirstHolderRecomputes(
      items: map<Id, Item>, ids: seq<Id>, invalid: set<Block>, evict: bool, blockSize: nat, k: nat, i: nat)
    requires blockSize > 0 && ValidBatch(items, ids) && k < |ids|
    requires items[ids[k]].Hit(i, invalid, blockSize)
    requires !Held(items, ids[..k], items[ids[k]].blocks[i], invalid, blockSize)
    ensures var o := Repair(items, ids, invalid, evict, blockSize);
            && ids[k] in o.computed && o.computed[ids[k]] <= i * blockSize
            && ((forall j :: 0 <= j < i ==> items[ids[k]].blocks[j] !in invalid) ==> o.computed[ids[k]] == i * blockSize)
            && exists t :: TruncatedAt(o, ids[k], items[ids[k]], t, evict, blockSize)
  {
    if forall j :: 0 <= j < i ==> items[ids[k]].blocks[j] !in invalid {
      NoValidBlockIsLost(items, ids, invalid, evict, blockSize, k, i);
    }
    var n := |ids| - 1;
    var front := ids[..n];
    var before := Repair(items, front, invalid, evict, blockSize);
    if k < n {
      assert front[..k] == ids[..k];
      FirstHolderRecomputes(items, front, invalid, evict, blockSize, k, i);
      RepairOneFacts(before, ids[n], items[ids[n]], invalid, evict, blockSize);
      var t :| TruncatedAt(before, ids[k], items[ids[k]], t, evict, blockSize);
      assert TruncatedAt(Repair(items, ids, invalid, evict, blockSize), ids[k], items[ids[k]], t, evict, blockSize);
    } else {
      MarkedIffHeld(items, front, invalid, evict, blockSize, items[ids[n]].blocks[i]);
      RepairOneTruncates(before, ids[n], items[ids[n]], invalid, evict, blockSize, i);
    }
  }

  /** Some request of the batch recomputes every invalid block that was found. */
  lemma {:induction false} EveryBlockIsRecomputed(
      items: map<Id, Item>, ids: seq<Id>, invalid: set<Block>, evict: bool, blockSize: nat, b: Block)
    returns (k: nat, i: nat)
    requires blockSize > 0 && ValidBatch(items, ids)
    requires Held(items, ids, b, invalid, blockSize)
    ensures k < |ids| && items[ids[k]].Hit(i, invalid, blockSize) && items[ids[k]].blocks[i] == b
    ensures var o := Repair(items, ids, invalid, evict, blockSize);
            && ids[k] in o.computed && o.computed[ids[k]] <= i * blockSize
            && (evict ==> b in o.evict)
  {
    k := FirstHolder(items, ids, invalid, blockSize, b);
    i := BadPosition(items[ids[k]], invalid, blockSize, b);
    FirstHolderRecomputes(items, ids, invalid, evict, blockSize, k, i);
    var o := Repair(items, ids, invalid, evict, blockSize);
    var t :| TruncatedAt(o, ids[k], items[ids[k]], t, evict, blockSize);
    if t > i {
      NonNegative(t - i - 1, blockSize);
      assert (t - i - 1) * blockSize == t * blockSize - i * blockSize - blockSize;
    }
  }

  /** A request whose invalid blocks are all recomputed by earlier ones falls back to its previous count. */
  lemma {:induction false} SharedHolderFallsBack(
      items: map<Id, Item>, front: seq<Id>, id: Id, invalid: set<Block>, evict: bool, blockSize: nat)
    requires blockSize > 0 && ValidBatch(items, front + [id])
    requires id in items && items[id].Bad(invalid, blockSize) != {}
    requires forall x :: x in front ==> x in items
    requires forall b :: b in items[id].Bad(invalid, blockSize) ==> Held(items, front, b, invalid, blockSize)
    ensures id in Repair(items, front + [id], invalid, evict, blockSize).computed
    ensures Repair(items, front + [id], invalid, evict, blockSize).computed[id] == items[id].Prior()
  {
    assert forall i, j :: 0 <= i < j < |front| ==> front[i] == (front + [id])[i] && front[j] == (front + [id])[j];
    assert (front + [id])[..|front|] == front;
    var it := items[id];
    var w := it.Window(blockSize);
    var before := Repair(items, front, invalid, evict, blockSize);
    var t := First(it.blocks, w, invalid - before.marked);
    if it.Hit(t, invalid, blockSize) {
      HitIsBad(it, invalid, blockSize, t);
      MarkedIffHeld(items, front, invalid, evict, blockSize, it.blocks[t]);
    }
  }

  /** When requests do not share blocks, every affected one is cut strictly below its previous count. */
  lemma {:induction false} UnsharedAreTruncated(
      items: map<Id, Item>, ids: seq<Id>, invalid: set<Block>, evict: bool, blockSize: nat)
    requires blockSize > 0 && ValidBatch(items, ids)
    requires forall a, b, x :: a in ids && b in ids && a != b && x in items[a].blocks ==> x !in items[b].blocks
    ensures var o := Repair(items, ids, invalid, evict, blockSize);
      forall id :: id in o.affected ==> id in o.computed && id in items && o.computed[id] < items[id].Prior()
  {
    if ids != [] {
      var n := |ids| - 1;
      var front, id, it := ids[..n], ids[n], items[ids[n]];
      UnsharedAreTruncated(items, front, invalid, evict, blockSize);
      var before := Repair(items, front, invalid, evict, blockSize);
      RepairOneFacts(before, id, it, invalid, evict, blockSize);
      ExactlyTheAffected(items, front, invalid, evict, blockSize);
      assert forall k :: 0 <= k < n ==> front[k] == ids[k] && ids[k] != id;
      if it.Bad(invalid, blockSize) != {} {
        UnsharedTruncation(items, ids, invalid, evict, blockSize);
      }
    }
  }

  lemma BadInBlocks(it: Item, invalid: set<Block>, blockSize: nat, b: Block)
    requires blockSize > 0
    ensures b in it.Bad(invalid, blockSize) ==> b in it.blocks
  {
    BadAmongIff(it.blocks[..it.Window(blockSize)], invalid, b);
  }

  lemma {:induction false} UnsharedTruncation(items: map<Id, Item>, ids: seq<Id>, invalid: set<Block>, evict: bool, blockSize: nat)
    requires blockSize > 0 && ValidBatch(items, ids) && ids != []
    requires forall a, b, x :: a in ids && b in ids && a != b && x in items[a].blocks ==> x !in items[b].blocks
    requires items[ids[|ids| - 1]].Bad(invalid, blockSize) != {}
    ensures var id := ids[|ids| - 1];
      var o := Repair(items, ids, invalid, evict, blockSize);
      id in o.computed && o.computed[id] < items[id].Prior()
  {
    var n := |ids| - 1;
    var front, id, it := ids[..n], ids[n], items[ids[n]];
    var b :| b in it.Bad(invalid, blockSize);
    var i := BadPosition(it, invalid, blockSize, b);
    MarkedIffHeld(items, front, invalid, evict, blockSize, b);
    BadInBlocks(it, invalid, blockSize, b);
    forall k | 0 <= k < |front| ensures b !in items[front[k]].Bad(invalid, blockSize) {
      assert front[k] == ids[k] && ids[k] != id;
      BadInBlocks(items[front[k]], invalid, blockSize, b);
    }
    RepairOneTruncates(Repair(items, front, invalid, evict, blockSize), id, it, invalid, evict, blockSize, i);
    WindowBound(it, blockSize, i);
  }

  // ------------------------------------------------------------------------- exactly that much

  /** Block `i` of the `k`-th request is the first invalid one that no earlier request recomputes. */
  ghost predicate CutAt(items: map<Id, Item>, ids: seq<Id>, k: nat, i: int, invalid: set<Block>, blockSize: nat)
    requires blockSize > 0 && k < |ids| && forall id :: id in ids ==> id in items
  {
    var it := items[ids[k]];
    && it.Hit(i, invalid, blockSize) && !Held(items, ids[..k], it.blocks[i], invalid, blockSize)
    && forall j :: 0 <= j < i && it.Hit(j, invalid, blockSize) ==> Held(items, ids[..k], it.blocks[j], invalid, blockSize)
  }

  lemma CutLast(items: map<Id, Item>, ids: seq<Id>, invalid: set<Block>, evict: bool, blockSize: nat, i: int)
    requires blockSize > 0 && ValidBatch(items, ids) && ids != []
    requires forall id :: id in ids[..|ids| - 1] ==> id in items
    ensures var n := |ids| - 1;
            var it := items[ids[n]];
            var before := Repair(items, ids[..n], invalid, evict, blockSize);
            var w := it.Window(blockSize);
      CutAt(items, ids, n, i, invalid, blockSize) <==> 0 <= i < w && i == First(it.blocks, w, invalid - before.marked)
  {
    var n := |ids| - 1;
    var it := items[ids[n]];
    var w := it.Window(blockSize);
    assert forall j, k :: 0 <= j < k < n ==> ids[..n][j] == ids[j] && ids[..n][k] == ids[k];
    forall j | 0 <= j < w
      ensures it.blocks[j] in Repair(items, ids[..n], invalid, evict, blockSize).marked
         <==> Held(items, ids[..n], it.blocks[j], invalid, blockSize)
    {
      MarkedIffHeld(items, ids[..n], invalid, evict, blockSize, it.blocks[j]);
    }
    hide Held, Repair;
  }

  /** Later requests of the batch do not change what happens to the `k`-th. */
  lemma CutEarlier(items: map<Id, Item>, ids: seq<Id>, invalid: set<Block>, blockSize: nat, k: nat, i: int)
    requires blockSize > 0 && k < |ids| - 1 && forall id :: id in ids ==> id in items
    ensures CutAt(items, ids[..|ids| - 1], k, i, invalid, blockSize) <==> CutAt(items, ids, k, i, invalid, blockSize)
  {
    assert ids[..|ids| - 1][..k] == ids[..k] && ids[..|ids| - 1][k] == ids[k];
  }

  lemma LastRepaired(items: map<Id, Item>, ids: seq<Id>, invalid: set<Block>, evict: bool, blockSize: nat)
    requires blockSize > 0 && ValidBatch(items, ids) && ids != []
    ensures var n := |ids| - 1;
      Repair(items, ids, invalid, evict, blockSize)
        == RepairOne(Repair(items, ids[..n], invalid, evict, blockSize), ids[n], items[ids[n]], invalid, evict, blockSize)
    ensures ValidBatch(items, ids[..|ids| - 1])
  {
    var n := |ids| - 1;
    assert forall j, k :: 0 <= j < k < n ==> ids[..n][j] == ids[j] && ids[..n][k] == ids[k];
    hide RepairOne;
  }

  /**
   * Exactly the valid prefix is kept: a request ends where its first invalid
   * block begins that no earlier request recomputes; if there is none but it
   * has invalid blocks it falls back to its count before the step.
   */
  lemma {:induction false} ValidPrefixIsKept(
      items: map<Id, Item>, ids: seq<Id>, invalid: set<Block>, evict: bool, blockSize: nat, k: nat)
    requires blockSize > 0 && ValidBatch(items, ids) && k < |ids|
    ensures var o := Repair(items, ids, invalid, evict, blockSize);
            var it := items[ids[k]];
      && ids[k] in o.computed
      && (forall i :: CutAt(items, ids, k, i, invalid, blockSize) ==> o.computed[ids[k]] == i * blockSize)
      && ((forall i :: !CutAt(items, ids, k, i, invalid, blockSize)) ==>
            o.computed[ids[k]] == if it.Bad(invalid, blockSize) == {} then it.computed else it.Prior())
  {
    var n := |ids| - 1;
    var it := items[ids[k]];
    var before := Repair(items, ids[..n], invalid, evict, blockSize);
    LastRepaired(items, ids, invalid, evict, blockSize);
    if k < n {
      assert ids[k] != ids[n] && ids[..n][k] == ids[k];
      ValidPrefixIsKept(items, ids[..n], invalid, evict, blockSize, k);
      RepairOneFacts(before, ids[n], items[ids[n]], invalid, evict, blockSize);
      forall i ensures CutAt(items, ids[..n], k, i, invalid, blockSize) <==> CutAt(items, ids, k, i, invalid, blockSize) {
        CutEarlier(items, ids, invalid, blockSize, k, i);
      }
    } else {
      var w := it.Window(blockSize);
      var f := First(it.blocks, w, invalid - before.marked);
      forall i ensures CutAt(items, ids, k, i, invalid, blockSize) <==> 0 <= i < w && i == f {
        CutLast(items, ids, invalid, evict, blockSize, i);
      }
      hide CutAt, Repair;
      if f < w {
        assert CutAt(items, ids, k, f, invalid, blockSize);
        HitIsBad(it, invalid, blockSize, f);
      }
    }
  }

  /** So no valid block is given up: the count is not below the first invalid block. */
  lemma {:induction false} NoValidBlockIsLost(
      items: map<Id, Item>, ids: seq<Id>, invalid: set<Block>, evict: bool, blockSize: nat, k: nat, t: nat)
    requires blockSize > 0 && ValidBatch(items, ids) && k < |ids|
    requires items[ids[k]].Hit(t, invalid, blockSize)
    requires forall j :: 0 <= j < t ==> items[ids[k]].blocks[j] !in invalid
    ensures var o := Repair(items, ids, invalid, evict, blockSize);
      ids[k] in o.computed && o.computed[ids[k]] >= t * blockSize
  {
    hide Repair, Held;
    ValidPrefixIsKept(items, ids, invalid, evict, blockSize, k);
    var it := items[ids[k]];
    HitIsBad(it, invalid, blockSize, t);
    WindowBound(it, blockSize, t);
    if i :| CutAt(items, ids, k, i, invalid, blockSize) {
      assert i >= t;
      NonNegative(i - t, blockSize);
      assert (i - t) * blockSize == i * blockSize - t * blockSize;
    }
  }

  /** Some request is cut at a block in front of `b`, or at `b`. */
  ghost predicate BehindACut(items: map<Id, Item>, ids: seq<Id>, invalid: set<Block>, blockSize: nat, b: Block)
    requires blockSize > 0 && forall id :: id in ids ==> id in items
  {
    exists k, i :: 0 <= k < |ids| && 0 <= i < |items[ids[k]].blocks|
      && CutAt(items, ids, k, i, invalid, blockSize) && b in items[ids[k]].blocks[i..]
  }

  lemma BehindLast(items: map<Id, Item>, ids: seq<Id>, invalid: set<Block>, blockSize: nat, b: Block)
    requires blockSize > 0 && ids != [] && forall id :: id in ids ==> id in items
    ensures var n := |ids| - 1;
            var it := items[ids[n]];
      BehindACut(items, ids, invalid, blockSize, b) <==>
        || BehindACut(items, ids[..n], invalid, blockSize, b)
        || exists i :: 0 <= i < |it.blocks| && CutAt(items, ids, n, i, invalid, blockSize) && b in it.blocks[i..]
  {
    var n := |ids| - 1;
    forall k, i | 0 <= k < n
      ensures CutAt(items, ids[..n], k, i, invalid, blockSize) <==> CutAt(items, ids, k, i, invalid, blockSize)
    {
      CutEarlier(items, ids, invalid, blockSize, k, i);
    }
    hide CutAt;
    assert forall k :: 0 <= k < n ==> ids[..n][k] == ids[k];
  }

  /** With eviction on, exactly the blocks from the cuts on are evicted; otherwise none. */
  lemma {:induction false} EvictedIff(
      items: map<Id, Item>, ids: seq<Id>, invalid: set<Block>, evict: bool, blockSize: nat, b: Block)
    requires blockSize > 0 && ValidBatch(items, ids)
    ensures b in Repair(items, ids, invalid, evict, blockSize).evict <==>
      evict && BehindACut(items, ids, invalid, blockSize, b)
  {
    if ids != [] {
      var n := |ids| - 1;
      var it := items[ids[n]];
      var w := it.Window(blockSize);
      LastRepaired(items, ids, invalid, evict, blockSize);
      EvictedIff(items, ids[..n], invalid, evict, blockSize, b);
      BehindLast(items, ids, invalid, blockSize, b);
      var before := Repair(items, ids[..n], invalid, evict, blockSize);
      var f := First(it.blocks, w, invalid - before.marked);
      forall i ensures CutAt(items, ids, n, i, invalid, blockSize) <==> 0 <= i < w && i == f {
        CutLast(items, ids, invalid, evict, blockSize, i);
      }
      hide CutAt, Repair, BehindACut;
      if f < w {
        HitIsBad(it, invalid, blockSize, f);
      }
    }
  }

  /** Where nobody shares a block, the reported total is what the batch has to compute again. */
  lemma {:induction false} TotalIsLost(items: map<Id, Item>, ids: seq<Id>, invalid: set<Block>, evict: bool, blockSize: nat)
    requires blockSize > 0 && ValidBatch(items, ids)
    requires forall a, b, x :: a in ids && b in ids && a != b && x in items[a].blocks ==> x !in items[b].blocks
    ensures var o := Repair(items, ids, invalid, evict, blockSize); o.total == Lost(items, ids, o)
  {
    if ids != [] {
      var n := |ids| - 1;
      var id, it := ids[n], items[ids[n]];
      var before, o := Repair(items, ids[..n], invalid, evict, blockSize), Repair(items, ids, invalid, evict, blockSize);
      LastRepaired(items, ids, invalid, evict, blockSize);
      assert forall a :: a in ids[..n] ==> a in ids && a != id;
      TotalIsLost(items, ids[..n], invalid, evict, blockSize);
      UnsharedAreTruncated(items, ids, invalid, evict, blockSize);
      RepairOneFacts(before, id, it, invalid, evict, blockSize);
      ExactlyTheAffected(items, ids[..n], invalid, evict, blockSize);
      hide Repair;
      LostAlike(items, ids[..n], before, o);
    }
  }

  /** Tokens computed before the step that the affected requests lose. */
  function Lost(items: map<Id, Item>, ids: seq<Id>, o: Outcome): int {
    if ids == [] then 0
    else
      var id := ids[|ids| - 1];
      Lost(items, ids[..|ids| - 1], o)
        + (if id in o.affected && id in items && id in o.computed then items[id].Prior() - o.computed[id] else 0)
  }

  lemma {:induction false} LostAlike(items: map<Id, Item>, ids: seq<Id>, a: Outcome, b: Outcome)
    requires forall id :: id in ids ==>
      (id in a.affected <==> id in b.affected) && id in a.computed && id in b.computed && a.computed[id] == b.computed[id]
    ensures Lost(items, ids, a) == Lost(items, ids, b)
  {
    if ids != [] {
      LostAlike(items, ids[..|ids| - 1], a, b);
    }
  }
}
