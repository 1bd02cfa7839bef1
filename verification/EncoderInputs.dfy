/**
 * `_try_schedule_encoder_inputs` for decoder-only models without a position
 * shift: which multimodal inputs to encode or load before computing a range of
 * positions, and how far that range may reach.
 */
module EncoderInputs {
  import opened Seqs
  import opened SchedulerSpec
  import opened Accounting

  /** A multimodal input: placeholder positions from `start`, those marked in `mask` taking an embedding. */
  datatype Feature = Feature(start: nat, mask: seq<bool>, ident: nat) {
    function End(): nat { start + |mask| }

    function NumEmbeds(): nat { Count(mask) }

    /** Some position in [lo, hi) takes an embedding of this input. */
    ghost predicate EmbedsIn(lo: int, hi: int) {
      exists k :: 0 <= k < |mask| && mask[k] && lo <= start + k < hi
    }
  }

  function Count(mask: seq<bool>): nat {
    if mask == [] then 0 else Count(mask[..|mask| - 1]) + (if mask[|mask| - 1] then 1 else 0)
  }

  /** Inputs come in prompt order and do not overlap. */
  ghost predicate Sorted(fs: seq<Feature>) {
    forall i, j :: 0 <= i < j < |fs| ==> fs[i].End() <= fs[j].start
  }

  /** One question to the encoder cache: is there room for input `i`? */
  datatype CacheAsk = CacheAsk(i: nat, budget: int, pending: nat)

  /** What the encoder cache and the connector answer during one call. */
  datatype Cache = Cache(
    cached: set<nat>,      // check_and_update_cache, by identifier
    room: set<CacheAsk>,   // can_allocate
    remote: set<nat>,      // has_cache_item, by identifier
    whole: bool)           // disable_chunked_mm_input

  /** `can_allocate` never grants more than the compute budget. */
  ghost predicate CacheOk(c: Cache, fs: seq<Feature>) {
    forall r :: r in c.room && r.i < |fs| ==> fs[r.i].NumEmbeds() <= r.budget
  }

  lemma {:induction false} CountIff(mask: seq<bool>)
    ensures Count(mask) == 0 <==> forall k :: 0 <= k < |mask| ==> !mask[k]
  {
    if mask != [] {
      var n := |mask| - 1;
      CountIff(mask[..n]);
      if forall k :: 0 <= k < n ==> !mask[..n][k] {
        assert forall k :: 0 <= k < n ==> mask[..n][k] == mask[k];
      }
    }
  }

  lemma {:induction false} CountSplit(mask: seq<bool>, a: nat, b: nat)
    requires a <= b <= |mask|
    ensures Count(mask[..b]) == Count(mask[..a]) + Count(mask[a..b])
  {
    if a < b {
      CountSplit(mask, a, b - 1);
      assert mask[..b][..b - 1] == mask[..b - 1] && mask[a..b][..b - 1 - a] == mask[a..b - 1];
    } else {
      assert mask[a..b] == [];
    }
  }

  /** `get_embeds_indices_in_range` tells whether a range of positions takes an embedding. */
  lemma EmbedsInRange(f: Feature, computed: nat, n: nat)
    requires 0 < n && f.start < computed + n && computed < f.End()
    ensures var a, b := Max(0, computed - f.start), Min(|f.mask|, computed + n - f.start);
            && 0 <= a <= b <= |f.mask|
            && (Count(f.mask[..b]) - Count(f.mask[..a]) == 0 <==> !f.EmbedsIn(computed, computed + n))
  {
    var a, b := Max(0, computed - f.start), Min(|f.mask|, computed + n - f.start);
    CountSplit(f.mask, a, b);
    CountIff(f.mask[a..b]);
    if f.EmbedsIn(computed, computed + n) {
      var k :| 0 <= k < |f.mask| && f.mask[k] && computed <= f.start + k < computed + n;
      assert f.mask[a..b][k - a];
    } else {
      forall k | 0 <= k < b - a ensures !f.mask[a..b][k] {
        assert !f.mask[a + k];
      }
    }
  }

  /** Embeddings of the listed inputs. */
  function EmbedsOf(fs: seq<Feature>, ids: seq<nat>): seq<nat>
    requires forall i :: i in ids ==> i < |fs|
  {
    seq(|ids|, k requires 0 <= k < |ids| => assert ids[k] in ids; fs[ids[k]].NumEmbeds())
  }

  lemma EmbedsSnoc(fs: seq<Feature>, ids: seq<nat>, i: nat)
    requires i < |fs| && forall k :: k in ids ==> k < |fs|
    ensures Total(EmbedsOf(fs, ids + [i])) == Total(EmbedsOf(fs, ids)) + fs[i].NumEmbeds()
  {
    var e := EmbedsOf(fs, ids + [i]);
    assert e[..|ids|] == EmbedsOf(fs, ids);
  }

  /** Input `i` was needed but could not be had, so the range ends before it. */
  ghost predicate Blocks(
      c: Cache, fs: seq<Feature>, computed: nat, asked: nat, i: nat, n: int, budget: int, toCompute: seq<nat>, toLoad: seq<nat>)
    requires i < |fs| && (forall k :: k in toCompute || k in toLoad ==> k < |fs|)
  {
    && computed < fs[i].End() && fs[i].start < computed + asked && fs[i].ident !in c.cached
    && n == Max(0, fs[i].start - computed)
    && (|| (c.whole && computed < fs[i].start && computed + asked < fs[i].End())
        || CacheAsk(i, budget, Total(EmbedsOf(fs, toCompute)) + Total(EmbedsOf(fs, toLoad))) !in c.room)
  }

  /** The inputs selected so far, looking at the first `seen` of them. */
  ghost predicate Selected(
      c: Cache, fs: seq<Feature>, computed: nat, n: nat, seen: nat, toCompute: seq<nat>, toLoad: seq<nat>, hashes: set<nat>)
    requires seen <= |fs|
  {
    && (forall i :: i in toCompute || i in toLoad ==>
          && i < seen && fs[i].EmbedsIn(computed, computed + n) && fs[i].ident !in c.cached && fs[i].ident in hashes)
    && (forall i :: i in toLoad ==> fs[i].ident in c.remote)
    && (forall i :: i in toCompute ==> fs[i].ident !in c.remote)
    && (forall h :: h in hashes ==> exists i :: (i in toCompute || i in toLoad) && i < |fs| && fs[i].ident == h)
    && (forall i, j :: (i in toCompute || i in toLoad) && (j in toCompute || j in toLoad) && i != j ==> fs[i].ident != fs[j].ident)
    && NoDup(toCompute) && NoDup(toLoad)
    && (forall i :: 0 <= i < seen && fs[i].EmbedsIn(computed, computed + n) ==> fs[i].ident in c.cached || fs[i].ident in hashes)
  }

  lemma AddOne(
      c: Cache, fs: seq<Feature>, computed: nat, n: nat, i: nat, toCompute: seq<nat>, toLoad: seq<nat>, hashes: set<nat>, load: bool)
    requires i < |fs| && Selected(c, fs, computed, n, i, toCompute, toLoad, hashes)
    requires fs[i].EmbedsIn(computed, computed + n) && fs[i].ident !in c.cached && fs[i].ident !in hashes
    requires load <==> fs[i].ident in c.remote
    ensures Selected(c, fs, computed, n, i + 1,
                     if load then toCompute else toCompute + [i], if load then toLoad + [i] else toLoad, hashes + {fs[i].ident})
  {
    var a, b := if load then toCompute else toCompute + [i], if load then toLoad + [i] else toLoad;
    var more := hashes + {fs[i].ident};
    forall x ensures (x in a || x in b) <==> (x in toCompute || x in toLoad || x == i) {
    }
    forall h | h in more ensures exists k :: (k in a || k in b) && k < |fs| && fs[k].ident == h {
      if h != fs[i].ident {
        var k :| (k in toCompute || k in toLoad) && k < |fs| && fs[k].ident == h;
        assert k in a || k in b;
      } else {
        assert i in a || i in b;
      }
    }
  }

  /** Everything that the window [computed, computed + n) needs is there or on its way. */
  ghost predicate Served(c: Cache, fs: seq<Feature>, computed: nat, n: int, toCompute: seq<nat>, toLoad: seq<nat>) {
    forall i :: 0 <= i < |fs| && fs[i].EmbedsIn(computed, computed + n) ==>
      fs[i].ident in c.cached || exists k :: (k in toCompute || k in toLoad) && k < |fs| && fs[k].ident == fs[i].ident
  }

  /** Input `i` overlaps the window. */
  ghost predicate Overlaps(f: Feature, computed: nat, n: int) {
    f.start < computed + n && computed < f.End()
  }

  lemma StartsAscend(fs: seq<Feature>, i: nat, j: nat)
    requires Sorted(fs)
    ensures i <= j < |fs| ==> fs[i].start <= fs[j].start
  {
    assert i < j < |fs| ==> fs[i].End() <= fs[j].start;
  }

  /** Inputs selected before the window was cut at the start of input `i` lie in front of it. */
  lemma CutWindow(
      c: Cache, fs: seq<Feature>, computed: nat, asked: nat, n: int, i: nat, toCompute: seq<nat>, toLoad: seq<nat>, hashes: set<nat>)
    requires Sorted(fs) && i <= |fs| && Selected(c, fs, computed, asked, i, toCompute, toLoad, hashes)
    requires n == asked || (i < |fs| && n == Max(0, fs[i].start - computed) && n <= asked)
    requires i == |fs| || n < asked || fs[i].start >= computed + asked
    ensures Served(c, fs, computed, n, toCompute, toLoad)
    ensures forall k :: k in toCompute || k in toLoad ==> k < |fs| && Overlaps(fs[k], computed, n)
  {
    forall j | 0 <= j < |fs| && fs[j].EmbedsIn(computed, computed + n)
      ensures fs[j].ident in c.cached || exists k :: (k in toCompute || k in toLoad) && k < |fs| && fs[k].ident == fs[j].ident
    {
      StartsAscend(fs, i, j);
      assert fs[j].EmbedsIn(computed, computed + asked);
    }
    forall k | k in toCompute || k in toLoad ensures k < |fs| && Overlaps(fs[k], computed, n) {
      assert fs[k].EmbedsIn(computed, computed + asked);
      if n < asked {
        assert fs[k].End() <= fs[i].start;
      }
    }
  }

  lemma NoneSelected(c: Cache, fs: seq<Feature>, computed: nat, n: nat)
    ensures Selected(c, fs, computed, n, 0, [], [], {})
    ensures EmbedsOf(fs, []) == [] && Total(EmbedsOf(fs, [])) == 0
  {
  }

  lemma SkipOne(c: Cache, fs: seq<Feature>, computed: nat, n: nat, i: nat, toCompute: seq<nat>, toLoad: seq<nat>, hashes: set<nat>)
    requires i < |fs| && Selected(c, fs, computed, n, i, toCompute, toLoad, hashes)
    requires fs[i].EmbedsIn(computed, computed + n) ==> fs[i].ident in c.cached || fs[i].ident in hashes
    ensures Selected(c, fs, computed, n, i + 1, toCompute, toLoad, hashes)
  {
  }

  lemma SelectedFacts(
      c: Cache, fs: seq<Feature>, computed: nat, n: nat, seen: nat, toCompute: seq<nat>, toLoad: seq<nat>, hashes: set<nat>)
    requires seen <= |fs| && Selected(c, fs, computed, n, seen, toCompute, toLoad, hashes)
    ensures forall k :: k in toCompute || k in toLoad ==> k < |fs| && fs[k].ident !in c.cached
    ensures forall k :: k in toCompute ==> fs[k].ident !in c.remote
    ensures forall k :: k in toLoad ==> fs[k].ident in c.remote
    ensures NoDup(toCompute) && NoDup(toLoad)
  {
  }

  lemma Granted(c: Cache, fs: seq<Feature>, i: nat, budget: int, pending: nat)
    requires CacheOk(c, fs) && i < |fs| && CacheAsk(i, budget, pending) in c.room
    ensures fs[i].NumEmbeds() <= budget
  {
  }

  lemma NothingAsked(c: Cache, fs: seq<Feature>, computed: nat, n: nat)
    requires n == 0 || fs == []
    ensures Served(c, fs, computed, n, [], [])
  {
  }

  lemma PastIsPast(f: Feature, computed: nat, n: nat)
    requires f.End() <= computed
    ensures !f.EmbedsIn(computed, computed + n)
  {
  }

  /** Those of the listed inputs that lie in front of input `i`. */
  function Below(ids: seq<nat>, i: nat): (r: seq<nat>)
    ensures forall k :: k in r ==> k in ids && k < i
  {
    if ids == [] then []
    else
      var n := |ids| - 1;
      if ids[n] < i then Below(ids[..n], i) + [ids[n]] else Below(ids[..n], i)
  }

  /**
   * The cache granted room for input `i` when its turn came: with the budget
   * that those selected before had left, and all of them still to be stored.
   */
  ghost predicate HadRoom(c: Cache, fs: seq<Feature>, budget: int, toCompute: seq<nat>, toLoad: seq<nat>, i: nat)
    requires forall k :: k in toCompute || k in toLoad ==> k < |fs|
  {
    var computed, loaded := Total(EmbedsOf(fs, Below(toCompute, i))), Total(EmbedsOf(fs, Below(toLoad, i)));
    CacheAsk(i, budget - computed, computed + loaded) in c.room
  }

  ghost predicate AllHadRoom(c: Cache, fs: seq<Feature>, budget: int, toCompute: seq<nat>, toLoad: seq<nat>)
    requires forall k :: k in toCompute || k in toLoad ==> k < |fs|
  {
    forall i {:trigger HadRoom(c, fs, budget, toCompute, toLoad, i)} ::
      i in toCompute || i in toLoad ==> HadRoom(c, fs, budget, toCompute, toLoad, i)
  }

  lemma {:induction false} BelowAll(ids: seq<nat>, i: nat)
    requires forall k :: k in ids ==> k < i
    ensures Below(ids, i) == ids
  {
    if ids != [] {
      var n := |ids| - 1;
      assert ids == ids[..n] + [ids[n]];
      assert ids[n] in ids && forall k :: k in ids[..n] ==> k in ids;
      BelowAll(ids[..n], i);
    }
  }

  lemma BelowLater(ids: seq<nat>, i: nat, later: nat)
    requires i <= later
    ensures Below(ids + [later], i) == Below(ids, i)
  {
    assert (ids + [later])[..|ids|] == ids;
  }

  /** One more input is selected, behind all others. */
  lemma RoomForOne(c: Cache, fs: seq<Feature>, budget: int, toCompute: seq<nat>, toLoad: seq<nat>, i: nat, load: bool)
    requires i < |fs| && forall k :: k in toCompute || k in toLoad ==> k < i
    requires AllHadRoom(c, fs, budget, toCompute, toLoad)
    requires var computed, loaded := Total(EmbedsOf(fs, toCompute)), Total(EmbedsOf(fs, toLoad));
      CacheAsk(i, budget - computed, computed + loaded) in c.room
    ensures AllHadRoom(c, fs, budget, if load then toCompute else toCompute + [i], if load then toLoad + [i] else toLoad)
  {
    var a, b := if load then toCompute else toCompute + [i], if load then toLoad + [i] else toLoad;
    BelowAll(toCompute, i);
    BelowAll(toLoad, i);
    hide Total, EmbedsOf, Below, HadRoom;
    forall k | k in a || k in b ensures HadRoom(c, fs, budget, a, b, k) {
      BelowLater(toCompute, k, i);
      BelowLater(toLoad, k, i);
      if k != i {
        assert HadRoom(c, fs, budget, toCompute, toLoad, k);
        SameRoom(c, fs, budget, toCompute, toLoad, a, b, k);
      } else {
        RoomNow(c, fs, budget, toCompute, toLoad, a, b, i);
      }
    }
  }

  lemma RoomNow(
      c: Cache, fs: seq<Feature>, budget: int, toCompute: seq<nat>, toLoad: seq<nat>, a: seq<nat>, b: seq<nat>, i: nat)
    requires forall k :: k in toCompute || k in toLoad || k in a || k in b ==> k < |fs|
    requires Below(a, i) == toCompute && Below(b, i) == toLoad
    requires var computed, loaded := Total(EmbedsOf(fs, toCompute)), Total(EmbedsOf(fs, toLoad));
      CacheAsk(i, budget - computed, computed + loaded) in c.room
    ensures HadRoom(c, fs, budget, a, b, i)
  {
    hide Total, EmbedsOf;
  }

  lemma SameRoom(
      c: Cache, fs: seq<Feature>, budget: int, toCompute: seq<nat>, toLoad: seq<nat>, a: seq<nat>, b: seq<nat>, k: nat)
    requires forall x :: x in toCompute || x in toLoad || x in a || x in b ==> x < |fs|
    requires HadRoom(c, fs, budget, toCompute, toLoad, k)
    requires Below(a, k) == Below(toCompute, k) && Below(b, k) == Below(toLoad, k)
    ensures HadRoom(c, fs, budget, a, b, k)
  {
    hide Total, EmbedsOf;
  }

  lemma NobodyAsked(c: Cache, fs: seq<Feature>, budget: int)
    ensures AllHadRoom(c, fs, budget, [], [])
  {
  }

  /**
   * The returned window is never longer than asked; every input with an
   * embedding in it is cached, or selected, or shares its identifier with a
   * selected one; every selected input overlaps it, is not cached, got room in
   * the cache when its turn came and is selected once; the budget falls by
   * exactly what is to be computed; and the window is shortened only by an input
   * that blocks.
   */
  ghost predicate Answer(
      c: Cache, fs: seq<Feature>, computed: nat, asked: nat, budget: nat, toCompute: seq<nat>, n: int, left: int, toLoad: seq<nat>)
  {
    && 0 <= n <= asked && left >= 0
    && (forall k :: k in toCompute || k in toLoad ==> k < |fs|)
    && Served(c, fs, computed, n, toCompute, toLoad)
    && (forall k :: k in toCompute || k in toLoad ==> Overlaps(fs[k], computed, n) && fs[k].ident !in c.cached)
    && AllHadRoom(c, fs, budget, toCompute, toLoad)
    && (forall k :: k in toCompute ==> fs[k].ident !in c.remote)
    && (forall k :: k in toLoad ==> fs[k].ident in c.remote)
    && NoDup(toCompute) && NoDup(toLoad)
    && left == budget - Total(EmbedsOf(fs, toCompute))
    && (n < asked ==> exists i :: 0 <= i < |fs| && Blocks(c, fs, computed, asked, i, n, left, toCompute, toLoad))
  }

  lemma AllSeen(c: Cache, fs: seq<Feature>, computed: nat, n: nat, seen: nat, toCompute: seq<nat>, toLoad: seq<nat>, hashes: set<nat>)
    requires seen <= |fs| && Selected(c, fs, computed, n, seen, toCompute, toLoad, hashes)
    ensures forall k :: k in toCompute || k in toLoad ==> k < seen
  {
  }

  /** The loop. */
  method TrySchedule(c: Cache, fs: seq<Feature>, computed: nat, asked: nat, budget: nat)
    returns (toCompute: seq<nat>, n: nat, left: nat, toLoad: seq<nat>)
    requires Sorted(fs) && CacheOk(c, fs)
    ensures Answer(c, fs, computed, asked, budget, toCompute, n, left, toLoad)
  {
    hide Selected, Served, Overlaps, AllHadRoom, Total, EmbedsOf, Count, Sorted, CacheOk, NoDup;
    toCompute, n, left, toLoad := [], asked, budget, [];
    NoneSelected(c, fs, computed, asked);
    NobodyAsked(c, fs, budget);
    if asked == 0 || fs == [] {
      NothingAsked(c, fs, computed, asked);
      return;
    }
    var hashes: set<nat> := {};
    var pending := 0;
    var i := 0;
    while i < |fs|
      invariant 0 <= i <= |fs| && n == asked
      invariant Selected(c, fs, computed, asked, i, toCompute, toLoad, hashes)
      invariant forall k :: k in toCompute || k in toLoad ==> k < |fs|
      invariant AllHadRoom(c, fs, budget, toCompute, toLoad)
      invariant left == budget - Total(EmbedsOf(fs, toCompute))
      invariant pending == Total(EmbedsOf(fs, toCompute)) + Total(EmbedsOf(fs, toLoad))
    {
      var f := fs[i];
      if f.start >= computed + n {
        break;
      }
      if f.End() <= computed {
        // computed and stored in the KV cache
        PastIsPast(f, computed, n);
        SkipOne(c, fs, computed, n, i, toCompute, toLoad, hashes);
      } else if f.ident in hashes || f.ident in c.cached {
        // scheduled in this step, or cached by an earlier one
        SkipOne(c, fs, computed, n, i, toCompute, toLoad, hashes);
      } else if c.whole && computed < f.start && computed + n < f.End() {
        n := Max(0, f.start - computed);
        assert Blocks(c, fs, computed, asked, i, n, left, toCompute, toLoad);
        break;
      } else if CacheAsk(i, left, pending) !in c.room {
        n := if computed < f.start then f.start - computed else 0;
        assert Blocks(c, fs, computed, asked, i, n, left, toCompute, toLoad);
        break;
      } else {
        EmbedsInRange(f, computed, n);
        var a, b := Max(0, computed - f.start), Min(|f.mask|, computed + n - f.start);
        if Count(f.mask[..b]) - Count(f.mask[..a]) != 0 {
          AllSeen(c, fs, computed, n, i, toCompute, toLoad, hashes);
          RoomForOne(c, fs, budget, toCompute, toLoad, i, f.ident in c.remote);
          AddOne(c, fs, computed, n, i, toCompute, toLoad, hashes, f.ident in c.remote);
          hashes := hashes + {f.ident};
          pending := pending + f.NumEmbeds();
          if f.ident in c.remote {
            EmbedsSnoc(fs, toLoad, i);
            toLoad := toLoad + [i];
          } else {
            EmbedsSnoc(fs, toCompute, i);
            Granted(c, fs, i, left, pending - f.NumEmbeds());
            left := left - f.NumEmbeds();
            toCompute := toCompute + [i];
          }
        } else {
          SkipOne(c, fs, computed, n, i, toCompute, toLoad, hashes);
        }
      }
      i := i + 1;
    }
    CutWindow(c, fs, computed, asked, n, i, toCompute, toLoad, hashes);
    SelectedFacts(c, fs, computed, asked, i, toCompute, toLoad, hashes);
  }

  /** `plan` is what the question can be answered with. */
  ghost predicate Answered(c: Cache, fs: seq<Feature>, ask: EncoderAsk, plan: EncoderPlan)
    requires ask.computed >= 0 && ask.n >= 0 && ask.budget >= 0
  {
    exists toCompute, toLoad ::
      && Answer(c, fs, ask.computed, ask.n, ask.budget, toCompute, plan.n, plan.budget, toLoad)
      && plan.embeds == EmbedsOf(fs, toCompute)
  }

  /** The plan `schedule` works with keeps the contract it relies on. */
  method Plan(c: Cache, fs: seq<Feature>, ask: EncoderAsk) returns (plan: EncoderPlan)
    requires Sorted(fs) && CacheOk(c, fs) && ask.computed >= 0 && ask.n >= 0 && ask.budget >= 0
    ensures PlanOk(ask, plan) && Answered(c, fs, ask, plan)
  {
    var toCompute, n, left, toLoad := TrySchedule(c, fs, ask.computed, ask.n, ask.budget);
    plan := EncoderPlan(n, left, EmbedsOf(fs, toCompute));
  }
}
