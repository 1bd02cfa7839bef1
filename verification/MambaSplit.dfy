/** Block-aligned prefill chunks for Mamba layers (`_mamba_block_aligned_split`). */
module MambaSplit {
  import opened Seqs
  import opened Arithmetic

  /** What stays fixed while a request is being prefilled. */
  datatype Prefill = Prefill(numPrompt: nat, numTokens: nat, blockSize: nat, eagle: bool) {
    ghost predicate Valid() { blockSize > 0 && numPrompt <= numTokens }
  }

  /** The last position whose Mamba state is worth caching. */
  function LastCachePosition(f: Prefill): int
    requires f.blockSize > 0
  {
    var last := f.numTokens - f.numTokens % f.blockSize;
    if f.eagle then Max(last - f.blockSize, 0) else last
  }

  function Split(f: Prefill, computed: int, n: int): int
    requires f.blockSize > 0
  {
    var last := LastCachePosition(f);
    if computed >= Max(f.numPrompt, f.numTokens - 1) then n
    else if computed + n < last then n / f.blockSize * f.blockSize
    else if computed < last < computed + n then last - computed
    else n
  }

  method MambaBlockAlignedSplit(f: Prefill, computed: int, offered: int) returns (n: int)
    requires f.blockSize > 0
    ensures n == Split(f, computed, offered)
  {
    n := offered;
    if computed < Max(f.numPrompt, f.numTokens - 1) {
      var last := f.numTokens - f.numTokens % f.blockSize;
      if f.eagle {
        last := Max(last - f.blockSize, 0);
      }
      var after := computed + n;
      if after < last {
        n := n / f.blockSize * f.blockSize;
      } else if computed < last && last < after {
        n := last - computed;
      }
    }
  }

  lemma SplitBounds(f: Prefill, computed: int, n: nat)
    requires f.blockSize > 0
    ensures 0 <= Split(f, computed, n) <= n
  {
    FloorFacts(n, f.blockSize);
  }

  ghost predicate Aligned(x: int, b: int)
    requires b > 0
  {
    exists q: int :: x == q * b
  }

  lemma NextMultiple(p: int, q: int, b: nat)
    requires b > 0 && p * b < q * b
    ensures p < q && p * b + b <= q * b
  {
    if p < q {
      NonNegative(q - p - 1, b);
      Distribute(q - p, 1, b);
      Distribute(q, p, b);
    } else {
      NonNegative(p - q, b);
      Distribute(p, q, b);
    }
  }

  lemma AlignedArith(x: int, y: int, b: int)
    requires b > 0 && Aligned(x, b) && Aligned(y, b)
    ensures Aligned(x + y, b)
    ensures x < y ==> x + b <= y
  {
    var p: int :| x == p * b;
    var q: int :| y == q * b;
    assert x + y == (p + q) * b;
    if x < y {
      NextMultiple(p, q, b);
    }
  }

  lemma FloorFacts(n: nat, b: nat)
    requires b > 0
    ensures var m := n / b * b;
            0 <= m <= n && n - m < b && Aligned(m, b) && (n >= b ==> m >= b)
  {
    var q := n / b;
    assert n == b * q + n % b;
    assert q >= 0 by {
      if q < 0 { NextMultiple(q, 0, b); }
    }
    if n >= b {
      NextMultiple(0, 1, b);
      assert q >= 1;
      assert (q - 1) * b >= 0;
    }
  }

  lemma LastIsAligned(f: Prefill)
    requires f.blockSize > 0
    ensures Aligned(LastCachePosition(f), f.blockSize)
    ensures 0 <= LastCachePosition(f) <= f.numTokens
    ensures LastCachePosition(f) == f.numTokens ==> !f.eagle || f.numTokens == 0
  {
    var b := f.blockSize;
    var q := f.numTokens / b;
    assert f.numTokens == b * q + f.numTokens % b;
    assert f.numTokens - f.numTokens % b == q * b;
    assert q * b - b == (q - 1) * b;
    assert 0 == 0 * b;
  }

  /** The one situation in which a chunk may step over the last cache position. */
  predicate DecodesPastCache(f: Prefill, computed: int, n: int) {
    f.blockSize == 1 && !f.eagle && f.numPrompt < f.numTokens && computed == f.numTokens - 1 && n > 1
  }

  /** Below the cache position the guard is closed only for the last token of one-token blocks. */
  lemma GuardOpen(f: Prefill, computed: int)
    requires f.Valid()
    requires 0 <= computed < LastCachePosition(f) && Aligned(computed, f.blockSize)
    requires computed >= Max(f.numPrompt, f.numTokens - 1)
    ensures f.blockSize == 1 && !f.eagle && f.numPrompt < f.numTokens && computed == f.numTokens - 1
    ensures LastCachePosition(f) == computed + 1
  {
    LastIsAligned(f);
    AlignedArith(computed, LastCachePosition(f), f.blockSize);
  }

  lemma OneTokenBlocks(f: Prefill)
    requires f.blockSize == 1 && !f.eagle
    ensures LastCachePosition(f) == f.numTokens
  {
  }

  /**
   * One chunk from an aligned position at or below the last cache position:
   * it never exceeds the offer, an offer of a whole block makes progress (by a
   * block, or up to the last cache position), and it stays aligned and does
   * not jump over that position, except exactly when `DecodesPastCache`. Less
   * than a block of the offer is given up in front of that position, only what
   * would lead beyond it when it is within reach, and nothing behind it.
   */
  lemma ChunkStep(f: Prefill, computed: int, n: nat)
    requires f.Valid()
    requires 0 <= computed <= LastCachePosition(f) && Aligned(computed, f.blockSize)
    ensures var last := LastCachePosition(f);
            var after := computed + Split(f, computed, n);
            && computed <= after <= computed + n
            && (n >= f.blockSize ==> after >= Min(last, computed + f.blockSize) && after > computed)
            && (computed < last && after > last <==> DecodesPastCache(f, computed, n))
            && (after <= last ==> Aligned(after, f.blockSize))
            && (computed + n < last ==> after > computed + n - f.blockSize)
            && (computed < last <= computed + n ==> after == if DecodesPastCache(f, computed, n) then computed + n else last)
            && (computed == last ==> after == computed + n)
  {
    var b, last := f.blockSize, LastCachePosition(f);
    LastIsAligned(f);
    if f.blockSize == 1 && !f.eagle {
      OneTokenBlocks(f);
    }
    if computed >= Max(f.numPrompt, f.numTokens - 1) {
      if computed < last {
        GuardOpen(f, computed);
        assert computed + n == (computed + n) * b;
      }
    } else if computed + n < last {
      FloorFacts(n, b);
      AlignedArith(computed, n / b * b, b);
    } else {
      AlignedArith(computed, last, b);
    }
  }

  /** Where the prefill stands after `offers`, from `start`. */
  function Position(f: Prefill, start: int, offers: seq<nat>): int
    requires f.blockSize > 0
  {
    if offers == [] then start
    else
      var p := Position(f, start, offers[..|offers| - 1]);
      p + Split(f, p, offers[|offers| - 1])
  }

  ghost predicate NeverDecodesPastCache(f: Prefill, start: int, offers: seq<nat>)
    requires f.blockSize > 0
  {
    forall k :: 0 <= k < |offers| ==> !DecodesPastCache(f, Position(f, start, offers[..k]), offers[k])
  }

  /**
   * A whole prefill, whatever chunk sizes are offered: every computed count up
   * to the last cache position is block-aligned, and that position is visited
   * before anything beyond it is computed.
   */
  lemma {:induction false} PrefillStaysAligned(f: Prefill, start: int, offers: seq<nat>)
    requires f.Valid() && 0 <= start <= LastCachePosition(f) && Aligned(start, f.blockSize)
    requires NeverDecodesPastCache(f, start, offers)
    ensures var p := Position(f, start, offers);
            && start <= p
            && (p <= LastCachePosition(f) ==> Aligned(p, f.blockSize))
            && (p > LastCachePosition(f) ==>
                  exists k :: 0 <= k < |offers| && Position(f, start, offers[..k]) == LastCachePosition(f))
  {
    if offers != [] {
      var n := |offers| - 1;
      var front := offers[..n];
      assert forall k :: 0 <= k <= n ==> offers[..k] == front[..k];
      PrefillStaysAligned(f, start, front);
      var p, last := Position(f, start, front), LastCachePosition(f);
      if p <= last {
        ChunkStep(f, p, offers[n]);
        assert offers[..n] == front;
      } else {
        var k :| 0 <= k < |front| && Position(f, start, front[..k]) == last;
        assert offers[..k] == front[..k];
        SplitPastCache(f, p, offers[n]);
      }
    }
  }

  lemma SplitPastCache(f: Prefill, p: int, n: nat)
    requires f.blockSize > 0 && p >= LastCachePosition(f)
    ensures Split(f, p, n) == n
  {
  }

  /** With a whole block offered each time, the cache position is reached in a bounded number of chunks. */
  lemma {:induction false} PrefillReachesCache(f: Prefill, start: int, offers: seq<nat>, target: int)
    requires f.Valid() && 0 <= start <= LastCachePosition(f) && Aligned(start, f.blockSize)
    requires NeverDecodesPastCache(f, start, offers)
    requires forall k :: 0 <= k < |offers| ==> offers[k] >= f.blockSize
    requires target == start + |offers| * f.blockSize
    ensures Position(f, start, offers) >= Min(LastCachePosition(f), target)
  {
    if offers != [] {
      var n := |offers| - 1;
      var front := offers[..n];
      Distribute(n, 1, f.blockSize);
      assert forall k :: 0 <= k <= n ==> offers[..k] == front[..k];
      PrefillReachesCache(f, start, front, target - f.blockSize);
      PrefillStaysAligned(f, start, front);
      OneMoreChunk(f, Position(f, start, front), offers[n]);
    }
  }

  lemma OneMoreChunk(f: Prefill, p: int, n: nat)
    requires f.Valid() && 0 <= p && n >= f.blockSize
    requires p <= LastCachePosition(f) ==> Aligned(p, f.blockSize)
    ensures p + Split(f, p, n) >= Min(LastCachePosition(f), p + f.blockSize)
  {
    if p <= LastCachePosition(f) {
      ChunkStep(f, p, n);
    } else {
      SplitPastCache(f, p, n);
    }
  }

  /** `DecodesPastCache` does happen: the guard treats the last token as decoding. */
  lemma DecodesPastCacheExample()
    ensures exists f: Prefill, computed: int, n: int ::
      && f.Valid() && 0 <= computed < LastCachePosition(f) && Aligned(computed, f.blockSize)
      && computed + Split(f, computed, n) > LastCachePosition(f)
  {
    var f := Prefill(3, 4, 1, false);
    assert 3 == 3 * f.blockSize;
    assert Split(f, 3, 2) == 2;
    assert LastCachePosition(f) == 4;
  }
}
