/**
 * Strided views of the raw KV cache buffer (attn_utils.py): where the elements
 * of attention and Mamba layers lie, and that they do not collide.
 */
module KvLayout {
  import opened Seqs
  import opened Arithmetic

  // ------------------------------------------------------------------ products and dots

  function Prod(shape: seq<nat>): nat {
    if shape == [] then 1 else shape[0] * Prod(shape[1..])
  }

  predicate InShape(shape: seq<nat>, idx: seq<nat>) {
    |idx| == |shape| && forall k :: 0 <= k < |idx| ==> idx[k] < shape[k]
  }

  /** Offset of an element from the start of a view. */
  function Dot(idx: seq<nat>, stride: seq<nat>): nat
    requires |idx| == |stride|
  {
    if idx == [] then 0 else idx[0] * stride[0] + Dot(idx[1..], stride[1..])
  }

  /** Strides of a contiguous (row-major) tensor. */
  function Strides(shape: seq<nat>): (s: seq<nat>)
    ensures |s| == |shape|
  {
    if shape == [] then [] else [Prod(shape[1..])] + Strides(shape[1..])
  }

  /** Two digits: `a * m + x` determines `a` and `x`. */
  lemma Digits(a: nat, x: nat, b: nat, y: nat, m: nat)
    requires x < m && y < m && a * m + x == b * m + y
    ensures a == b && x == y
  {
    if a < b {
      Below(a, b, m);
    } else if b < a {
      Below(b, a, m);
    }
  }

  /** A view whose offsets are exactly 0 .. number of elements - 1, each once. */
  ghost predicate Tight(shape: seq<nat>, stride: seq<nat>)
    requires |stride| == |shape|
  {
    && (forall idx :: InShape(shape, idx) ==> Dot(idx, stride) < Prod(shape))
    && (forall a, b :: InShape(shape, a) && InShape(shape, b) && Dot(a, stride) == Dot(b, stride) ==> a == b)
    && (forall x {:trigger Reached(shape, stride, x)} :: 0 <= x < Prod(shape) ==> Reached(shape, stride, x))
  }

  ghost predicate Reached(shape: seq<nat>, stride: seq<nat>, x: nat)
    requires |stride| == |shape|
  {
    exists idx :: InShape(shape, idx) && Dot(idx, stride) == x
  }

  lemma Tail(shape: seq<nat>, idx: seq<nat>)
    requires shape != [] && InShape(shape, idx)
    ensures InShape(shape[1..], idx[1..]) && idx == [idx[0]] + idx[1..]
  {
  }

  /** Adding an outer dimension in front of a tight view whose stride is the size of the view. */
  lemma {:induction false} OuterBound(shape: seq<nat>, stride: seq<nat>, idx: seq<nat>)
    requires shape != [] && |stride| == |shape| && Tight(shape[1..], stride[1..]) && stride[0] == Prod(shape[1..])
    requires InShape(shape, idx)
    ensures Dot(idx, stride) < Prod(shape)
  {
    Tail(shape, idx);
    Below(idx[0], shape[0], stride[0]);
  }

  lemma {:induction false} OuterInjective(shape: seq<nat>, stride: seq<nat>, a: seq<nat>, b: seq<nat>)
    requires shape != [] && |stride| == |shape| && Tight(shape[1..], stride[1..]) && stride[0] == Prod(shape[1..])
    requires InShape(shape, a) && InShape(shape, b) && Dot(a, stride) == Dot(b, stride)
    ensures a == b
  {
    Tail(shape, a);
    Tail(shape, b);
    Digits(a[0], Dot(a[1..], stride[1..]), b[0], Dot(b[1..], stride[1..]), stride[0]);
  }

  lemma Monotone(x: nat, y: nat, m: nat)
    ensures x <= y ==> x * m <= y * m
  {
    if x <= y {
      Distribute(y, x, m);
      assert (y - x) * m >= 0;
    }
  }

  lemma TwoDigits(x: nat, m: nat, n: nat) returns (q: nat, r: nat)
    requires x < n * m
    ensures x == q * m + r && r < m && q < n
  {
    assert m > 0;
    q, r := x / m, x % m;
    assert x == m * q + r;
    Monotone(n, q, m);
  }

  lemma {:induction false} OuterOnto(shape: seq<nat>, stride: seq<nat>, x: nat)
    requires shape != [] && |stride| == |shape| && Tight(shape[1..], stride[1..]) && stride[0] == Prod(shape[1..])
    requires x < Prod(shape)
    ensures Reached(shape, stride, x)
  {
    var q, r := TwoDigits(x, stride[0], shape[0]);
    assert Reached(shape[1..], stride[1..], r);
    var rest :| InShape(shape[1..], rest) && Dot(rest, stride[1..]) == r;
    var idx := [q] + rest;
    assert idx[1..] == rest;
    assert InShape(shape, idx) && Dot(idx, stride) == x;
  }

  lemma OuterTight(shape: seq<nat>, stride: seq<nat>)
    requires shape != [] && |stride| == |shape| && Tight(shape[1..], stride[1..]) && stride[0] == Prod(shape[1..])
    ensures Tight(shape, stride)
  {
    forall idx | InShape(shape, idx) ensures Dot(idx, stride) < Prod(shape) {
      OuterBound(shape, stride, idx);
    }
    forall a, b | InShape(shape, a) && InShape(shape, b) && Dot(a, stride) == Dot(b, stride) ensures a == b {
      OuterInjective(shape, stride, a, b);
    }
    forall x | 0 <= x < Prod(shape) ensures Reached(shape, stride, x) {
      OuterOnto(shape, stride, x);
    }
  }

  /** A contiguous view visits every element once. */
  lemma {:induction false} ContiguousTight(shape: seq<nat>)
    ensures Tight(shape, Strides(shape))
  {
    if shape == [] {
      assert forall idx :: InShape(shape, idx) ==> idx == [];
      assert InShape(shape, []) && Dot([], Strides(shape)) == 0;
    } else {
      ContiguousTight(shape[1..]);
      var stride := Strides(shape);
      assert stride[1..] == Strides(shape[1..]);
      OuterTight(shape, stride);
    }
  }

  // ------------------------------------------------------------------- permuted dimensions

  /** `stride_order` lists every dimension once. */
  ghost predicate Permutation(order: seq<nat>) {
    NoDup(order) && forall i :: 0 <= i < |order| ==> order[i] < |order| && i in order
  }

  /** `inv` undoes `order`. */
  ghost predicate Inverse(order: seq<nat>, inv: seq<nat>) {
    && |inv| == |order|
    && forall i :: 0 <= i < |order| ==> order[i] < |order| && inv[i] < |order| && inv[order[i]] == i && order[inv[i]] == i
  }

  /** The tuple of `s[order[i]]`. */
  function Reorder<T>(s: seq<T>, order: seq<nat>): (r: seq<T>)
    requires |order| == |s| && forall i :: 0 <= i < |order| ==> order[i] < |s|
    ensures |r| == |s| && forall i :: 0 <= i < |s| ==> r[i] == s[order[i]]
  {
    seq(|s|, i requires 0 <= i < |s| => s[order[i]])
  }

  /** `order.index(i)`. */
  method IndexOf(order: seq<nat>, x: nat) returns (k: nat)
    requires x in order
    ensures k < |order| && order[k] == x
  {
    k := 0;
    while order[k] != x
      invariant 0 <= k < |order| && x !in order[..k]
      decreases |order| - k
    {
      assert order == order[..k] + [order[k]] + order[k + 1..];
      k := k + 1;
    }
  }

  /** `inv_order`, for a stride order that is a permutation. */
  method InverseOrder(order: seq<nat>) returns (inv: seq<nat>)
    requires Permutation(order)
    ensures Inverse(order, inv)
  {
    inv := [];
    while |inv| < |order|
      invariant |inv| <= |order|
      invariant forall i :: 0 <= i < |inv| ==> inv[i] < |order| && order[inv[i]] == i
    {
      assert |inv| in order;
      var k := IndexOf(order, |inv|);
      inv := inv + [k];
    }
    forall i | 0 <= i < |order| ensures inv[order[i]] == i {
      assert order[inv[order[i]]] == order[i];
    }
  }

  /** Permuting by `stride_order` and then by `inv_order` restores the logical shape. */
  lemma ReorderTwice<T>(s: seq<T>, order: seq<nat>, inv: seq<nat>)
    requires Inverse(order, inv) && |s| == |order|
    ensures Reorder(Reorder(s, order), inv) == s
    ensures Reorder(Reorder(s, inv), order) == s
  {
  }

  // Sums and products do not depend on the order of their terms.

  lemma {:induction false} TotalRemoveAt(t: seq<nat>, k: nat)
    requires k < |t|
    ensures Total(t) == Total(RemoveAt(t, k)) + t[k]
  {
    var n := |t| - 1;
    if k < n {
      TotalRemoveAt(t[..n], k);
      assert RemoveAt(t, k)[..n - 1] == RemoveAt(t[..n], k);
    } else {
      assert RemoveAt(t, k) == t[..n];
    }
  }

  lemma {:induction false} ProdRemoveAt(s: seq<nat>, k: nat)
    requires k < |s|
    ensures Prod(s) == Prod(RemoveAt(s, k)) * s[k]
  {
    if k > 0 {
      ProdRemoveAt(s[1..], k - 1);
      assert RemoveAt(s, k)[1..] == RemoveAt(s[1..], k - 1);
      Associative(s[0], Prod(RemoveAt(s[1..], k - 1)), s[k]);
    } else {
      assert RemoveAt(s, k) == s[1..];
    }
  }

  lemma Associative(x: nat, y: nat, z: nat)
    ensures x * (y * z) == (x * y) * z
  {
  }

  /** `inv` without its last entry, over the dimensions that are left. */
  function Shrink(inv: seq<nat>): (r: seq<nat>)
    requires inv != []
    ensures |r| == |inv| - 1
  {
    var n := |inv| - 1;
    seq(n, i requires 0 <= i < n => if inv[i] < inv[n] then inv[i] else if inv[i] > 0 then inv[i] - 1 else 0)
  }

  ghost predicate OneToOne(inv: seq<nat>) {
    NoDup(inv) && forall i :: 0 <= i < |inv| ==> inv[i] < |inv|
  }

  lemma ShrinkOneToOne<T>(s: seq<T>, inv: seq<nat>)
    requires inv != [] && OneToOne(inv) && |s| == |inv|
    ensures OneToOne(Shrink(inv))
    ensures var n := |inv| - 1; Reorder(RemoveAt(s, inv[n]), Shrink(inv)) == Reorder(s, inv)[..n]
  {
    var n := |inv| - 1;
    var r := Shrink(inv);
    forall i | 0 <= i < n ensures inv[i] != inv[n] && r[i] < n && RemoveAt(s, inv[n])[r[i]] == s[inv[i]] {
    }
    forall i, j | 0 <= i < j < n ensures r[i] != r[j] {
      assert inv[i] != inv[j];
    }
  }

  lemma {:induction false} TotalReorder(t: seq<nat>, inv: seq<nat>)
    requires OneToOne(inv) && |t| == |inv|
    ensures Total(Reorder(t, inv)) == Total(t)
    decreases |t|
  {
    if t != [] {
      var k := inv[|inv| - 1];
      ShrinkOneToOne(t, inv);
      TotalReorder(RemoveAt(t, k), Shrink(inv));
      TotalRemoveAt(t, k);
    } else {
      assert Reorder(t, inv) == t;
    }
  }

  lemma {:induction false} ProdReorder(s: seq<nat>, inv: seq<nat>)
    requires OneToOne(inv) && |s| == |inv|
    ensures Prod(Reorder(s, inv)) == Prod(s)
    decreases |s|
  {
    if s != [] {
      var n := |inv| - 1;
      var r := Reorder(s, inv);
      ShrinkOneToOne(s, inv);
      ProdReorder(RemoveAt(s, inv[n]), Shrink(inv));
      ProdRemoveAt(s, inv[n]);
      ProdRemoveAt(r, n);
      assert RemoveAt(r, n) == r[..n];
    } else {
      assert Reorder(s, inv) == s;
    }
  }

  function Terms(idx: seq<nat>, stride: seq<nat>): (t: seq<nat>)
    requires |idx| == |stride|
    ensures |t| == |idx| && forall k :: 0 <= k < |idx| ==> t[k] == idx[k] * stride[k]
  {
    seq(|idx|, k requires 0 <= k < |idx| => assert idx[k] * stride[k] >= 0; idx[k] * stride[k])
  }

  lemma {:induction false} TotalCons(x: nat, t: seq<nat>)
    ensures Total([x] + t) == x + Total(t)
  {
    if t == [] {
      assert ([x] + t)[..0] == [];
    } else {
      var n := |t| - 1;
      TotalCons(x, t[..n]);
      assert ([x] + t)[..n + 1] == [x] + t[..n];
    }
  }

  lemma {:induction false} DotIsTotal(idx: seq<nat>, stride: seq<nat>)
    requires |idx| == |stride|
    ensures Dot(idx, stride) == Total(Terms(idx, stride))
  {
    if idx != [] {
      DotIsTotal(idx[1..], stride[1..]);
      assert Terms(idx, stride) == [idx[0] * stride[0]] + Terms(idx[1..], stride[1..]);
      TotalCons(idx[0] * stride[0], Terms(idx[1..], stride[1..]));
    }
  }

  lemma InverseOneToOne(order: seq<nat>, inv: seq<nat>)
    requires Inverse(order, inv)
    ensures OneToOne(inv) && OneToOne(order)
  {
    forall i, j | 0 <= i < j < |inv| ensures inv[i] != inv[j] && order[i] != order[j] {
      assert order[inv[i]] == i && order[inv[j]] == j && inv[order[i]] == i && inv[order[j]] == j;
    }
  }

  /** Permuting a view moves no element: logical index `idx` is the physical index `Reorder(idx, order)`. */
  lemma {:induction false} PermutedDot(stride: seq<nat>, order: seq<nat>, inv: seq<nat>, idx: seq<nat>)
    requires Inverse(order, inv) && |stride| == |order| && |idx| == |order|
    ensures Dot(idx, Reorder(stride, inv)) == Dot(Reorder(idx, order), stride)
  {
    var phys := Reorder(idx, order);
    InverseOneToOne(order, inv);
    DotIsTotal(idx, Reorder(stride, inv));
    DotIsTotal(phys, stride);
    ReorderTwice(idx, order, inv);
    assert Terms(idx, Reorder(stride, inv)) == Reorder(Terms(phys, stride), inv);
    TotalReorder(Terms(phys, stride), inv);
  }

  lemma PermutedIndex(shape: seq<nat>, order: seq<nat>, inv: seq<nat>, idx: seq<nat>)
    requires Inverse(order, inv) && |shape| == |order|
    ensures InShape(Reorder(shape, inv), idx) ==> InShape(shape, Reorder(idx, order)) && Reorder(Reorder(idx, order), inv) == idx
    ensures InShape(shape, idx) ==> InShape(Reorder(shape, inv), Reorder(idx, inv)) && Reorder(Reorder(idx, inv), order) == idx
  {
  }

  /** So a permuted tight view is tight. */
  lemma PermutedTight(shape: seq<nat>, stride: seq<nat>, order: seq<nat>, inv: seq<nat>)
    requires Inverse(order, inv) && |shape| == |stride| == |order| && Tight(shape, stride)
    ensures Tight(Reorder(shape, inv), Reorder(stride, inv))
  {
    var s, t := Reorder(shape, inv), Reorder(stride, inv);
    InverseOneToOne(order, inv);
    ProdReorder(shape, inv);
    forall idx | InShape(s, idx)
      ensures InShape(shape, Reorder(idx, order)) && Dot(idx, t) == Dot(Reorder(idx, order), stride)
      ensures Reorder(Reorder(idx, order), inv) == idx && Dot(idx, t) < Prod(s)
    {
      PermutedIndex(shape, order, inv, idx);
      PermutedDot(stride, order, inv, idx);
    }
    forall x | 0 <= x < Prod(s) ensures Reached(s, t, x) {
      assert Reached(shape, stride, x);
      var phys :| InShape(shape, phys) && Dot(phys, stride) == x;
      PermutedIndex(shape, order, inv, phys);
      PermutedDot(stride, order, inv, Reorder(phys, inv));
      assert InShape(s, Reorder(phys, inv)) && Dot(Reorder(phys, inv), t) == x;
    }
  }

  /**
   * Attention layers without padding: the view handed out has the logical shape
   * the backend asked for and visits every element of the buffer once.
   */
  lemma {:induction false} AttentionView(shape: seq<nat>, order: seq<nat>, inv: seq<nat>)
    requires Inverse(order, inv) && |shape| == |order|
    ensures var phys := Reorder(shape, order);
            && Reorder(phys, inv) == shape
            && Prod(phys) == Prod(shape)
            && Tight(shape, Reorder(Strides(phys), inv))
  {
    var phys := Reorder(shape, order);
    ReorderTwice(shape, order, inv);
    InverseOneToOne(order, inv);
    ProdReorder(shape, order);
    ContiguousTight(phys);
    PermutedTight(phys, Strides(phys), order, inv);
  }

  // --------------------------------------------------------------------------- padded pages

  /** Strides of a view whose pages are padded to `page` elements; `block` is the block dimension. */
  function PaddedStrides(phys: seq<nat>, block: nat, page: nat): (s: seq<nat>)
    requires block < |phys|
    ensures |s| == |phys|
  {
    Strides(phys)[block := page]
  }

  lemma {:induction false} PaddedElement(phys: seq<nat>, page: nat, idx: seq<nat>)
    requires phys != [] && Prod(phys[1..]) <= page && InShape(phys, idx)
    ensures var d := Dot(idx, PaddedStrides(phys, 0, page));
            && d == idx[0] * page + Dot(idx[1..], Strides(phys[1..]))
            && Dot(idx[1..], Strides(phys[1..])) < page
            && idx[0] * page <= d && d + 1 <= idx[0] * page + page <= phys[0] * page
  {
    ContiguousTight(phys[1..]);
    Tail(phys, idx);
    assert PaddedStrides(phys, 0, page)[1..] == Strides(phys[1..]);
    Below(idx[0], phys[0], page);
  }

  lemma {:induction false} PaddedInjective(phys: seq<nat>, page: nat, x: seq<nat>, y: seq<nat>)
    requires phys != [] && Prod(phys[1..]) <= page && InShape(phys, x) && InShape(phys, y)
    requires Dot(x, PaddedStrides(phys, 0, page)) == Dot(y, PaddedStrides(phys, 0, page))
    ensures x == y
  {
    PaddedElement(phys, page, x);
    PaddedElement(phys, page, y);
    var stride := Strides(phys[1..]);
    Tail(phys, x);
    Tail(phys, y);
    ContiguousTight(phys[1..]);
    hide PaddedStrides, Strides;
    Digits(x[0], Dot(x[1..], stride), y[0], Dot(y[1..], stride), page);
    hide Dot, Prod;
    assert x[1..] == y[1..];
  }

  /**
   * With the block dimension outermost and pages at least as large as a block,
   * the padded view stays in the buffer of `shape[0]` pages, each element in the
   * page of its block, and no two elements collide.
   */
  lemma {:induction false} PaddedView(shape: seq<nat>, order: seq<nat>, inv: seq<nat>, page: nat, a: seq<nat>, b: seq<nat>)
    requires shape != [] && Inverse(order, inv) && |shape| == |order| && inv[0] == 0
    requires Prod(Reorder(shape, order)[1..]) <= page && InShape(shape, a) && InShape(shape, b)
    ensures var stride := Reorder(PaddedStrides(Reorder(shape, order), inv[0], page), inv);
            && a[0] * page <= Dot(a, stride) < a[0] * page + page <= shape[0] * page
            && (a != b ==> Dot(a, stride) != Dot(b, stride))
  {
    hide Dot, Prod, Strides, PaddedStrides;
    var phys := Reorder(shape, order);
    var padded := PaddedStrides(phys, 0, page);
    ReorderTwice(shape, order, inv);
    PermutedIndex(phys, order, inv, a);
    PermutedIndex(phys, order, inv, b);
    var x, y := Reorder(a, order), Reorder(b, order);
    PermutedDot(padded, order, inv, a);
    PermutedDot(padded, order, inv, b);
    assert order[0] == 0 && x[0] == a[0] && phys[0] == shape[0] by {
      assert order[inv[0]] == 0;
    }
    PaddedElement(phys, page, x);
    if Dot(x, padded) == Dot(y, padded) {
      PaddedInjective(phys, page, x, y);
    }
  }

  /** Block b of a padded view stays in page b, and no two elements share a place. */
  ghost predicate InPages(shape: seq<nat>, stride: seq<nat>, page: nat)
    requires |stride| == |shape| && shape != []
  {
    forall a, b :: InShape(shape, a) && InShape(shape, b) ==>
      && a[0] * page <= Dot(a, stride) < a[0] * page + page <= shape[0] * page
      && (a != b ==> Dot(a, stride) != Dot(b, stride))
  }

  ghost predicate Injective(shape: seq<nat>, stride: seq<nat>)
    requires |stride| == |shape|
  {
    forall a, b :: InShape(shape, a) && InShape(shape, b) && a != b ==> Dot(a, stride) != Dot(b, stride)
  }

  predicate NonEmpty(shape: seq<nat>) { forall k :: 0 <= k < |shape| ==> shape[k] > 0 }

  lemma PaddedInPages(shape: seq<nat>, order: seq<nat>, inv: seq<nat>, page: nat)
    requires shape != [] && Inverse(order, inv) && |shape| == |order| && inv[0] == 0
    requires Prod(Reorder(shape, order)[1..]) <= page
    ensures InPages(shape, Reorder(PaddedStrides(Reorder(shape, order), 0, page), inv), page)
  {
    var stride := Reorder(PaddedStrides(Reorder(shape, order), 0, page), inv);
    forall a, b | InShape(shape, a) && InShape(shape, b)
      ensures a[0] * page <= Dot(a, stride) < a[0] * page + page <= shape[0] * page && (a != b ==> Dot(a, stride) != Dot(b, stride))
    {
      PaddedView(shape, order, inv, page, a, b);
    }
  }

  /** The offset of the first element of a page, unless the pages are too large to matter, is taken inside page 0. */
  lemma FirstOfPage(phys: seq<nat>, page: nat) returns (a: seq<nat>)
    requires phys != [] && NonEmpty(phys) && page < Prod(phys[1..])
    ensures InShape(phys, a) && a[0] == 0 && Dot(a, PaddedStrides(phys, 0, page)) == page
  {
    ContiguousTight(phys[1..]);
    assert Reached(phys[1..], Strides(phys[1..]), page);
    var rest :| InShape(phys[1..], rest) && Dot(rest, Strides(phys[1..])) == page;
    a := [0] + rest;
    assert a[1..] == rest && PaddedStrides(phys, 0, page)[1..] == Strides(phys[1..]);
  }

  lemma {:induction false} DotZeros(n: nat, stride: seq<nat>)
    requires |stride| == n
    ensures Dot(seq(n, _ => 0), stride) == 0
  {
    if n > 0 {
      assert seq(n, _ => 0)[1..] == seq(n - 1, _ => 0);
      DotZeros(n - 1, stride[1..]);
    }
  }

  /** With pages too small for a block, the second page begins inside the first block. */
  lemma SmallPagesCollide(phys: seq<nat>, page: nat) returns (a: seq<nat>, b: seq<nat>)
    requires |phys| > 0 && phys[0] >= 2 && NonEmpty(phys) && page < Prod(phys[1..])
    ensures InShape(phys, a) && InShape(phys, b) && a != b
    ensures Dot(a, PaddedStrides(phys, 0, page)) == Dot(b, PaddedStrides(phys, 0, page))
  {
    a := FirstOfPage(phys, page);
    var zeros := seq(|phys| - 1, _ => 0);
    b := [1] + zeros;
    assert b[1..] == zeros;
    DotZeros(|phys| - 1, PaddedStrides(phys, 0, page)[1..]);
  }

  /** Padding the outermost dimension, of size two or more, is sound exactly when a page holds all that lies behind it. */
  lemma PaddedSoundIff(phys: seq<nat>, page: nat)
    requires |phys| > 0 && phys[0] >= 2 && NonEmpty(phys)
    ensures Injective(phys, PaddedStrides(phys, 0, page)) <==> Prod(phys[1..]) <= page
  {
    hide Dot, Prod, PaddedStrides;
    if Prod(phys[1..]) <= page {
      forall a, b | InShape(phys, a) && InShape(phys, b) && a != b
        ensures Dot(a, PaddedStrides(phys, 0, page)) != Dot(b, PaddedStrides(phys, 0, page))
      {
        if Dot(a, PaddedStrides(phys, 0, page)) == Dot(b, PaddedStrides(phys, 0, page)) {
          PaddedInjective(phys, page, a, b);
        }
      }
    } else {
      var a, b := SmallPagesCollide(phys, page);
    }
  }

  /** Blocks stay in their pages exactly when a page holds a block. */
  lemma InPagesIff(shape: seq<nat>, order: seq<nat>, inv: seq<nat>, page: nat)
    requires shape != [] && NonEmpty(shape) && Inverse(order, inv) && |shape| == |order| && inv[0] == 0
    ensures InPages(shape, Reorder(PaddedStrides(Reorder(shape, order), 0, page), inv), page)
       <==> Prod(Reorder(shape, order)[1..]) <= page
  {
    hide Dot, Prod, PaddedStrides, NonEmpty;
    if Prod(Reorder(shape, order)[1..]) <= page {
      PaddedInPages(shape, order, inv, page);
    } else {
      var x := FirstOfPageInView(shape, order, inv, page);
    }
  }

  /** In the view, some element of block 0 lies where page 1 begins. */
  lemma FirstOfPageInView(shape: seq<nat>, order: seq<nat>, inv: seq<nat>, page: nat) returns (x: seq<nat>)
    requires shape != [] && NonEmpty(shape) && Inverse(order, inv) && |shape| == |order| && inv[0] == 0
    requires page < Prod(Reorder(shape, order)[1..])
    ensures InShape(shape, x) && x[0] == 0 && Dot(x, Reorder(PaddedStrides(Reorder(shape, order), 0, page), inv)) == page
  {
    hide Dot, Prod, PaddedStrides;
    var phys := Reorder(shape, order);
    var a := FirstOfPage(phys, page);
    x := Reorder(a, inv);
    ReorderTwice(shape, order, inv);
    PermutedIndex(phys, order, inv, a);
    PermutedDot(PaddedStrides(phys, 0, page), order, inv, x);
  }

  /**
   * The attention branch of `_reshape_kv_cache`: size and strides of the view
   * that a layer gets. Unpadded, it visits the whole buffer once; padded with
   * the block dimension outermost, every block stays in its own page exactly
   * when a page holds a block.
   */
  method AttentionTensor(shape: seq<nat>, order: seq<nat>, page: Option<nat>) returns (size: seq<nat>, stride: seq<nat>)
    requires Permutation(order) && |shape| == |order| && (page.Some? ==> shape != [])
    ensures size == shape && |stride| == |shape|
    ensures page.None? ==> Tight(shape, stride)
    ensures page.Some? && order[0] == 0 && Prod(Reorder(shape, order)[1..]) <= page.value ==> InPages(shape, stride, page.value)
    ensures page.Some? && order[0] == 0 && NonEmpty(shape) && InPages(shape, stride, page.value) ==>
      Prod(Reorder(shape, order)[1..]) <= page.value
  {
    hide Prod, Dot, Strides, Tight, InShape, InPages, NonEmpty;
    var phys := Reorder(shape, order);
    var inv := InverseOrder(order);
    AttentionView(shape, order, inv);
    var strides: seq<nat> := Strides(phys);
    if page.Some? {
      strides := strides[inv[0] := page.value];
    }
    size, stride := Reorder<nat>(phys, inv), Reorder<nat>(strides, inv);
    if page.Some? && order[0] == 0 {
      assert inv[0] == 0;
      if Prod(phys[1..]) <= page.value {
        PaddedInPages(shape, order, inv, page.value);
      } else if NonEmpty(shape) {
        InPagesIff(shape, order, inv, page.value);
      }
    }
  }

  /**
   * When the shape starts with K/V instead, the page stride falls on K/V, and
   * pages as large as a block do not help: here 3 blocks of 2 * 2 elements fit
   * the buffer of 3 pages, yet V of block 0 lies where K of block 2 does.
   */
  lemma PaddedCollides()
    ensures var phys, page: nat := [2, 3, 2], 4;
            var stride := PaddedStrides(phys, 0, page);
            && (forall a :: InShape(phys, a) ==> Dot(a, stride) < 3 * page)
            && InShape(phys, [1, 0, 0]) && InShape(phys, [0, 2, 0])
            && Dot([1, 0, 0], stride) == Dot([0, 2, 0], stride)
  {
    var phys, page: nat := [2, 3, 2], 4;
    var stride := PaddedStrides(phys, 0, page);
    ThreeStrides(2, 3, 2);
    assert stride == [4, 2, 1];
    forall a | InShape(phys, a) ensures Dot(a, stride) < 3 * page {
      assert a == [a[0], a[1], a[2]];
      ThreeTerms(a[0], a[1], a[2], 4, 2, 1);
    }
    ThreeTerms(1, 0, 0, 4, 2, 1);
    ThreeTerms(0, 2, 0, 4, 2, 1);
  }

  lemma ThreeStrides(x: nat, y: nat, z: nat)
    ensures Strides([x, y, z]) == [y * z, z, 1]
  {
    var a, b, c: seq<nat> := [x, y, z], [y, z], [z];
    assert a[1..] == b && b[1..] == c && c[1..] == [];
    assert Prod(c) == z * Prod([]) == z;
    assert Prod(b) == y * z;
    assert Strides(c) == [1];
    assert Strides(b) == [z, 1];
  }

  lemma ThreeTerms(x: nat, y: nat, z: nat, p: nat, q: nat, r: nat)
    ensures Dot([x, y, z], [p, q, r]) == x * p + y * q + z * r
  {
    var a, s: seq<nat> := [x, y, z], [p, q, r];
    assert a[1..] == [y, z] && s[1..] == [q, r] && a[1..][1..] == [z] && s[1..][1..] == [r];
    assert a[1..][1..][1..] == [] && s[1..][1..][1..] == [];
    assert Dot([z], [r]) == z * r;
  }

  // --------------------------------------------------------------------------- hybrid layout

  /** Strides of the relaid K/V view: K and V of a block next to each other. */
  function HybridStride(size: seq<nat>, stride: seq<nat>): (s: seq<nat>)
    requires |size| == |stride| >= 2
    ensures |s| == |size|
  {
    [Prod(size[2..]), 2 * Prod(size[2..])] + stride[2..]
  }

  lemma {:induction false} HybridDot(size: seq<nat>, stride: seq<nat>, idx: seq<nat>)
    requires |size| == |stride| == |idx| >= 2
    ensures var h := Prod(size[2..]);
      Dot(idx, HybridStride(size, stride)) == idx[0] * h + idx[1] * (2 * h) + Dot(idx[2..], stride[2..])
  {
    var s := HybridStride(size, stride);
    assert s[1..][1..] == stride[2..] && idx[1..][1..] == idx[2..];
  }

  /** K (`idx[0] == 0`) and V (`idx[0] == 1`) of block b fill exactly the b-th chunk of 2 * hidden elements. */
  lemma {:induction false} HybridElement(size: seq<nat>, stride: seq<nat>, idx: seq<nat>)
    requires |size| == |stride| >= 2 && size[0] == 2 && Tight(size[2..], stride[2..]) && InShape(size, idx)
    ensures var h := Prod(size[2..]);
            var d := Dot(idx, HybridStride(size, stride));
            && idx[1] * (2 * h) + idx[0] * h <= d < idx[1] * (2 * h) + idx[0] * h + h <= (idx[1] + 1) * (2 * h)
            && (idx[1] + 1) * (2 * h) <= size[1] * (2 * h)
            && InShape(size[2..], idx[2..])
  {
    var h := Prod(size[2..]);
    HybridDot(size, stride, idx);
    assert InShape(size[2..], idx[2..]);
    Distribute(idx[1], 1, 2 * h);
    Monotone(idx[1] + 1, size[1], 2 * h);
  }

  lemma {:induction false} HybridInjective(size: seq<nat>, stride: seq<nat>, a: seq<nat>, b: seq<nat>)
    requires |size| == |stride| >= 2 && size[0] == 2 && Tight(size[2..], stride[2..])
    requires InShape(size, a) && InShape(size, b) && Dot(a, HybridStride(size, stride)) == Dot(b, HybridStride(size, stride))
    ensures a == b
  {
    var h := Prod(size[2..]);
    HybridElement(size, stride, a);
    HybridElement(size, stride, b);
    HybridDot(size, stride, a);
    HybridDot(size, stride, b);
    var x, y := Dot(a[2..], stride[2..]), Dot(b[2..], stride[2..]);
    assert x < h && y < h;
    hide Dot, Prod, HybridStride;
    Monotone(a[0], 1, h);
    Monotone(b[0], 1, h);
    Digits(a[1], a[0] * h + x, b[1], b[0] * h + y, 2 * h);
    Digits(a[0], x, b[0], y, h);
    assert a[2..] == b[2..];
    assert a == [a[0], a[1]] + a[2..] && b == [b[0], b[1]] + b[2..];
  }

  lemma HybridOnto(size: seq<nat>, stride: seq<nat>, d: nat)
    requires |size| == |stride| >= 2 && size[0] == 2 && Tight(size[2..], stride[2..])
    requires d < size[1] * (2 * Prod(size[2..]))
    ensures Reached(size, HybridStride(size, stride), d)
  {
    var h := Prod(size[2..]);
    var block, r := TwoDigits(d, 2 * h, size[1]);
    var kv, x := TwoDigits(r, h, 2);
    assert Reached(size[2..], stride[2..], x);
    var rest :| InShape(size[2..], rest) && Dot(rest, stride[2..]) == x;
    var idx := [kv, block] + rest;
    assert idx[2..] == rest;
    HybridDot(size, stride, idx);
    forall k | 0 <= k < |idx| ensures idx[k] < size[k] {
      if k >= 2 {
        assert rest[k - 2] < size[2..][k - 2];
      }
    }
  }

  lemma {:induction false} TwoDims(size: seq<nat>)
    requires |size| >= 2 && size[0] == 2
    ensures Prod(size) == size[1] * (2 * Prod(size[2..]))
  {
    var h := Prod(size[2..]);
    assert size[1..][1..] == size[2..];
    assert Prod(size[1..]) == size[1] * h;
    assert size[1] * (2 * h) == 2 * (size[1] * h);
  }

  /** The relayout is a bijection between the indices of the view and the same buffer. */
  lemma HybridTight(size: seq<nat>, stride: seq<nat>)
    requires |size| == |stride| >= 2 && size[0] == 2 && Tight(size[2..], stride[2..])
    ensures Tight(size, HybridStride(size, stride))
  {
    var s := HybridStride(size, stride);
    TwoDims(size);
    hide Prod, Dot, HybridStride;
    forall idx | InShape(size, idx) ensures Dot(idx, s) < Prod(size) {
      HybridElement(size, stride, idx);
    }
    forall a, b | InShape(size, a) && InShape(size, b) && Dot(a, s) == Dot(b, s) ensures a == b {
      HybridInjective(size, stride, a, b);
    }
    forall x | 0 <= x < Prod(size) ensures Reached(size, s, x) {
      HybridOnto(size, stride, x);
    }
  }

  /** A strided tensor over some buffer. */
  class Tensor {
    var size: seq<nat>
    var stride: seq<nat>

    constructor (size: seq<nat>, stride: seq<nat>)
      ensures this.size == size && this.stride == stride
    {
      this.size, this.stride := size, stride;
    }

    /** `as_strided_`: the tensor is changed in place. */
    method AsStrided(size: seq<nat>, stride: seq<nat>)
      modifies this
      ensures this.size == size && this.stride == stride
    {
      this.size, this.stride := size, stride;
    }
  }

  /** An attention tensor that `_update_hybrid_attention_layout` can tell apart. */
  ghost predicate Relayable(size: seq<nat>, stride: seq<nat>) {
    |size| == |stride| >= 2 && (size[0] == 2 ==> size[1] != 2 && Tight(size[2..], stride[2..]))
  }

  /** `_update_hybrid_attention_layout`, for the attention tensors of all groups. */
  method UpdateHybridLayout(layers: seq<Tensor>)
    requires NoDup(layers) && forall k :: 0 <= k < |layers| ==> Relayable(layers[k].size, layers[k].stride)
    modifies layers
    ensures forall k :: 0 <= k < |layers| ==>
      && layers[k].size == old(layers[k].size)
      && |old(layers[k].size)| == |old(layers[k].stride)| == |layers[k].stride| >= 2
    ensures forall k :: 0 <= k < |layers| && layers[k].size[0] == 2 ==>
      layers[k].stride == HybridStride(old(layers[k].size), old(layers[k].stride)) && Tight(layers[k].size, layers[k].stride)
    ensures forall k :: 0 <= k < |layers| && layers[k].size[0] != 2 ==> layers[k].stride == old(layers[k].stride)
  {
    var i := 0;
    while i < |layers|
      invariant 0 <= i <= |layers|
      invariant forall k :: i <= k < |layers| ==> layers[k].size == old(layers[k].size) && layers[k].stride == old(layers[k].stride)
      invariant forall k :: 0 <= k < i ==>
        && layers[k].size == old(layers[k].size)
        && |old(layers[k].size)| == |old(layers[k].stride)| == |layers[k].stride| >= 2
        && (layers[k].size[0] == 2 ==>
              layers[k].stride == HybridStride(old(layers[k].size), old(layers[k].stride)) && Tight(layers[k].size, layers[k].stride))
        && (layers[k].size[0] != 2 ==> layers[k].stride == old(layers[k].stride))
    {
      var t := layers[i];
      if t.size[0] == 2 {
        HybridTight(t.size, t.stride);
        t.AsStrided(t.size, HybridStride(t.size, t.stride));
      }
      i := i + 1;
    }
  }

  // ---------------------------------------------------------------------------- Mamba pages

  /** One state of a Mamba layer: its shape and the size of an element in bytes. */
  datatype MambaState = MambaState(shape: seq<nat>, dtype: nat) {
    function Bytes(): nat { Prod(shape) * dtype }
  }

  /** Bytes taken in each page by the first `n` states. */
  function Offset(states: seq<MambaState>, n: nat): nat
    requires n <= |states|
  {
    if n == 0 then 0 else Offset(states, n - 1) + states[n - 1].Bytes()
  }

  /** A strided view; `offset` and strides count elements. */
  datatype View = View(size: seq<nat>, stride: seq<nat>, offset: nat)

  /** Each element size divides the page and the offset of its state; all states fit into a page. */
  ghost predicate Paged(states: seq<MambaState>, page: nat) {
    && (forall i :: 0 <= i < |states| ==>
          states[i].dtype > 0 && page % states[i].dtype == 0 && Offset(states, i) % states[i].dtype == 0)
    && Offset(states, |states|) <= page
  }

  function ViewOf(states: seq<MambaState>, page: nat, numBlocks: nat, i: nat): View
    requires i < |states| && states[i].dtype > 0
  {
    var st := states[i];
    View([numBlocks] + st.shape, [page / st.dtype] + Strides(st.shape), Offset(states, i) / st.dtype)
  }

  lemma {:induction false} PagedAt(states: seq<MambaState>, page: nat, i: nat)
    requires Paged(states, page) && i < |states|
    ensures states[i].dtype > 0 && page % states[i].dtype == 0 && Offset(states, i) % states[i].dtype == 0
    ensures Offset(states, i + 1) == Offset(states, i) + Prod(states[i].shape) * states[i].dtype
  {
  }

  lemma {:induction false} TargetStrides(n: nat, shape: seq<nat>)
    ensures Strides([n] + shape) == [Prod(shape)] + Strides(shape)
    ensures Strides([n] + shape)[0] == Prod(shape) && Strides([n] + shape)[1..] == Strides(shape)
  {
    assert ([n] + shape)[1..] == shape;
  }

  /** The loop over the states of a Mamba layer. */
  method MambaViews(states: seq<MambaState>, page: nat, numBlocks: nat) returns (views: seq<View>)
    requires Paged(states, page)
    ensures |views| == |states|
    ensures forall i :: 0 <= i < |states| ==> states[i].dtype > 0 && views[i] == ViewOf(states, page, numBlocks, i)
  {
    hide Paged, Offset, Prod, Strides;
    views := [];
    var offset := 0;
    var i := 0;
    NoOffset(states);
    while i < |states|
      invariant 0 <= i <= |states| && |views| == i
      invariant offset == Offset(states, i)
      invariant forall k :: 0 <= k < i ==> states[k].dtype > 0 && views[k] == ViewOf(states, page, numBlocks, k)
    {
      var st := states[i];
      var target := [numBlocks] + st.shape;
      var stride := Strides(target);
      PagedAt(states, page, i);
      TargetStrides(numBlocks, st.shape);
      assert offset % st.dtype == 0;
      views := views + [View(target, [page / st.dtype] + stride[1..], offset / st.dtype)];
      offset := offset + stride[0] * st.dtype;
      i := i + 1;
    }
  }

  lemma {:induction false} NoOffset(states: seq<MambaState>)
    ensures Offset(states, 0) == 0
  {
  }

  /** First byte of an element. */
  function ByteOf(v: View, dtype: nat, idx: seq<nat>): nat
    requires |idx| == |v.stride|
  {
    (v.offset + Dot(idx, v.stride)) * dtype
  }

  lemma Exact(x: nat, d: nat)
    requires d > 0 && x % d == 0
    ensures x / d * d == x
  {
  }

  lemma Spread(a: nat, p: nat, q: nat, x: nat, d: nat)
    ensures (a + (p * q + x)) * d == a * d + p * (q * d) + x * d
  {
    Distribute(a, p * q + x, d);
    Distribute(p * q, x, d);
    Associative(p, q, d);
  }

  lemma {:induction false} OffsetGrows(states: seq<MambaState>, i: nat, j: nat)
    requires i <= j <= |states|
    ensures Offset(states, i) <= Offset(states, j)
  {
    if i < j {
      OffsetGrows(states, i, j - 1);
    }
  }

  /** Bytes of the `x`-th element, out of `n`, of page `p` of a state at `off`. */
  lemma ElementByte(off: nat, page: nat, d: nat, p: nat, x: nat, n: nat)
    requires d > 0 && page % d == 0 && off % d == 0 && x < n
    ensures (off / d + (p * (page / d) + x)) * d == off + p * page + x * d
    ensures x * d + d <= n * d
  {
    Exact(page, d);
    Exact(off, d);
    Spread(off / d, p, page / d, x, d);
    Below(x, n, d);
  }

  lemma {:induction false} ViewDot(nb: nat, q: nat, shape: seq<nat>, idx: seq<nat>)
    requires InShape([nb] + shape, idx)
    ensures InShape(shape, idx[1..]) && idx[0] < nb
    ensures Dot(idx, [q] + Strides(shape)) == idx[0] * q + Dot(idx[1..], Strides(shape))
    ensures Dot(idx[1..], Strides(shape)) < Prod(shape)
  {
    hide Prod, Strides;
    Tail([nb] + shape, idx);
    assert ([nb] + shape)[1..] == shape && ([q] + Strides(shape))[1..] == Strides(shape);
    ContiguousTight(shape);
  }

  /** An element of state `i` in page `p` lies in the part of that page which belongs to the state. */
  lemma {:induction false} MambaElement(states: seq<MambaState>, page: nat, numBlocks: nat, i: nat, idx: seq<nat>)
    requires Paged(states, page) && i < |states| && InShape([numBlocks] + states[i].shape, idx)
    ensures states[i].dtype > 0
    ensures var d := states[i].dtype;
            var byte := ByteOf(ViewOf(states, page, numBlocks, i), d, idx);
            && byte == idx[0] * page + Offset(states, i) + Dot(idx[1..], Strides(states[i].shape)) * d
            && InShape(states[i].shape, idx[1..])
            && idx[0] * page + Offset(states, i) <= byte
            && byte + d <= idx[0] * page + Offset(states, i + 1)
            && Offset(states, i + 1) <= page && idx[0] < numBlocks
  {
    hide Offset, Prod, Strides, Dot, Paged;
    PagedAt(states, page, i);
    var st := states[i];
    var q := page / st.dtype;
    ViewDot(numBlocks, q, st.shape, idx);
    ElementByte(Offset(states, i), page, st.dtype, idx[0], Dot(idx[1..], Strides(st.shape)), Prod(st.shape));
    WithinPage(states, page, i);
  }

  lemma {:induction false} WithinPage(states: seq<MambaState>, page: nat, i: nat)
    requires Paged(states, page) && i < |states|
    ensures Offset(states, i + 1) <= page
  {
    OffsetGrows(states, i + 1, |states|);
  }

  /** The pages of a layer lie one after the other in the buffer. */
  lemma PageBound(p: nat, q: nat, page: nat)
    ensures p < q ==> p * page + page <= q * page
  {
    if p < q {
      Below(p, q, page);
    }
  }

  /** Elements of the same state and page do not overlap. */
  lemma SamePlace(states: seq<MambaState>, page: nat, numBlocks: nat, i: nat, a: seq<nat>, b: seq<nat>)
    requires Paged(states, page) && i < |states|
    requires InShape([numBlocks] + states[i].shape, a) && InShape([numBlocks] + states[i].shape, b)
    requires a[0] == b[0] && a != b
    ensures states[i].dtype > 0
    ensures var d, v := states[i].dtype, ViewOf(states, page, numBlocks, i);
      ByteOf(v, d, a) + d <= ByteOf(v, d, b) || ByteOf(v, d, b) + d <= ByteOf(v, d, a)
  {
    var st := states[i];
    MambaElement(states, page, numBlocks, i, a);
    MambaElement(states, page, numBlocks, i, b);
    ContiguousTight(st.shape);
    assert a == [a[0]] + a[1..] && b == [b[0]] + b[1..];
    var x, y := Dot(a[1..], Strides(st.shape)), Dot(b[1..], Strides(st.shape));
    assert x != y;
    hide ByteOf, Dot, Strides, ViewOf;
    if x < y {
      Below(x, y, st.dtype);
    } else {
      Below(y, x, st.dtype);
    }
  }

  /**
   * Mamba pages are sound: every element stays inside its own page, inside the
   * buffer, and distinct (state, page, element) triples get disjoint bytes.
   */
  lemma MambaDisjoint(states: seq<MambaState>, page: nat, numBlocks: nat, i: nat, j: nat, a: seq<nat>, b: seq<nat>)
    requires Paged(states, page) && i < |states| && j < |states|
    requires InShape([numBlocks] + states[i].shape, a) && InShape([numBlocks] + states[j].shape, b)
    requires i != j || a != b
    ensures states[i].dtype > 0 && states[j].dtype > 0
    ensures var x, dx := ByteOf(ViewOf(states, page, numBlocks, i), states[i].dtype, a), states[i].dtype;
            var y, dy := ByteOf(ViewOf(states, page, numBlocks, j), states[j].dtype, b), states[j].dtype;
            && a[0] * page <= x && x + dx <= a[0] * page + page <= numBlocks * page
            && (x + dx <= y || y + dy <= x)
  {
    hide ByteOf, Dot, Strides, ViewOf, Offset, Paged, Prod;
    MambaElement(states, page, numBlocks, i, a);
    MambaElement(states, page, numBlocks, j, b);
    PageBound(a[0], numBlocks, page);
    PageBound(a[0], b[0], page);
    PageBound(b[0], a[0], page);
    if i == j && a[0] == b[0] {
      SamePlace(states, page, numBlocks, i, a, b);
    } else if i < j {
      OffsetGrows(states, i + 1, j);
    } else if j < i {
      OffsetGrows(states, j + 1, i);
    }
  }
}
