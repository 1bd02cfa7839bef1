/** The orders of the PRIORITY policy: who is preempted first, and who is looked at first. */
module Urgency {
  import opened Requests
  import opened SchedulerSpec

  /** Nobody is less urgent than the request at `k`, and everybody in front of it is more urgent. */
  ghost predicate FirstLeastUrgent(s: State, q: seq<Id>, k: nat) {
    && k < |q|
    && (forall i :: 0 <= i < |q| ==> !MoreUrgent(At(s, q[k]), At(s, q[i])))
    && (forall i :: 0 <= i < k ==> MoreUrgent(At(s, q[i]), At(s, q[k])))
  }

  /** Nobody comes before the request at `k`. */
  ghost predicate Minimum(s: State, q: seq<Id>, k: nat) {
    k < |q| && forall i :: 0 <= i < |q| ==> !Before(s, q[i], q[k])
  }

  lemma {:induction false} LeastUrgentIsFirst(s: State, q: seq<Id>)
    requires q != []
    ensures FirstLeastUrgent(s, q, LeastUrgent(s, q))
  {
    if |q| > 1 {
      var n := |q| - 1;
      LeastUrgentIsFirst(s, q[..n]);
      var k := LeastUrgent(s, q[..n]);
      assert forall i :: 0 <= i < n ==> q[..n][i] == q[i];
      assert forall i :: 0 <= i < n ==> !MoreUrgent(At(s, q[k]), At(s, q[i]));
    }
  }

  /** `max` returns the first of the least urgent requests, and there is only one such position. */
  lemma FirstLeastUrgentIff(s: State, q: seq<Id>, k: nat)
    requires q != []
    ensures FirstLeastUrgent(s, q, k) <==> k == LeastUrgent(s, q)
  {
    hide LeastUrgent, FirstLeastUrgent;
    LeastUrgentIsFirst(s, q);
    if FirstLeastUrgent(s, q, k) {
      FirstIsUnique(s, q, k, LeastUrgent(s, q));
    }
  }

  lemma FirstIsUnique(s: State, q: seq<Id>, k: nat, l: nat)
    requires FirstLeastUrgent(s, q, k) && FirstLeastUrgent(s, q, l)
    ensures k == l
  {
    assert !MoreUrgent(At(s, q[k]), At(s, q[l])) && !MoreUrgent(At(s, q[l]), At(s, q[k]));
  }

  lemma {:induction false} SmallestIsMinimum(s: State, q: seq<Id>)
    requires q != []
    ensures Minimum(s, q, Smallest(s, q))
  {
    if |q| > 1 {
      var n := |q| - 1;
      SmallestIsMinimum(s, q[..n]);
      var k := Smallest(s, q[..n]);
      assert forall i :: 0 <= i < n ==> q[..n][i] == q[i];
      assert forall i :: 0 <= i < n ==> !Before(s, q[i], q[k]);
    }
  }

  /** By priority, then arrival, then id. */
  predicate ComesFirst(v: View, a: Id, w: View, b: Id) {
    || v.priority < w.priority
    || (v.priority == w.priority && v.arrival < w.arrival)
    || (v.priority == w.priority && v.arrival == w.arrival && a < b)
  }

  lemma BeforeMeans(s: State, a: Id, b: Id)
    ensures Before(s, a, b) <==> ComesFirst(At(s, a), a, At(s, b), b)
  {
  }

  /** Different requests are never level. */
  lemma BeforeIsTotal(s: State, a: Id, b: Id)
    ensures a != b ==> (Before(s, a, b) <==> !Before(s, b, a))
    ensures !Before(s, a, a)
  {
  }

  lemma BeforeIsTransitive(s: State, x: Id, y: Id, z: Id)
    requires !Before(s, y, x) && !Before(s, z, y)
    ensures !Before(s, z, x)
  {
  }

  /** Under PRIORITY the request considered next comes before all others that wait, in either queue. */
  lemma PeekComesFirst(c: Config, s: State, id: Id)
    requires c.priority && (id in s.waiting || id in s.skipped)
    ensures s.waiting != [] || s.skipped != []
    ensures id != Peek(c, s) ==> ComesFirst(At(s, Peek(c, s)), Peek(c, s), At(s, id), id)
  {
    BeforeMeans(s, Peek(c, s), id);
    hide ComesFirst;
    var head := Peek(c, s);
    BeforeIsTotal(s, head, id);
    if s.waiting != [] {
      SmallestIsMinimum(s, s.waiting);
    }
    if s.skipped != [] {
      SmallestIsMinimum(s, s.skipped);
    }
    hide Smallest, Before;
    if s.waiting != [] && s.skipped != [] {
      var w, k := s.waiting[Smallest(s, s.waiting)], s.skipped[Smallest(s, s.skipped)];
      BeforeIsTotal(s, w, k);
      BeforeIsTotal(s, k, w);
      if id in s.waiting {
        BeforeIsTransitive(s, head, w, id);
      } else {
        BeforeIsTransitive(s, head, k, id);
      }
    }
  }
}
