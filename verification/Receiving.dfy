/** What one request makes of the model runner's tokens. */
module Receiving {
  import opened Seqs
  import opened Requests
  import opened SchedulerSpec
  import opened Accounting
  import opened Engine

  /** Only tokens, status and the computed count of a request change when it receives tokens. */
  lemma ReceiveShape(c: Config, v: View, d: seq<Token>, gen: seq<Token>, rejected: bool)
    ensures var r := Receive(c, v, d, gen, rejected);
            && r.toks <= gen
            && r.v == Extend(Reconcile(v, d, gen), r.toks).(status := r.v.status, resumable := r.v.resumable)
            && (r.v.resumable ==> v.resumable)
            && (!rejected ==> r.v.resumable == v.resumable)
            && (!r.stopped ==> r.toks == gen && r.v.status == v.status && r.v.resumable == v.resumable)
            && (r.stopped ==> r.toks != [] && IsFinished(r.v.status) && ReasonOf(r.v.status).Some?)
            && (r.v.resumable && gen != [] ==> !rejected)
  {
    AppendUntilStopFacts(Reconcile(v, d, gen), gen, c.maxModelLen);
    StopIsFinal(Reconcile(v, d, gen), gen, c.maxModelLen);
  }

  lemma {:induction false} StopIsFinal(v: View, toks: seq<Token>, maxModelLen: nat)
    ensures var a := AppendUntilStop(v, toks, maxModelLen);
      a.stopped ==> IsFinished(a.v.status) && ReasonOf(a.v.status).Some?
    decreases toks
  {
    if toks != [] {
      StopIsFinal(Extend(v, [toks[0]]), toks[1..], maxModelLen);
    }
  }

  /** Rejected drafts are given back exactly: what counts as computed are the tokens kept before the new one. */
  lemma ReconcileFacts(c: Config, v: View, n: int, d: seq<Token>, gen: seq<Token>)
    requires Flying(c, v, n, d) && TokensOk(v, d, gen)
    ensures var w := Reconcile(v, d, gen);
            && w == v.(computed := w.computed)
            && (gen == [] ==> w == v && v.computed < |v.all|)
            && (gen != [] ==> w.computed == |v.all| + |gen| - 1 && v.all + d == v.all + gen[..|gen| - 1] + d[|gen| - 1..])
  {
    if gen != [] {
      assert d == gen[..|gen| - 1] + d[|gen| - 1..];
    }
  }

  /** A request that goes on is ready for the next step, below the model length. */
  lemma GoesOn(c: Config, v: View, n: int, d: seq<Token>, gen: seq<Token>, rejected: bool)
    requires Flying(c, v, n, d) && TokensOk(v, d, gen)
    ensures var r := Receive(c, v, d, gen, rejected);
      !r.stopped ==> Ready(c, r.v) && r.v.status == Running
  {
    hide TokensOk;
    ReconcileFacts(c, v, n, d, gen);
    ReceiveShape(c, v, d, gen, rejected);
    var w := Reconcile(v, d, gen);
    var r := Receive(c, v, d, gen, rejected);
    if !r.stopped {
      if gen == [] {
        ExtendNothing(v);
      } else {
        NotLastToken(w, gen, c.maxModelLen);
        assert v.prompt + (v.output + gen) == v.prompt + v.output + gen;
      }
    }
  }

  lemma {:induction false} NotLastToken(w: View, gen: seq<Token>, maxModelLen: nat)
    requires gen != [] && !AppendUntilStop(w, gen, maxModelLen).stopped
    ensures |w.all| + |gen| < maxModelLen
  {
    AppendUntilStopFacts(w, gen, maxModelLen);
    CutAtFirstStop(w, gen, maxModelLen, |gen|);
    assert gen[..|gen|] == gen;
  }

  /** The KV of what counts as computed is the KV of the request's own tokens, old and new. */
  lemma KvAfterReceive(c: Config, kv: seq<Token>, v: View, n: int, d: seq<Token>, gen: seq<Token>, rejected: bool)
    requires Flying(c, v, n, d) && TokensOk(v, d, gen)
    requires v.computed <= |kv| && Take(kv, v.computed) == Take(v.all + d, v.computed)
    ensures var r := Receive(c, v, d, gen, rejected);
            && 0 <= r.v.computed <= |kv|
            && (r.toks == gen ==> Take(kv, r.v.computed) == Take(r.v.all, r.v.computed))
  {
    ReconcileFacts(c, v, n, d, gen);
    ReceiveShape(c, v, d, gen, rejected);
    var r := Receive(c, v, d, gen, rejected);
    if gen == [] {
      ExtendNothing(v);
      assert Take(v.all + d, v.computed) == Take(v.all, v.computed);
    } else if r.toks == gen {
      var k := |gen| - 1;
      assert |gen[..k]| <= |d|;
      PrefixOfPrefix(kv, v.all + d, v.all + gen, v.computed, |v.all| + k);
    }
  }

  lemma PrefixOfPrefix(kv: seq<Token>, a: seq<Token>, b: seq<Token>, n: nat, m: nat)
    requires m <= n <= |kv| && n <= |a| && m <= |b|
    requires Take(kv, n) == Take(a, n) && a[..m] == b[..m]
    ensures Take(kv, m) == Take(b, m)
  {
    assert kv[..m] == kv[..n][..m] == a[..n][..m] == a[..m];
  }

  /** A session that stops has computed everything but its last sampled token. */
  ghost predicate Paused(v: View, w: View) {
    && v.resumable && w == v.(status := w.status, output := w.output, all := w.all)
    && |w.all| == |v.all| + 1 && w.all[..|v.all|] == v.all && w.all == w.prompt + w.output
    && v.computed == |v.all|
  }

  lemma StoppedSession(c: Config, v: View, n: int, d: seq<Token>, gen: seq<Token>, rejected: bool)
    requires Flying(c, v, n, d) && TokensOk(v, d, gen)
    ensures var r := Receive(c, v, d, gen, rejected);
      r.stopped && r.v.resumable ==> Paused(v, r.v) && r.toks == gen
  {
    ReconcileFacts(c, v, n, d, gen);
    ReceiveShape(c, v, d, gen, rejected);
    var r := Receive(c, v, d, gen, rejected);
    if r.stopped && r.v.resumable {
      assert |gen| == 1 && r.toks == gen;
      assert v.prompt + (v.output + gen) == v.prompt + v.output + gen;
    }
  }

  /**
   * Continuing a session: the sampled token is dropped, everything computed is
   * kept, and prompt and tokens coincide.
   */
  lemma SessionContinues(w: View, u: Update)
    requires |w.prompt| <= w.computed < |w.all| && w.all == w.prompt + w.output
    ensures var x := SessionView(w, u);
            && x.prompt == x.all && x.output == []
            && x.all == w.all[..w.computed] + u.prompt
            && x.computed == w.computed
            && Take(x.all, x.computed) == Take(w.all, w.computed)
  {
    var x := SessionView(w, u);
    assert w.all[..w.computed] == w.prompt + w.all[|w.prompt|..w.computed];
  }
}
