/** The `Request` class (vllm-integration/request.py): its fields are updated in place. */
module RequestObject {
  import opened Seqs
  import opened Requests
  import opened SchedulerSpec

  function Kept(v: View): View {
    v.(all := Take(v.all, v.computed), output := [], prompt := v.prompt + Slice(v.all, |v.prompt|, v.computed))
  }

  lemma SessionViewIs(v: View, u: Update)
    ensures var w := Kept(v);
      w.(all := w.all + u.prompt, prompt := w.prompt + u.prompt, enc := w.enc || u.enc, arrival := u.arrival, stops := u.stops,
         status := Waiting) == SessionView(v, u)
  {
    hide Take, Slice;
  }

  /** One iteration of the loop that appends tokens. */
  lemma {:induction false} AppendOne(v: View, toks: seq<Token>, k: nat, maxModelLen: nat)
    requires k < |toks|
    ensures var w := Extend(v, [toks[k]]);
            var stop := CheckStop(w, maxModelLen);
            var rest := AppendUntilStop(w, toks[k + 1..], maxModelLen);
            && w.output != []
            && AppendUntilStop(v, toks[k..], maxModelLen)
                 == (if stop.Some? then Appended(w.(status := stop.value), [toks[k]], true)
                     else Appended(rest.v, [toks[k]] + rest.toks, rest.stopped))
            && toks[..k] + ([toks[k]] + rest.toks) == toks[..k + 1] + rest.toks && toks[..k] + [toks[k]] == toks[..k + 1]
  {
    assert toks[k..][1..] == toks[k + 1..];
    hide CheckStop;
  }

  lemma {:induction false} AppendNone(v: View, toks: seq<Token>, maxModelLen: nat)
    requires toks == []
    ensures AppendUntilStop(v, toks, maxModelLen) == Appended(v, [], false)
  {
  }

  class Request {
    const id: Id
    const priority: int
    const maxTokens: nat
    const lora: nat
    var arrival: int
    var stops: set<Token>
    var enc: bool
    var resumable: bool
    var queue: seq<Option<Update>>
    var status: Status
    var prompt: seq<Token>
    var output: seq<Token>
    var all: seq<Token>
    var spec: seq<Token>
    var computed: int
    var prefill: bool
    var preemptions: nat

    function Value(): View
      reads this
    {
      View(priority, arrival, maxTokens, stops, lora, enc, resumable, queue, status, prompt, output, all, spec,
           computed, prefill, preemptions)
    }

    constructor (id: Id, v: View)
      ensures this.id == id && Value() == v
    {
      this.id, priority, maxTokens, lora := id, v.priority, v.maxTokens, v.lora;
      arrival, stops, enc, resumable, queue, status := v.arrival, v.stops, v.enc, v.resumable, v.queue, v.status;
      prompt, output, all, spec := v.prompt, v.output, v.all, v.spec;
      computed, prefill, preemptions := v.computed, v.prefill, v.preemptions;
    }

    lemma LoraIs()
      ensures Value().lora == lora
    {
    }

    lemma QueueIs()
      ensures Value().queue == queue && Value().resumable == resumable
    {
    }

    lemma ComputedIs()
      ensures Value().computed == computed
    {
    }

    /** `append_output_token_ids`: output and all tokens grow together. */
    method AppendOutputTokenIds(toks: seq<Token>)
      modifies this`output, this`all
      ensures Value() == Extend(old(Value()), toks)
    {
      output := output + toks;
      all := all + toks;
    }

    /** `__lt__`, for requests with different ids. */
    method Less(other: Request) returns (less: bool)
      ensures less == (
        if Value().priority != other.Value().priority then Value().priority < other.Value().priority
        else if Value().arrival != other.Value().arrival then Value().arrival < other.Value().arrival
        else id < other.id)
    {
      if priority != other.priority {
        return priority < other.priority;
      }
      if arrival != other.arrival {
        return arrival < other.arrival;
      }
      return id < other.id;
    }

    /** `_update_request_with_output`: append tokens until one stops the request, and drop the rest. */
    method UpdateWithOutput(toks: seq<Token>, maxModelLen: nat) returns (kept: seq<Token>, stopped: bool)
      modifies this`output, this`all, this`status
      ensures Appended(Value(), kept, stopped) == AppendUntilStop(old(Value()), toks, maxModelLen)
    {
      hide Request.Value, AppendUntilStop, CheckStop, Extend;
      ghost var start := Value();
      kept, stopped := [], false;
      var k := 0;
      while k < |toks| && !stopped
        invariant 0 <= k <= |toks| && kept == toks[..k]
        invariant !stopped ==>
          var rest := AppendUntilStop(Value(), toks[k..], maxModelLen);
          AppendUntilStop(start, toks, maxModelLen) == Appended(rest.v, kept + rest.toks, rest.stopped)
        invariant stopped ==> AppendUntilStop(start, toks, maxModelLen) == Appended(Value(), kept, true)
      {
        AppendOne(Value(), toks, k, maxModelLen);
        AppendOutputTokenIds([toks[k]]);
        stopped := StopIfDone(maxModelLen);
        kept := kept + [toks[k]];
        k := k + 1;
      }
      if !stopped {
        AppendNone(Value(), toks[k..], maxModelLen);
      }
    }

    /** `check_stop`, after a token was appended. */
    method StopIfDone(maxModelLen: nat) returns (stopped: bool)
      requires Value().output != []
      modifies this`status
      ensures var stop := CheckStop(old(Value()), maxModelLen);
        stopped == stop.Some? && Value() == if stopped then old(Value()).(status := stop.value) else old(Value())
    {
      var last := output[|output| - 1];
      stopped := false;
      if last in stops {
        status, stopped := FinishedStopped, true;
      } else if |all| >= maxModelLen || |output| >= maxTokens {
        status, stopped := FinishedLengthCapped, true;
      }
    }

    /** Give back the positions of rejected drafts. */
    method GiveBackRejected(drafts: seq<Token>, gen: seq<Token>)
      modifies this`computed
      ensures Value() == Reconcile(old(Value()), drafts, gen)
    {
      if drafts != [] && gen != [] {
        var accepted := |gen| - 1;
        var rejected := |drafts| - accepted;
        if computed > 0 {
          computed := computed - rejected;
        }
      }
    }

    /** The token part of the body of the loop of `update_from_output`. */
    method ReceiveTokens(c: Config, drafts: seq<Token>, gen: seq<Token>, rejected: bool)
      returns (kept: seq<Token>, stopped: bool)
      modifies this
      ensures Appended(Value(), kept, stopped) == Receive(c, old(Value()), drafts, gen, rejected)
    {
      GiveBackRejected(drafts, gen);
      kept, stopped := UpdateWithOutput(gen, c.maxModelLen);
      if rejected && kept != [] {
        status, resumable, stopped := FinishedError, false, true;
      }
    }

    /** The request's part of `_preempt_request`. */
    method Preempt()
      modifies this`status, this`computed, this`spec, this`preemptions
      ensures Value() == old(Value()).(status := Preempted, computed := 0, spec := [], preemptions := old(preemptions) + 1)
    {
      status := Preempted;
      computed := 0;
      if spec != [] {
        spec := [];
      }
      preemptions := preemptions + 1;
    }

    /** The request's part of `_update_request_as_session`. */
    method ContinueWith(u: Update)
      modifies this
      ensures Value() == SessionView(old(Value()), u)
    {
      hide Request.Value, SessionView;
      ghost var v := Value();
      KeepComputed();
      AppendChunk(u);
      SessionViewIs(v, u);
    }

    /** What is computed stays; the last sampled token goes, and outputs count as prompt from now on. */
    method KeepComputed()
      modifies this`all, this`output, this`prompt
      ensures Value() == Kept(old(Value()))
    {
      var kept := Slice(all, |prompt|, computed);
      all := Take(all, computed);
      output := [];
      prompt := prompt + kept;
    }

    method AppendChunk(u: Update)
      modifies this
      ensures Value() == old(Value()).(all := old(Value()).all + u.prompt, prompt := old(Value()).prompt + u.prompt,
                                       enc := old(Value()).enc || u.enc, arrival := u.arrival, stops := u.stops, status := Waiting)
    {
      enc := enc || u.enc;
      all := all + u.prompt;
      prompt := prompt + u.prompt;
      arrival := u.arrival;
      stops := u.stops;
      status := Waiting;
    }

    method SetStatus(status: Status)
      modifies this`status
      ensures Value() == old(Value()).(status := status)
    {
      this.status := status;
    }

    /** `StreamingUpdate.from_request`. */
    method AsUpdate() returns (u: Option<Update>)
      ensures u == UpdateOf(Value())
    {
      u := if resumable then Some(Update(prompt, arrival, stops, enc)) else None;
    }

    /** `streaming_queue.popleft`. */
    method NextChunk() returns (u: Option<Update>)
      requires queue != []
      modifies this`queue
      ensures u == old(queue)[0] && Value() == old(Value()).(queue := old(queue)[1..])
    {
      u := queue[0];
      queue := queue[1..];
    }

    /** `streaming_queue.append`. */
    method QueueChunk(u: Option<Update>)
      modifies this`queue
      ensures Value() == old(Value()).(queue := old(queue) + [u])
    {
      queue := queue + [u];
    }

    /** The request's part of `update_draft_token_ids`. */
    method SetDrafts(drafts: seq<Token>)
      modifies this`spec
      ensures Value() == WithDrafts(old(Value()), drafts)
    {
      if IsFinished(status) {
        return;
      }
      if prefill {
        if spec != [] {
          spec := [];
        }
        return;
      }
      spec := drafts;
    }

    /** The request's part of `_update_after_schedule`. */
    method AdvanceBy(n: int)
      modifies this`computed, this`prefill
      ensures Value() == Advance(old(Value()), n)
    {
      computed := computed + n;
      prefill := computed < |all|;
    }

    /** Drafts that fit into `n` scheduled tokens are taken; the list is emptied either way. */
    method TakeDrafts(n: int) returns (drafts: seq<Token>)
      modifies this`spec
      ensures drafts == DraftsFor(old(Value()), n) && Value() == old(Value()).(spec := [])
    {
      drafts := [];
      if spec != [] {
        var fits := n + computed - |all|;
        if fits > 0 {
          drafts := spec;
          if |drafts| > fits {
            drafts := drafts[..fits];
          }
        }
        spec := [];
      }
    }

    /** The request's part of a promotion after a load: a full hit has its last token recomputed. */
    method FinishLoad(failed: bool)
      modifies this`computed, this`status
      ensures var v := old(Value());
              var w := if failed || v.computed != |v.all| then v else v.(computed := |v.all| - 1);
              Value() == w.(status := if v.preemptions > 0 then Preempted else Waiting)
    {
      if !failed && computed == |all| {
        computed := |all| - 1;
      }
      status := if preemptions > 0 then Preempted else Waiting;
    }

    /** Tokens wanted for a running request, before encoder inputs and block alignment. */
    method WantRunning(c: Config, budget: int) returns (n: int)
      ensures n == RunningWant(c, Value(), budget)
    {
      n := |all| + |spec| - computed;
      if 0 < c.longPrefill < n {
        n := c.longPrefill;
      }
      n := Min(n, budget);
      n := Min(n, c.maxModelLen - 1 - computed);
    }

    method WantWaiting(c: Config, computed: int) returns (n: int)
      ensures n == WaitingWant(c, Value(), computed)
    {
      n := |all| - computed;
      if 0 < c.longPrefill < n {
        n := c.longPrefill;
      }
    }

    /** What `_try_schedule_encoder_inputs` answers for this request. */
    method PlanEncoder(env: Env, computed: int, n: int, budget: int) returns (plan: EncoderPlan)
      ensures plan == EncoderFor(env, Value(), id, computed, n, budget)
    {
      plan := EncoderPlan(n, budget, []);
      if enc && EncoderAsk(id, computed, n, budget) in env.encoder {
        plan := env.encoder[EncoderAsk(id, computed, n, budget)];
      }
    }

    method AlignedTo(c: Config, computed: int, n: int) returns (m: int)
      ensures m == Aligned(c, Value(), computed, n)
    {
      m := n;
      if c.mamba && c.blockSize > 0 {
        m := M.MambaBlockAlignedSplit(M.Prefill(|prompt|, |all|, c.blockSize, c.eagle), computed, n);
      }
    }

    method SetComputed(computed: int)
      modifies this`computed
      ensures Value() == old(Value()).(computed := computed)
    {
      this.computed := computed;
    }

    /** An asynchronous load has begun. */
    method StartLoading(computed: int)
      modifies this`status, this`computed
      ensures Value() == old(Value()).(status := WaitingForRemoteKvs, computed := computed)
    {
      status := WaitingForRemoteKvs;
      this.computed := computed;
    }

    method StartRunning(computed: int)
      modifies this`status, this`computed
      ensures Value() == old(Value()).(status := Running, computed := computed)
    {
      status := Running;
      this.computed := computed;
    }
  }
}
