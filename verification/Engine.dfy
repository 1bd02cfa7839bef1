/**
 * The synchronous engine around the scheduler: `schedule`, then the model
 * runner's answer, then drafts; requests are added and aborted at any time.
 */
module Engine {
  import opened Seqs
  import opened Requests
  import opened SchedulerSpec
  import opened QueuePartition
  import opened Accounting
  import opened Planning
  import opened Admission

  /**
   * `seen` are all requests ever added, as they came, `arrivals` their ids in order, `log` every
   * message delivered.
   */
  datatype Engine = Engine(
    s: State, pending: Option<Output>, seen: map<Id, View>, arrivals: seq<Id>, log: seq<Message>)

  datatype Event =
    | Step(env: Env)
    | Report(ans: Answer)
    | Draft(drafts: map<Id, seq<Token>>)
    | Add(id: Id, v: View, late: set<Id>)
    | Abort(ids: set<Id>, st: Status, late: set<Id>)
    | Reset(running: bool)
    | SetPause(pause: Pause)

  const EMPTY := State(map[], [], [], [], {}, {}, 0, {}, {}, Unpaused, map[])
  const INITIAL := Engine(EMPTY, None, map[], [], [])

  ghost predicate InFlight(e: Engine, id: Id) {
    e.pending.Some? && id in e.pending.value.order && id in e.s.reqs && !IsFinished(e.s.reqs[id].status)
  }

  /** A request whose `n` scheduled tokens, drafts `d` included, are being computed. */
  ghost predicate Flying(c: Config, v: View, n: int, d: seq<Token>) {
    && v.status == Running && v.all == v.prompt + v.output && v.all != [] && |v.all| < c.maxModelLen
    && 0 < n <= v.computed && v.computed - n < |v.all|
    && (v.prefill <==> v.computed < |v.all|)
    && (v.prefill ==> d == [])
    && (!v.prefill ==> v.computed == |v.all| + |d|)
    && (v.resumable ==> v.spec == [] && d == [])
  }

  /** The KV of a request that is being computed. */
  ghost predicate FlyingKv(s: State, id: Id, d: seq<Token>)
    requires id in s.reqs
  {
    var v := s.reqs[id];
    id in s.kv && 0 <= v.computed <= |s.kv[id]| && Take(s.kv[id], v.computed) == Take(v.all + d, v.computed)
  }

  ghost predicate RequestOk(c: Config, e: Engine, id: Id)
    requires id in e.s.reqs
  {
    if InFlight(e, id)
    then
      var d := Drafts(e.pending.value.specs, id);
      Flying(c, e.s.reqs[id], Get(e.pending.value.num, id), d) && FlyingKv(e.s, id, d)
    else
      Ready(c, e.s.reqs[id]) && KvReady(e.s, id)
  }

  ghost predicate LoadsOk(c: Config, s: State) {
    && (forall id :: id in s.recvFailed ==>
          id in s.reqs && s.reqs[id].status == WaitingForRemoteKvs && s.reqs[id].computed < |s.reqs[id].all|)
    && (!c.connector ==> forall id :: id in s.reqs ==> s.reqs[id].status != WaitingForRemoteKvs)
  }

  ghost predicate OutputOk(out: Output) {
    NoDup(out.order) && forall id :: id in out.num <==> id in out.order
  }

  ghost predicate PendingOk(e: Engine) {
    e.pending.Some? ==> OutputOk(e.pending.value) && forall id :: id in e.pending.value.order ==> id in e.seen
  }

  /** The invariant of every reachable engine state. */
  ghost predicate EngineInv(c: Config, e: Engine) {
    && Partition(e.s, [])
    && |e.s.running| <= c.maxRunning
    && PrevOk(e.s)
    && LoadsOk(c, e.s)
    && PendingOk(e)
    && (forall id :: id in e.s.reqs ==> RequestOk(c, e, id) && id in e.seen)
  }

  // --------------------------------------------------------------- legal events

  /** A non-final prefill chunk yields no token; otherwise accepted drafts and one more. */
  ghost predicate TokensOk(v: View, d: seq<Token>, gen: seq<Token>) {
    if v.prefill then gen == []
    else gen != [] && gen[..|gen| - 1] <= d
  }

  ghost predicate AnswerOk(c: Config, s: State, out: Output, ans: Answer) {
    && (forall id :: id in out.order && id in s.reqs && !IsFinished(s.reqs[id].status) ==>
          && TokensOk(s.reqs[id], Drafts(out.specs, id), TokensFor(ans, id))
          && NextInputFits(c, s.reqs[id]))
    && (forall id :: id in ans.recv ==>
          id in s.reqs && (s.reqs[id].status == WaitingForRemoteKvs || IsFinished(s.reqs[id].status)))
    && (forall id :: id in ans.send ==> id in s.reqs && IsFinished(s.reqs[id].status) && id !in ans.recv)
    && (!c.connector ==> ans.delay == {} && ans.recv == {} && ans.send == {} && ans.invalid == {})
    && LoadsDisjoint(s, ans)
  }

  /** The next chunk of a streaming session is not empty and stays below the model length. */
  ghost predicate NextInputFits(c: Config, v: View) {
    v.resumable && v.queue != [] && v.queue[0].Some? ==>
      v.queue[0].value.prompt != [] && |v.all| + |v.queue[0].value.prompt| < c.maxModelLen
  }

  /** Asynchronous loads do not share blocks. */
  ghost predicate LoadsDisjoint(s: State, ans: Answer) {
    forall a, b, x ::
      (&& a in s.reqs && b in s.reqs && a != b
       && s.reqs[a].status == WaitingForRemoteKvs && s.reqs[b].status == WaitingForRemoteKvs
       && a in ans.blocks && b in ans.blocks && x in ans.blocks[a]) ==> x !in ans.blocks[b]
  }

  /** The value of a freshly constructed Request. */
  ghost predicate NewRequest(c: Config, v: View) {
    && v.status in {Waiting, WaitingForGrammar, WaitingForToolCall}
    && v.output == [] && v.spec == [] && v.queue == [] && v.computed == 0 && v.preemptions == 0
    && v.all == v.prompt && v.prompt != [] && |v.prompt| < c.maxModelLen
  }

  /** Block-aligned splits are not made for tokens that a connector loads. */
  ghost predicate NothingRemote(env: Env) { forall id :: id in env.remote ==> env.remote[id].tokens == 0 }

  ghost predicate Legal(c: Config, e: Engine, ev: Event) {
    match ev
    case Step(env) => e.pending.None? && EnvOk(env, e.s) && (c.mamba ==> NothingRemote(env))
    case Report(ans) => e.pending.Some? && AnswerOk(c, e.s, e.pending.value, ans)
    case Draft(drafts) =>
      e.pending.None? && forall id :: id in drafts && id in e.s.reqs && e.s.reqs[id].resumable ==> drafts[id] == []
    case Add(id, v, late) =>
      && (!c.connector ==> late == {})
      && (if id in e.s.reqs
          then var w := e.s.reqs[id];
            && w.resumable && !IsFinished(w.status)
            && (w.status == WaitingForStreamingReq && v.resumable ==>
                  v.prompt != [] && w.computed + |v.prompt| < c.maxModelLen)
          else id !in e.seen && NewRequest(c, v))
    case Abort(ids, st, late) => IsFinished(st) && (!c.connector ==> late == {})
    case Reset(running) => running ==> e.pending.None?
    case SetPause(pause) => true
  }

  function Next(c: Config, e: Engine, ev: Event): Engine {
    match ev
    case Step(env) =>
      e.(s := Schedule(c, env, e.s), pending := Some(OutputOf(SchedulePass(c, env, e.s))))
    case Report(ans) =>
      if e.pending.None? then e
      else
        var u := UpdateFromOutput(c, e.s, e.pending.value, ans);
        e.(s := u.s, pending := None, log := e.log + u.msgs)
    case Draft(drafts) => e.(s := UpdateDrafts(e.s, drafts))
    case Add(id, v, late) =>
      var t := e.(s := AddRequest(e.s, id, v, late));
      if id in e.s.reqs then t else t.(seen := e.seen[id := v], arrivals := e.arrivals + [id])
    case Abort(ids, st, late) => e.(s := FinishRequests(e.s, ids, st, late))
    case Reset(running) => e.(s := ResetPrefixCache(e.s, running))
    case SetPause(pause) => e.(s := e.s.(pause := pause))
  }

  /** The engine after a run. */
  function After(c: Config, e: Engine, run: seq<Event>): Engine {
    if run == [] then e else Next(c, After(c, e, run[..|run| - 1]), run[|run| - 1])
  }

  ghost predicate LegalRun(c: Config, e: Engine, run: seq<Event>) {
    run == [] ||
    (LegalRun(c, e, run[..|run| - 1]) && Legal(c, After(c, e, run[..|run| - 1]), run[|run| - 1]))
  }
}
