/**
 * What each scheduler operation computes, on values
 * (vllm-integration/vllm_v1_core_sched/scheduler.py).
 *
 * `State` is the abstract value of the `Scheduler` class; `Pass` holds the local
 * variables of one call of `schedule`. Answers of components whose code is not
 * in the repository (KV cache manager, connector, encoder budget, grammar, tool
 * hook, model runner) are parameters: `Env` and `Answer`.
 */
module SchedulerSpec {
  import opened Seqs
  import opened Requests
  import opened InvalidBlocks
  import M = MambaSplit

  datatype Pause = Unpaused | PausedNew | PausedAll

  datatype Config = Config(
    priority: bool,        // SchedulingPolicy.PRIORITY; otherwise FCFS
    maxRunning: nat,       // max_num_running_reqs
    maxScheduled: nat,     // max_num_scheduled_tokens
    maxModelLen: nat,
    longPrefill: int,      // long_prefill_token_threshold
    chunked: bool,         // enable_chunked_prefill
    reserveFull: bool,     // scheduler_reserve_full_isl
    lookahead: nat,        // num_lookahead_tokens
    blockSize: nat,
    mamba: bool,           // need_mamba_block_aligned_split
    eagle: bool,
    lora: bool,
    maxLoras: nat,
    maxEncoder: nat,       // max_num_encoder_input_tokens
    connector: bool,       // a KV connector is configured
    recompute: bool)       // recompute_kv_load_failures

  /**
   * `kv` maps each request that holds KV blocks to the tokens whose KV was
   * written at its leading positions. It belongs to the KV manager and the
   * worker, and no operation reads more of it than which requests hold blocks.
   */
  datatype State = State(
    reqs: map<Id, View>,
    running: seq<Id>,
    waiting: seq<Id>,
    skipped: seq<Id>,
    finishedIds: set<Id>,
    prev: set<Id>,         // prev_step_scheduled_req_ids
    numStreaming: int,     // num_waiting_for_streaming_input
    recvDone: set<Id>,     // finished_recving_kv_req_ids
    recvFailed: set<Id>,   // failed_recving_kv_req_ids
    pause: Pause,
    kv: map<Id, seq<Token>>)

  const NOBODY := View(0, 0, 0, {}, 0, false, false, [], FinishedIgnored, [], [], [], [], 0, false, 0)

  function At(s: State, id: Id): View { if id in s.reqs then s.reqs[id] else NOBODY }

  function Put(s: State, id: Id, v: View): State { s.(reqs := s.reqs[id := v]) }

  function Unfinished(s: State): set<Id> {
    set id | id in s.reqs && !IsFinished(s.reqs[id].status)
  }

  // ---------------------------------------------------------------- queues

  /** Order of `max(running, key=(priority, arrival_time))`. */
  predicate MoreUrgent(a: View, b: View) {
    a.priority < b.priority || (a.priority == b.priority && a.arrival < b.arrival)
  }

  /** `Request.__lt__`. */
  predicate Before(s: State, a: Id, b: Id) {
    var v, w := At(s, a), At(s, b);
    if v.priority != w.priority then v.priority < w.priority
    else if v.arrival != w.arrival then v.arrival < w.arrival
    else a < b
  }

  /** First position of the least urgent running request. */
  function LeastUrgent(s: State, q: seq<Id>): (k: nat)
    requires q != []
    ensures k < |q|
  {
    if |q| == 1 then 0
    else
      var k := LeastUrgent(s, q[..|q| - 1]);
      if MoreUrgent(At(s, q[k]), At(s, q[|q| - 1])) then |q| - 1 else k
  }

  function Smallest(s: State, q: seq<Id>): (k: nat)
    requires q != []
    ensures k < |q|
  {
    if |q| == 1 then 0
    else
      var k := Smallest(s, q[..|q| - 1]);
      if Before(s, q[|q| - 1], q[k]) then |q| - 1 else k
  }

  /** `peek_request`: the front of a FCFS deque, the minimum of a priority queue. */
  function HeadIndex(c: Config, s: State, q: seq<Id>): (k: nat)
    requires q != []
    ensures k < |q|
  {
    if c.priority then Smallest(s, q) else 0
  }

  /** `_select_waiting_queue_for_scheduling`: true for `skipped_waiting`. */
  predicate UseSkipped(c: Config, s: State) {
    s.skipped != [] &&
    (!c.priority || s.waiting == [] ||
     !Before(s, s.waiting[HeadIndex(c, s, s.waiting)], s.skipped[HeadIndex(c, s, s.skipped)]))
  }

  function Peek(c: Config, s: State): Id
    requires s.waiting != [] || s.skipped != []
  {
    if UseSkipped(c, s) then s.skipped[HeadIndex(c, s, s.skipped)]
    else s.waiting[HeadIndex(c, s, s.waiting)]
  }

  /** `pop_request` of the selected queue; `from` is the state in which the head was chosen. */
  function Pop(c: Config, from: State, s: State): (r: State)
    requires from.waiting == s.waiting && from.skipped == s.skipped
    requires s.waiting != [] || s.skipped != []
    ensures |r.waiting| + |r.skipped| == |s.waiting| + |s.skipped| - 1
  {
    if UseSkipped(c, from) then s.(skipped := RemoveAt(s.skipped, HeadIndex(c, from, s.skipped)))
    else s.(waiting := RemoveAt(s.waiting, HeadIndex(c, from, s.waiting)))
  }

  function Enqueue(s: State, id: Id): State {
    if IsBlocked(At(s, id).status) then s.(skipped := s.skipped + [id])
    else s.(waiting := s.waiting + [id])
  }

  // -------------------------------------------------------------- schedule

  datatype EncoderPlan = EncoderPlan(n: int, budget: int, embeds: seq<nat>)

  datatype Remote = Remote(tokens: nat, isAsync: bool)

  /** A request for KV slots, as the KV manager sees it: who holds blocks, who asks, for how many tokens. */
  datatype SlotAsk = SlotAsk(holders: set<Id>, id: Id, tokens: int)

  datatype EncoderAsk = EncoderAsk(id: Id, computed: int, n: int, budget: int)

  /** Answers that one call of `schedule` gets from the other components. */
  datatype Env = Env(
    refused: set<SlotAsk>,                     // allocate_slots answers None
    hits: map<Id, nat>,                        // get_computed_blocks; none cached if absent
    undecided: set<Id>,                        // get_num_new_matched_tokens answers None
    remote: map<Id, Remote>,                   // get_num_new_matched_tokens; none if absent
    encoder: map<EncoderAsk, EncoderPlan>,     // _try_schedule_encoder_inputs; all cached if absent
    grammarReady: set<Id>,
    toolReady: set<Id>)

  function Hit(env: Env, id: Id): nat { if id in env.hits then env.hits[id] else 0 }

  function RemoteHit(env: Env, id: Id): Remote { if id in env.remote then env.remote[id] else Remote(0, false) }

  /** The local variables of `schedule`. */
  datatype Pass = Pass(
    s: State,
    idx: int,
    budget: int,
    encBudget: int,
    order: seq<Id>,                 // keys of num_scheduled_tokens, in insertion order
    num: map<Id, int>,
    specs: map<Id, seq<Token>>,
    encs: map<Id, int>,             // embeds scheduled for each request
    preempted: seq<Id>,
    loras: set<nat>,
    newly: seq<Id>,                 // scheduled_new_reqs
    resumed: seq<Id>,
    stepSkipped: seq<Id>,
    stop: bool,
    invalid: bool)                  // "Invalid request status" was raised

  function Start(c: Config, s: State): Pass {
    Pass(s, 0, if s.pause.PausedAll? then 0 else c.maxScheduled, c.maxEncoder,
         [], map[], map[], map[], [], {}, [], [], [], false, false)
  }

  /** `_preempt_request`, for a request already taken off `running`. */
  function Preempt(s: State, id: Id): State {
    var v := At(s, id);
    Put(s, id, v.(status := Preempted, computed := 0, spec := [], preemptions := v.preemptions + 1))
      .(kv := s.kv - {id}, waiting := [id] + s.waiting)
  }

  function VictimIndex(c: Config, s: State): (k: nat)
    requires s.running != []
    ensures k < |s.running|
  {
    if c.priority then LeastUrgent(s, s.running) else |s.running| - 1
  }

  /** Take back what this step had already scheduled for a victim. */
  function Unschedule(p: Pass, id: Id): Pass {
    p.(order := Remove(p.order, id), budget := p.budget + Get(p.num, id), num := p.num - {id},
       specs := p.specs - {id}, encBudget := p.encBudget + Get(p.encs, id), encs := p.encs - {id},
       idx := p.idx - 1)
  }

  function PreemptVictim(c: Config, p: Pass): Pass
    requires p.s.running != []
  {
    var k := VictimIndex(c, p.s);
    var id := p.s.running[k];
    var q := if c.priority && id in p.order then Unschedule(p, id) else p;
    q.(s := Preempt(q.s.(running := RemoveAt(q.s.running, k)), id), preempted := q.preempted + [id])
  }

  datatype Room = Room(p: Pass, ok: bool)

  /** The inner `while True`: allocate, preempting until it works or `id` itself is the victim. */
  function MakeRoom(c: Config, env: Env, p: Pass, id: Id, tokens: int): (r: Room)
    ensures |r.p.s.running| - r.p.idx <= |p.s.running| - p.idx
    decreases |p.s.running|
  {
    if SlotAsk(p.s.kv.Keys, id, tokens) !in env.refused then Room(p, true)
    else if p.s.running == [] then Room(p, false)
    else
      var victim := p.s.running[VictimIndex(c, p.s)];
      var q := PreemptVictim(c, p);
      if victim == id then Room(q, false) else MakeRoom(c, env, q, id, tokens)
  }

  /** Tokens wanted for a running request, before encoder inputs and block alignment. */
  function RunningWant(c: Config, v: View, budget: int): int {
    var n := |v.all| + |v.spec| - v.computed;
    var capped := if 0 < c.longPrefill < n then c.longPrefill else n;
    Min(Min(capped, budget), c.maxModelLen - 1 - v.computed)
  }

  function Aligned(c: Config, v: View, computed: int, n: int): int {
    if c.mamba && c.blockSize > 0
    then M.Split(M.Prefill(|v.prompt|, |v.all|, c.blockSize, c.eagle), computed, n)
    else n
  }

  function EncoderFor(env: Env, v: View, id: Id, computed: int, n: int, budget: int): EncoderPlan {
    var ask := EncoderAsk(id, computed, n, budget);
    if v.enc && ask in env.encoder then env.encoder[ask] else EncoderPlan(n, budget, [])
  }

  function RunningPlan(c: Config, env: Env, p: Pass, id: Id): EncoderPlan {
    var v := At(p.s, id);
    var plan := EncoderFor(env, v, id, v.computed, RunningWant(c, v, p.budget), p.encBudget);
    plan.(n := Aligned(c, v, v.computed, plan.n))
  }

  /** The drafts that fit into `n` scheduled tokens. */
  function DraftsFor(v: View, n: int): seq<Token> {
    Take(v.spec, n + v.computed - |v.all|)
  }

  /** "Schedule the request": the end of the body of the first loop. */
  function ScheduleRunning(p: Pass, id: Id, plan: EncoderPlan): Pass {
    var v := At(p.s, id);
    var drafts := DraftsFor(v, plan.n);
    p.(s := Put(p.s, id, v.(spec := [])),
       idx := p.idx + 1,
       budget := p.budget - plan.n,
       order := p.order + [id],
       num := p.num[id := plan.n],
       specs := if drafts != [] then p.specs[id := drafts] else p.specs,
       encs := if plan.embeds != [] then p.encs[id := Total(plan.embeds)] else p.encs,
       encBudget := if plan.embeds != [] then plan.budget else p.encBudget)
  }

  predicate RunningDone(p: Pass) {
    p.stop || p.budget <= 0 || !(0 <= p.idx < |p.s.running|)
  }

  function RunningStep(c: Config, env: Env, p: Pass): Pass
    requires !RunningDone(p)
  {
    var id := p.s.running[p.idx];
    var plan := RunningPlan(c, env, p, id);
    if plan.n == 0 then p.(idx := p.idx + 1)
    else AfterRoom(MakeRoom(c, env, p, id, At(p.s, id).computed + plan.n + c.lookahead), id, plan)
  }

  function AfterRoom(room: Room, id: Id, plan: EncoderPlan): Pass {
    if room.ok then ScheduleRunning(room.p, id, plan) else room.p.(stop := true)
  }

  function RunningLoop(c: Config, env: Env, p: Pass): Pass
    decreases !p.stop, |p.s.running| - p.idx
  {
    if RunningDone(p) then p else RunningLoop(c, env, RunningStep(c, env, p))
  }

  function LorasOf(s: State, ids: seq<Id>): set<nat> {
    set id | id in ids && At(s, id).lora > 0 :: At(s, id).lora
  }

  /** `_try_promote_blocked_waiting_request`; None when the request stays blocked. */
  function Promote(env: Env, s: State, id: Id): (r: Option<State>)
    ensures r.Some? ==> r.value.waiting == s.waiting && r.value.skipped == s.skipped
  {
    var v := At(s, id);
    match v.status
    case WaitingForRemoteKvs =>
      if id !in s.recvDone then None
      else
        var fixed :=
          if id in s.recvFailed || v.computed != |v.all| then v
          else v.(computed := |v.all| - 1);
        var kv := if id in s.recvFailed && v.computed == 0 then s.kv - {id} else s.kv;
        Some(Put(s, id, fixed.(status := if v.preemptions > 0 then Preempted else Waiting))
          .(kv := kv, recvDone := s.recvDone - {id}, recvFailed := s.recvFailed - {id}))
    case WaitingForGrammar =>
      if id in env.grammarReady then Some(Put(s, id, v.(status := Waiting))) else None
    case WaitingForToolCall =>
      if id in env.toolReady then Some(Put(s, id, v.(status := Waiting))) else None
    case WaitingForStreamingReq => None
    case _ => Some(s)
  }

  /** What the second loop decides about the request at the head. */
  datatype Choice =
    | Halt(s: State)
    | SkipOver(s: State)
    | LoadRemote(s: State, computed: int)
    | Admit(s: State, computed: int, plan: EncoderPlan)

  function WaitingWant(c: Config, v: View, computed: int): int {
    var n := |v.all| - computed;
    if 0 < c.longPrefill < n then c.longPrefill else n
  }

  function WaitingPlan(c: Config, env: Env, p: Pass, v: View, id: Id, computed: int): EncoderPlan {
    var plan := EncoderFor(env, v, id, computed, Min(WaitingWant(c, v, computed), p.budget), p.encBudget);
    plan.(n := Aligned(c, v, computed, plan.n))
  }

  function Granted(c: Config, env: Env, s: State, v: View, id: Id, computed: int, n: int): bool {
    var tokens := computed + n + (if v.computed == 0 then 0 else c.lookahead);
    SlotAsk(s.kv.Keys, id, if c.reserveFull then Max(tokens, |v.all|) else tokens) !in env.refused
  }

  function Consider(c: Config, env: Env, p: Pass, id: Id): (r: Choice)
    ensures r.s.waiting == p.s.waiting && r.s.skipped == p.s.skipped
  {
    var promoted := Promote(env, p.s, id);
    if promoted.None? then SkipOver(p.s) else
    var s := promoted.value;
    var v := At(s, id);
    if c.lora && v.lora != 0 && |p.loras| == c.maxLoras && v.lora !in p.loras then SkipOver(s) else
    var asks := v.computed == 0 && c.connector;
    if asks && id in env.undecided then SkipOver(s) else
    var remote := if asks then RemoteHit(env, id) else Remote(0, false);
    var computed := if v.computed == 0 then Hit(env, id) + remote.tokens else v.computed;
    if remote.isAsync then
      if Granted(c, env, s, v, id, computed, 0) then LoadRemote(s, computed) else Halt(s)
    else if !c.chunked && WaitingWant(c, v, computed) > p.budget then Halt(s)
    else
      var plan := WaitingPlan(c, env, p, v, id, computed);
      if plan.n == 0 then Halt(s)
      else if Granted(c, env, s, v, id, computed, plan.n) then Admit(s, computed, plan)
      else Halt(s)
  }

  /** The KV that a newly allocated request starts from: a correct cached or loaded prefix. */
  function StartKv(s: State, id: Id, computed: int): map<Id, seq<Token>> {
    var v := At(s, id);
    s.kv[id := if v.computed == 0 then Take(v.all, computed) else if id in s.kv then s.kv[id] else []]
  }

  function AdmitRequest(c: Config, p: Pass, from: State, id: Id, ch: Choice): Pass
    requires ch.Admit?
    requires from.waiting == ch.s.waiting && from.skipped == ch.s.skipped
    requires from.waiting != [] || from.skipped != []
  {
    var v := At(ch.s, id);
    var s := Pop(c, from, ch.s);
    p.(s := Put(s, id, v.(status := Running, computed := ch.computed))
              .(running := s.running + [id], kv := StartKv(ch.s, id, ch.computed)),
       budget := p.budget - ch.plan.n,
       order := p.order + [id],
       num := p.num[id := ch.plan.n],
       encs := if ch.plan.embeds != [] then p.encs[id := Total(ch.plan.embeds)] else p.encs,
       encBudget := if ch.plan.embeds != [] then ch.plan.budget else p.encBudget,
       loras := if c.lora && v.lora != 0 then p.loras + {v.lora} else p.loras,
       newly := if v.status == Waiting then p.newly + [id] else p.newly,
       resumed := if v.status == Preempted then p.resumed + [id] else p.resumed,
       invalid := p.invalid || (v.status != Waiting && v.status != Preempted))
  }

  predicate WaitingDone(c: Config, p: Pass) {
    p.stop || p.budget <= 0 || (p.s.waiting == [] && p.s.skipped == []) || |p.s.running| == c.maxRunning
  }

  /** Carry out what was decided about `id`, the head of the selected queue. */
  function Apply(c: Config, p: Pass, id: Id, ch: Choice): (r: Pass)
    requires ch.s.waiting == p.s.waiting && ch.s.skipped == p.s.skipped
    requires p.s.waiting != [] || p.s.skipped != []
    ensures r.stop || |r.s.waiting| + |r.s.skipped| < |p.s.waiting| + |p.s.skipped|
  {
    match ch
    case Halt(s) => p.(s := s, stop := true)
    case SkipOver(s) => p.(s := Pop(c, p.s, s), stepSkipped := [id] + p.stepSkipped)
    case LoadRemote(s, computed) =>
      var t := Put(Pop(c, p.s, s), id, At(s, id).(status := WaitingForRemoteKvs, computed := computed));
      p.(s := t.(kv := StartKv(s, id, computed)), stepSkipped := [id] + p.stepSkipped)
    case Admit(_, _, _) => AdmitRequest(c, p, p.s, id, ch)
  }

  function WaitingStep(c: Config, env: Env, p: Pass): (r: Pass)
    requires !WaitingDone(c, p)
    ensures r.stop || |r.s.waiting| + |r.s.skipped| < |p.s.waiting| + |p.s.skipped|
  {
    var id := Peek(c, p.s);
    Apply(c, p, id, Consider(c, env, p, id))
  }

  function WaitingLoop(c: Config, env: Env, p: Pass): Pass
    decreases !p.stop, |p.s.waiting| + |p.s.skipped|
  {
    if WaitingDone(c, p) then p else WaitingLoop(c, env, WaitingStep(c, env, p))
  }

  function Requeue(p: Pass): Pass {
    p.(s := p.s.(skipped := Reverse(p.stepSkipped) + p.s.skipped), stepSkipped := [])
  }

  /** Both loops of `schedule`. */
  function SchedulePass(c: Config, env: Env, s: State): Pass {
    var p := RunningLoop(c, env, Start(c, s));
    if p.preempted == [] && s.pause.Unpaused?
    then Requeue(WaitingLoop(c, env, p.(stop := false, loras := if c.lora then LorasOf(p.s, p.order) else {})))
    else p
  }

  /** The part of SchedulerOutput that later steps depend on. */
  datatype Output = Output(
    order: seq<Id>,
    num: map<Id, int>,
    specs: map<Id, seq<Token>>,
    newly: seq<Id>,
    resumed: seq<Id>,
    preempted: seq<Id>,
    finishedIds: set<Id>)

  function Drafts(specs: map<Id, seq<Token>>, id: Id): seq<Token> {
    if id in specs then specs[id] else []
  }

  /** `_update_after_schedule`, for one request. */
  function Advance(v: View, n: int): View {
    v.(computed := v.computed + n, prefill := v.computed + n < |v.all|)
  }

  /** The worker writes KV for the `n` scheduled positions. */
  function WriteKv(kv: seq<Token>, v: View, n: int, drafts: seq<Token>): seq<Token> {
    Take(kv, v.computed) + Slice(v.all + drafts, v.computed, v.computed + n)
  }

  function AfterSchedule(s: State, order: seq<Id>, num: map<Id, int>, specs: map<Id, seq<Token>>): State {
    s.(reqs := map id | id in s.reqs :: if id in num then Advance(s.reqs[id], num[id]) else s.reqs[id],
       kv := map id | id in s.kv ::
               if id in num then WriteKv(s.kv[id], At(s, id), num[id], Drafts(specs, id)) else s.kv[id],
       prev := (set id | id in order),
       finishedIds := {})
  }

  function OutputOf(p: Pass): Output {
    Output(p.order, p.num, p.specs, p.newly, p.resumed, p.preempted, p.s.finishedIds)
  }

  function Schedule(c: Config, env: Env, s: State): State {
    var p := SchedulePass(c, env, s);
    AfterSchedule(p.s, p.order, p.num, p.specs)
  }

  // ------------------------------------------------------ finishing requests

  /** `_free_request`; the caller has set a finished status. */
  function Free(s: State, id: Id, delay: bool): State {
    var t := s.(finishedIds := s.finishedIds + {id});
    if delay then t else FreeBlocks(t, id)
  }

  function FreeBlocks(s: State, id: Id): State {
    s.(kv := s.kv - {id}, reqs := s.reqs - {id})
  }

  function Finishable(s: State, ids: set<Id>): set<Id> {
    set id | id in ids && id in s.reqs && !IsFinished(s.reqs[id].status)
  }

  function WithStatus(s: State, ids: set<Id>, st: Status): set<Id> {
    set id | id in ids && id in s.reqs && s.reqs[id].status == st
  }

  /** Requests whose blocks (and entry) outlive the finish: an unfinished load, or the connector asks for it. */
  function DelayedFree(s: State, valid: set<Id>, delay: set<Id>): set<Id> {
    set id | id in valid && (id in delay || (At(s, id).status == WaitingForRemoteKvs && id !in s.recvDone))
  }

  /** `finish_requests`; `delay` is what the connector answers when told. */
  function FinishRequests(s: State, ids: set<Id>, st: Status, delay: set<Id>): State {
    var valid := Finishable(s, ids);
    var run := WithStatus(s, valid, Running);
    var remote := WithStatus(s, valid, WaitingForRemoteKvs);
    var freed := valid - DelayedFree(s, valid, delay);
    s.(reqs := map id | id in s.reqs.Keys - freed ::
                 if id in valid then s.reqs[id].(status := st) else s.reqs[id],
       running := Without(s.running, run),
       waiting := Without(s.waiting, valid - run),
       skipped := Without(s.skipped, valid - run),
       numStreaming := s.numStreaming - |WithStatus(s, valid, WaitingForStreamingReq)|,
       finishedIds := s.finishedIds + valid,
       recvDone := s.recvDone - remote,
       recvFailed := s.recvFailed - remote,
       kv := s.kv - freed)
  }

  // -------------------------------------------------------- streaming input

  function SessionView(v: View, u: Update): View {
    v.(all := Take(v.all, v.computed) + u.prompt,
       prompt := v.prompt + Slice(v.all, |v.prompt|, v.computed) + u.prompt,
       output := [],
       enc := v.enc || u.enc,
       arrival := u.arrival,
       stops := u.stops,
       status := Waiting)
  }

  /** `_update_request_as_session`. */
  function Session(s: State, id: Id, u: Update): State {
    var v := At(s, id);
    Put(s, id, SessionView(v, u))
      .(numStreaming := s.numStreaming - (if v.status == WaitingForStreamingReq then 1 else 0))
  }

  datatype Handled = Handled(s: State, finished: bool)

  /** `_handle_stopped_request`. */
  function HandleStopped(s: State, id: Id): Handled {
    var v := At(s, id);
    if !v.resumable then Handled(s, true)
    else if v.queue != [] then
      var t := Put(s, id, v.(queue := v.queue[1..]));
      if v.queue[0].None? then Handled(t, true)
      else Handled(Enqueue(Session(t, id, v.queue[0].value), id), false)
    else
      Handled(Enqueue(Put(s, id, v.(status := WaitingForStreamingReq)).(numStreaming := s.numStreaming + 1), id), false)
  }

  function UpdateOf(v: View): Option<Update> {
    if v.resumable then Some(Update(v.prompt, v.arrival, v.stops, v.enc)) else None
  }

  /** `add_request`; `v` is the value of the new Request object. */
  function AddRequest(s: State, id: Id, v: View, delay: set<Id>): State {
    if id in s.reqs then
      var known := s.reqs[id];
      if known.status != WaitingForStreamingReq then Put(s, id, known.(queue := known.queue + [UpdateOf(v)]))
      else if UpdateOf(v).Some? then Session(s, id, UpdateOf(v).value)
      else FinishRequests(s, {id}, FinishedAborted, delay)
    else
      Enqueue(Put(s, id, v), id)
  }

  // ------------------------------------------------------ update_from_output

  /** One EngineCoreOutput. */
  datatype Message = Message(id: Id, toks: seq<Token>, reason: Option<FinishReason>)

  /** What the model runner and the connector report for one step. */
  datatype Answer = Answer(
    tokens: map<Id, seq<Token>>,      // sampled_token_ids
    rejected: set<Id>,                // the grammar rejected the new tokens
    invalid: set<Block>,              // invalid_block_ids
    blocks: map<Id, seq<Block>>,      // block tables of the KV manager
    delay: set<Id>,                   // the connector delays freeing these
    recv: set<Id>,                    // finished_recving
    send: set<Id>)                    // finished_sending

  function TokensFor(ans: Answer, id: Id): seq<Token> {
    if id in ans.tokens then ans.tokens[id] else []
  }

  /** Give back the positions of rejected drafts. */
  function Reconcile(v: View, drafts: seq<Token>, gen: seq<Token>): View {
    if drafts != [] && gen != [] && v.computed > 0
    then v.(computed := v.computed - (|drafts| - (|gen| - 1)))
    else v
  }

  datatype Acc = Acc(s: State, stoppedRunning: set<Id>, stoppedOther: set<Id>, msgs: seq<Message>)

  /** Append the generated tokens of one request and apply the grammar's verdict. */
  function Receive(c: Config, v: View, drafts: seq<Token>, gen: seq<Token>, rejected: bool): Appended {
    var a := AppendUntilStop(Reconcile(v, drafts, gen), gen, c.maxModelLen);
    if rejected && a.toks != []
    then Appended(a.v.(status := FinishedError, resumable := false), a.toks, true)
    else a

  }

  /** The body of the loop over `num_scheduled_tokens`. */
  function UpdateOne(c: Config, out: Output, ans: Answer, failed: set<Id>, a: Acc, id: Id): Acc {
    if id in failed || id !in a.s.reqs || IsFinished(a.s.reqs[id].status) then a
    else
      var v := a.s.reqs[id];
      var r := Receive(c, v, Drafts(out.specs, id), TokensFor(ans, id), id in ans.rejected);
      var s := Put(a.s, id, r.v);
      if !r.stopped then
        a.(s := s, msgs := if r.toks != [] then a.msgs + [Message(id, r.toks, None)] else a.msgs)
      else
        var h := HandleStopped(s, id);
        Acc(if h.finished then Free(h.s, id, id in ans.delay) else h.s,
            if v.status == Running then a.stoppedRunning + {id} else a.stoppedRunning,
            if v.status == Running then a.stoppedOther else a.stoppedOther + {id},
            a.msgs + [Message(id, r.toks, ReasonOf(r.v.status))])
  }

  function UpdateAll(c: Config, out: Output, ans: Answer, failed: set<Id>, a: Acc, ids: seq<Id>): Acc {
    if ids == [] then a
    else
      var n := |ids| - 1;
      UpdateOne(c, out, ans, failed, UpdateAll(c, out, ans, failed, a, ids[..n]), ids[n])
  }

  function ItemFor(s: State, num: map<Id, int>, ans: Answer, id: Id): Item {
    Item(At(s, id).computed, Get(num, id), if id in ans.blocks then ans.blocks[id] else [])
  }

  function ItemsFor(s: State, num: map<Id, int>, ans: Answer, ids: seq<Id>): map<Id, Item> {
    map id | id in ids :: ItemFor(s, num, ans, id)
  }

  function Repaired(s: State, o: Outcome): State {
    s.(reqs := map id | id in s.reqs ::
         if id in o.computed then s.reqs[id].(computed := o.computed[id]) else s.reqs[id])
  }

  function AsyncLoading(s: State, q: seq<Id>): seq<Id> {
    if q == [] then []
    else
      var n := |q| - 1;
      if At(s, q[n]).status == WaitingForRemoteKvs then AsyncLoading(s, q[..n]) + [q[n]] else AsyncLoading(s, q[..n])
  }

  datatype Recovery = Recovery(s: State, failed: set<Id>)

  /** `_handle_invalid_blocks`. */
  function HandleInvalid(c: Config, s: State, num: map<Id, int>, ans: Answer): Recovery {
    if ans.invalid == {} || c.blockSize == 0 then Recovery(s, {})
    else
      var loading := AsyncLoading(s, s.skipped);
      var a := Repair(ItemsFor(s, num, ans, loading), loading, ans.invalid, false, c.blockSize);
      var s1 := Repaired(s, a);
      var b := Repair(ItemsFor(s1, num, ans, s1.running), s1.running, ans.invalid, true, c.blockSize);
      var s2 := Repaired(s1, b);
      if a.affected == {} && b.affected == {} then Recovery(s2, {})
      else if !c.recompute then Recovery(s2, a.affected + b.affected)
      else Recovery(s2.(recvFailed := s2.recvFailed + a.affected), b.affected)
  }

  /** `_update_from_kv_xfer_finished`: completed loads become schedulable, the rest is freed. */
  function TransfersFinished(s: State, recv: set<Id>, send: set<Id>): State {
    var loaded := WithStatus(s, recv, WaitingForRemoteKvs);
    var freed := (recv - loaded) + send;
    s.(recvDone := s.recvDone + loaded, kv := s.kv - freed, reqs := s.reqs - freed)
  }

  /** Finish messages for the requests that the "fail" policy ends, in queue order. */
  function FailMessages(q: seq<Id>, ids: set<Id>): seq<Message> {
    if q == [] then []
    else
      var n := |q| - 1;
      FailMessages(q[..n], ids) + (if q[n] in ids then [Message(q[n], [], Some(Error))] else [])
  }

  datatype Updated = Updated(s: State, msgs: seq<Message>)

  function UpdateFromOutput(c: Config, s: State, out: Output, ans: Answer): Updated {
    var r := HandleInvalid(c, s, out.num, ans);
    var a := UpdateAll(c, out, ans, r.failed, Acc(r.s, {}, {}, []), out.order);
    var t := a.s.(running := Without(a.s.running, a.stoppedRunning),
                  waiting := Without(a.s.waiting, a.stoppedOther));
    var failing := r.failed != {} && !c.recompute;
    var u := if failing then FinishRequests(t, r.failed, FinishedError, ans.delay) else t;
    Updated(TransfersFinished(u, ans.recv, ans.send),
            if failing then a.msgs + FailMessages(s.skipped + s.running, r.failed) else a.msgs)
  }

  /** `update_draft_token_ids`, for one request. */
  function WithDrafts(v: View, drafts: seq<Token>): View {
    if IsFinished(v.status) then v
    else if v.prefill then v.(spec := [])
    else v.(spec := drafts)
  }

  function UpdateDrafts(s: State, drafts: map<Id, seq<Token>>): State {
    s.(reqs := map id | id in s.reqs ::
         if id in drafts then WithDrafts(s.reqs[id], drafts[id]) else s.reqs[id])
  }

  // ------------------------------------------------------- reset and counters

  /** Preempt every running request, last first. */
  function PreemptAll(s: State): State
    decreases |s.running|
  {
    if s.running == [] then s
    else
      var n := |s.running| - 1;
      PreemptAll(Preempt(s.(running := s.running[..n]), s.running[n]))
  }

  function ResetPrefixCache(s: State, resetRunning: bool): State {
    if resetRunning then PreemptAll(s).(prev := {}) else s
  }

  function NumUnfinished(s: State): int {
    match s.pause
    case PausedAll => 0
    case PausedNew => |s.running|
    case Unpaused => |s.waiting| + |s.skipped| - s.numStreaming + |s.running|
  }

  predicate HasFinished(c: Config, s: State) {
    s.finishedIds != {} || (c.connector && |s.reqs| > |s.waiting| + |s.skipped| + |s.running|)
  }
}
