/** Request state (vllm-integration/request.py). */
module Requests {
  import opened Seqs

  type Id = nat
  type Token = int

  datatype Status =
    | Waiting
    | WaitingForGrammar
    | WaitingForRemoteKvs
    | WaitingForStreamingReq
    | WaitingForToolCall
    | Running
    | Preempted
    | FinishedStopped
    | FinishedLengthCapped
    | FinishedAborted
    | FinishedIgnored
    | FinishedError
    | FinishedRepetition

  datatype FinishReason = Stop | Length | Abort | Error | Repetition

  /** Position in the IntEnum; everything after PREEMPTED counts as finished. */
  function Rank(s: Status): nat {
    match s
    case Waiting => 1
    case WaitingForGrammar => 2
    case WaitingForRemoteKvs => 3
    case WaitingForStreamingReq => 4
    case WaitingForToolCall => 5
    case Running => 6
    case Preempted => 7
    case FinishedStopped => 8
    case FinishedLengthCapped => 9
    case FinishedAborted => 10
    case FinishedIgnored => 11
    case FinishedError => 12
    case FinishedRepetition => 13
  }

  predicate IsFinished(s: Status) { Rank(s) > Rank(Preempted) }

  predicate IsBlocked(s: Status) {
    s in {WaitingForGrammar, WaitingForRemoteKvs, WaitingForStreamingReq, WaitingForToolCall}
  }

  function ReasonOf(s: Status): Option<FinishReason> {
    match s
    case FinishedStopped => Some(Stop)
    case FinishedLengthCapped => Some(Length)
    case FinishedAborted => Some(Abort)
    case FinishedIgnored => Some(Length)
    case FinishedError => Some(Error)
    case WaitingForStreamingReq => Some(Stop)
    case FinishedRepetition => Some(Repetition)
    case _ => None
  }

  /** A later input chunk of a streaming session (StreamingUpdate). */
  datatype Update = Update(prompt: seq<Token>, arrival: int, stops: set<Token>, enc: bool)

  /**
   * The value of a request: everything the scheduler reads or writes.
   * `lora == 0` stands for no LoRA; `queue` holds the pending input chunks of a
   * streaming session, `None` being the end-of-session marker.
   */
  datatype View = View(
    priority: int,
    arrival: int,
    maxTokens: nat,
    stops: set<Token>,
    lora: nat,
    enc: bool,
    resumable: bool,
    queue: seq<Option<Update>>,
    status: Status,
    prompt: seq<Token>,
    output: seq<Token>,
    all: seq<Token>,
    spec: seq<Token>,
    computed: int,
    prefill: bool,
    preemptions: nat)

  /** Contract of `check_stop`: a stop token, the model length or the output limit ends a request. */
  function CheckStop(v: View, maxModelLen: nat): Option<Status> {
    if v.output != [] && v.output[|v.output| - 1] in v.stops then Some(FinishedStopped)
    else if |v.all| >= maxModelLen || |v.output| >= v.maxTokens then Some(FinishedLengthCapped)
    else None
  }

  function Extend(v: View, toks: seq<Token>): View {
    v.(output := v.output + toks, all := v.all + toks)
  }

  datatype Appended = Appended(v: View, toks: seq<Token>, stopped: bool)

  /** `_update_request_with_output`: append until a token stops the request, and trim the rest. */
  function AppendUntilStop(v: View, toks: seq<Token>, maxModelLen: nat): Appended
    decreases toks
  {
    if toks == [] then Appended(v, [], false)
    else
      var w := Extend(v, [toks[0]]);
      var stop := CheckStop(w, maxModelLen);
      if stop.Some? then Appended(w.(status := stop.value), [toks[0]], true)
      else
        var rest := AppendUntilStop(w, toks[1..], maxModelLen);
        Appended(rest.v, [toks[0]] + rest.toks, rest.stopped)
  }

  lemma ExtendTwice(v: View, a: seq<Token>, b: seq<Token>)
    ensures Extend(Extend(v, a), b) == Extend(v, a + b)
  {
    assert v.output + a + b == v.output + (a + b);
    assert v.all + a + b == v.all + (a + b);
  }

  lemma ExtendNothing(v: View)
    ensures Extend(v, []) == v
  {
    assert v.output + [] == v.output && v.all + [] == v.all;
  }

  /** What is appended is a prefix of what was generated; nothing else of the request changes. */
  lemma {:induction false} AppendUntilStopFacts(v: View, toks: seq<Token>, maxModelLen: nat)
    ensures var a := AppendUntilStop(v, toks, maxModelLen);
            && a.toks <= toks
            && a.v == Extend(v, a.toks).(status := a.v.status)
            && (!a.stopped ==> a.toks == toks && a.v.status == v.status)
            && (a.stopped ==> a.toks != [])
    decreases toks
  {
    if toks == [] {
      ExtendNothing(v);
    } else {
      var w := Extend(v, [toks[0]]);
      AppendUntilStopFacts(w, toks[1..], maxModelLen);
      ExtendTwice(v, [toks[0]], AppendUntilStop(w, toks[1..], maxModelLen).toks);
      assert toks == [toks[0]] + toks[1..];
    }
  }

  /**
   * The request stops at the first delivered token that `check_stop` accepts:
   * no proper prefix of the delivered tokens stops it, and the whole does iff
   * the request is reported as stopped.
   */
  lemma {:induction false} CutAtFirstStop(v: View, toks: seq<Token>, maxModelLen: nat, k: nat)
    requires 0 < k <= |AppendUntilStop(v, toks, maxModelLen).toks|
    ensures k <= |toks|
    ensures var a := AppendUntilStop(v, toks, maxModelLen);
            var stop := CheckStop(Extend(v, toks[..k]), maxModelLen);
            && (k < |a.toks| ==> stop.None?)
            && (k == |a.toks| ==> stop.Some? == a.stopped)
            && (k == |a.toks| && a.stopped ==> stop.value == a.v.status)
    decreases toks
  {
    var w := Extend(v, [toks[0]]);
    assert toks[..1] == [toks[0]];
    if k > 1 {
      CutAtFirstStop(w, toks[1..], maxModelLen, k - 1);
      ExtendTwice(v, [toks[0]], toks[1..][..k - 1]);
      assert toks[..k] == [toks[0]] + toks[1..][..k - 1];
    }
  }
}
