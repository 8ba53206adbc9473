/** The three forwarding loops of app/main.py, driven by an arbitrary outcome per target, and the one
    specification they share: stop at the first target whose outcome does not allow a fallback, or at
    the last target. */
module Routing {
  import opened Common

  datatype Outcome =
    | Blocked(reason: string)          // OutboundPolicyError
    | Unreachable(kind: string)        // ConnectError or ConnectTimeout
    | TimedOut
    | Broken                           // any other RequestError
    | Answered(status: int, prompt: Option<int>, completion: Option<int>)

  /** One enabled target and what the world does when it is tried. `refusal` is the adapter's error while
      preparing the request; `cramped` says that the provider's request bucket cannot hold one request, so
      that acquire raises. */
  datatype Leg = Leg(provider: string, model: string, refusal: Option<string>, cramped: bool, timeout: string,
                     waitMs: int, responseMs: int, outcome: Outcome) {
    /** The upstream is never called. */
    predicate Untried() {
      refusal.Some? || cramped
    }
  }

  /** How an opened stream ends: its token counts, estimated if need be, and the interruption if any. */
  datatype Tail = Tail(prompt: int, completion: int, interruption: Option<string>)

  datatype Api = Chat | Embeddings | Stream(tail: Tail)

  /** The error labels stored with attempts and requests. */
  datatype ErrorType =
    | BlockedDestination | Connection | Timeout | Unknown
    | RateLimited | ServerError | ClientError
    | Interrupted(kind: string)

  datatype Reason = Detail(text: string) | HttpStatus(code: int)

  /** The error texts of replies. */
  datatype Message =
    | AllTargetsFailed
    | NoEnabledProvider
    | Refused(text: string)
    | BlockedByPolicy
    | ConnectionFailed
    | NoResponseWithin(seconds: string)
    | RequestFailed
    | ExceedsCapacity

  datatype Attempt = Attempt(number: int, provider: string, model: string, waitMs: int, responseMs: int,
                             status: Option<int>, errorType: Option<ErrorType>, fallbackReason: Option<Reason>)

  datatype Row = Row(model: string, waitMs: int, status: Option<int>, prompt: Option<int>, completion: Option<int>,
                     responseMs: int, errorType: Option<ErrorType>, provider: string, upstreamModel: string, attemptCount: int)

  /** Calls to the queue gauge and to the capacity controllers, in order. */
  datatype Call =
    | Inc(selector: string)
    | Dec(selector: string)
    | Acquire(provider: string, reserved: int)
    | Release(provider: string, reserved: int, actual: Option<int>)

  datatype Reply = Reply(status: int, error: Option<Message>, attempts: seq<Attempt>)

  const FALLBACK_STATUS_CODES: set<int> := {408, 429, 500, 502, 503, 504, 529}

  function ClassifyError(status: int): Option<ErrorType> {
    if status == 429 then Some(RateLimited)
    else if 500 <= status < 600 then Some(ServerError)
    else if 400 <= status < 500 then Some(ClientError)
    else None
  }

  predicate AllowsFallback(o: Outcome) {
    o.Blocked? || o.Unreachable? || (o.Answered? && o.status in FALLBACK_STATUS_CODES)
  }

  // ---------------------------------------------------------------- the shared specification

  /** Target number `i` is tried and the loop goes on to the next one. */
  predicate Passes(legs: seq<Leg>, i: nat)
    requires i < |legs|
  {
    i + 1 < |legs| && !legs[i].Untried() && AllowsFallback(legs[i].outcome)
  }

  ghost predicate StopsAt(legs: seq<Leg>, k: nat) {
    k < |legs| && !Passes(legs, k) && forall i: nat | i < k :: Passes(legs, i)
  }

  /** The target at which a run that has reached target `i` stops. */
  function Stop(legs: seq<Leg>, i: nat := 0): (k: nat)
    requires i < |legs|
    ensures i <= k < |legs|
    decreases |legs| - i
  {
    if Passes(legs, i) then Stop(legs, i + 1) else i
  }

  lemma StopIsTheFirst(legs: seq<Leg>, k: nat, i: nat := 0)
    requires StopsAt(legs, k) && i <= k
    ensures Stop(legs, i) == k
    decreases k - i
  {
  }

  lemma StopExists(legs: seq<Leg>, i: nat := 0)
    requires i < |legs| && forall j: nat | j < i :: Passes(legs, j)
    ensures StopsAt(legs, Stop(legs, i))
    decreases |legs| - i
  {
  }

  function InterruptionOf(tail: Tail): Option<ErrorType> {
    if tail.interruption.Some? then Some(Interrupted(tail.interruption.value)) else None
  }

  function ErrorTypeOf(api: Api, leg: Leg, last: bool): Option<ErrorType> {
    match leg.outcome
    case Blocked(_) => Some(BlockedDestination)
    case Unreachable(_) => Some(Connection)
    case TimedOut => Some(Timeout)
    case Broken => Some(if api.Stream? then Connection else Unknown)
    case Answered(status, _, _) => if api.Stream? && last then InterruptionOf(api.tail) else ClassifyError(status)
  }

  function StatusOf(api: Api, leg: Leg, last: bool): Option<int> {
    if !leg.outcome.Answered? || (api.Stream? && last && api.tail.interruption.Some?) then None
    else Some(leg.outcome.status)
  }

  function ReasonOf(o: Outcome): Reason {
    match o
    case Blocked(reason) => Detail(reason)
    case Unreachable(kind) => Detail(kind)
    case Answered(status, _, _) => HttpStatus(status)
    case _ => Detail("")
  }

  /** The record of attempt `number`; `last` says the run ends with it. */
  function AttemptFor(api: Api, leg: Leg, number: nat, last: bool): Attempt {
    Attempt(number, leg.provider, leg.model, leg.waitMs, leg.responseMs, StatusOf(api, leg, last),
            ErrorTypeOf(api, leg, last), if last then None else Some(ReasonOf(leg.outcome)))
  }

  function AttemptAt(api: Api, legs: seq<Leg>, i: nat): Attempt
    requires i < |legs|
  {
    AttemptFor(api, legs[i], i + 1, !Passes(legs, i))
  }

  /** The records of the first `k` targets. */
  function Attempts(api: Api, legs: seq<Leg>, k: nat): seq<Attempt>
    requires k <= |legs|
  {
    if k == 0 then [] else Attempts(api, legs, k - 1) + [AttemptAt(api, legs, k - 1)]
  }

  function TotalWait(legs: seq<Leg>, k: nat): int
    requires k <= |legs|
  {
    if k == 0 then 0 else TotalWait(legs, k - 1) + legs[k - 1].waitMs
  }

  /** The token count handed back on release: known only for the answer that ends the run. */
  function ActualOf(api: Api, leg: Leg, last: bool): Option<int> {
    if !last || !leg.outcome.Answered? then None
    else match api
      case Chat =>
        if leg.outcome.prompt.Some? && leg.outcome.completion.Some?
        then Some(leg.outcome.prompt.value + leg.outcome.completion.value) else None
      case Embeddings => leg.outcome.prompt
      case Stream(tail) => Some(tail.prompt + tail.completion)
  }

  function CallsFor(api: Api, selector: string, leg: Leg, reserved: int, last: bool): seq<Call> {
    [Inc(selector), Acquire(leg.provider, reserved), Dec(selector), Release(leg.provider, reserved, ActualOf(api, leg, last))]
  }

  function CallsOf(api: Api, selector: string, legs: seq<Leg>, i: nat, reserved: int): seq<Call>
    requires i < |legs|
  {
    CallsFor(api, selector, legs[i], reserved, !Passes(legs, i))
  }

  function Calls(api: Api, selector: string, legs: seq<Leg>, k: nat, reserved: int): seq<Call>
    requires k <= |legs|
  {
    if k == 0 then [] else Calls(api, selector, legs, k - 1, reserved) + CallsOf(api, selector, legs, k - 1, reserved)
  }

  function FailureMessage(leg: Leg): Message {
    match leg.outcome
    case Blocked(_) => BlockedByPolicy
    case Unreachable(_) => ConnectionFailed
    case TimedOut => NoResponseWithin(leg.timeout)
    case _ => RequestFailed
  }

  /** What a finished run leaves behind when it stops at target `k`. */
  datatype Effect = Effect(calls: seq<Call>, rows: seq<Row>, stored: seq<Attempt>, reply: Reply)

  function RowAt(api: Api, selector: string, legs: seq<Leg>, k: nat): Row
    requires k < |legs| && !legs[k].Untried()
  {
    var leg, wait := legs[k], TotalWait(legs, k + 1);
    match leg.outcome
    case Answered(status, prompt, completion) =>
      (match api
       case Chat => Row(selector, wait, Some(status), prompt, completion, leg.responseMs, ClassifyError(status), leg.provider, leg.model, k + 1)
       case Embeddings => Row(selector, wait, Some(status), prompt, Some(0), leg.responseMs, ClassifyError(status), leg.provider, leg.model, k + 1)
       case Stream(tail) =>
         Row(selector, wait, StatusOf(api, leg, true), Some(tail.prompt), Some(tail.completion), leg.responseMs,
             if tail.interruption.Some? then InterruptionOf(tail) else ClassifyError(status), leg.provider, leg.model, k + 1))
    case _ => Row(selector, wait, None, None, None, leg.responseMs, ErrorTypeOf(api, leg, true), leg.provider, leg.model, k + 1)
  }

  /** An exception that nobody catches: the client sees a server error, nothing is stored. */
  const RAISED := Reply(500, Some(ExceedsCapacity), [])

  function FailureStatus(api: Api, o: Outcome): int {
    if api.Stream? && o.TimedOut? then 504 else 502
  }

  function EffectAt(api: Api, selector: string, legs: seq<Leg>, k: nat, reserved: int): Effect
    requires k < |legs|
  {
    var leg := legs[k];
    if leg.refusal.Some? then
      var sofar := Attempts(api, legs, k);
      Effect(Calls(api, selector, legs, k, reserved), [], [],
             Reply(422, Some(Refused(leg.refusal.value)), if api.Stream? then [] else sofar))
    else if leg.cramped then
      Effect(Calls(api, selector, legs, k, reserved) + [Inc(selector), Dec(selector)], [], [], RAISED)
    else
      var attempts := Attempts(api, legs, k + 1);
      var stored := leg.outcome.Answered? || !api.Stream?;
      Effect(Calls(api, selector, legs, k + 1, reserved),
             if stored then [RowAt(api, selector, legs, k)] else [],
             if stored then attempts else [],
             if leg.outcome.Answered? then Reply(leg.outcome.status, None, attempts)
             else Reply(FailureStatus(api, leg.outcome), Some(FailureMessage(leg)), attempts))
  }

  // ---------------------------------------------------------------- the loops

  const NO_ATTEMPT := Attempt(0, "", "", 0, 0, None, None, None)

  /** How trying one target ends. */
  datatype Turn = Next | GotAnswer | GaveUp(message: Message) | Raised | Refusing

  function TurnFor(leg: Leg, last: bool): Turn {
    if leg.cramped then Raised else if !last then Next else if leg.outcome.Answered? then GotAnswer else GaveUp(FailureMessage(leg))
  }

  function FailureRow(selector: string, totalWait: int, attempts: seq<Attempt>): Row
    requires attempts != []
  {
    var final := attempts[|attempts| - 1];
    Row(selector, totalWait, None, None, None, final.responseMs, final.errorType, final.provider, final.model, |attempts|)
  }

  function Filed(id: nat, attempts: seq<Attempt>): seq<(nat, Attempt)> {
    seq(|attempts|, i requires 0 <= i < |attempts| => (id, attempts[i]))
  }

  lemma NothingStored(requests: seq<Row>, stored: seq<(nat, Attempt)>)
    ensures requests + [] == requests
    ensures stored + Filed(|requests|, []) == stored
  {
  }

  /** Where a loop stands after `k` targets, `before` being the calls made before the run. */
  ghost predicate Progress(api: Api, selector: string, legs: seq<Leg>, k: nat, reserved: int, before: seq<Call>,
                           calls: seq<Call>, attempts: seq<Attempt>, totalWait: int)
    requires k <= |legs|
  {
    && attempts == Attempts(api, legs, k) && |attempts| == k
    && totalWait == TotalWait(legs, k)
    && calls == before + Calls(api, selector, legs, k, reserved)
  }

  lemma NoTarget(api: Api, selector: string, legs: seq<Leg>, reserved: int, before: seq<Call>)
    ensures Progress(api, selector, legs, 0, reserved, before, before, [], 0)
  {
    assert before + [] == before;
  }

  /** One target further; what the loop has done when it ends before calling the target. */
  lemma OneTarget(api: Api, selector: string, legs: seq<Leg>, k: nat, reserved: int, before: seq<Call>,
                  calls: seq<Call>, attempts: seq<Attempt>, totalWait: int)
    requires k < |legs| && Progress(api, selector, legs, k, reserved, before, calls, attempts, totalWait)
    ensures Progress(api, selector, legs, k + 1, reserved, before, calls + CallsOf(api, selector, legs, k, reserved),
                     attempts + [AttemptAt(api, legs, k)], totalWait + legs[k].waitMs)
    ensures legs[k].refusal.Some? ==> calls == before + EffectAt(api, selector, legs, k, reserved).calls
    ensures legs[k].refusal.None? && legs[k].cramped ==>
              calls + [Inc(selector), Dec(selector)] == before + EffectAt(api, selector, legs, k, reserved).calls
  {
    var done, own := Calls(api, selector, legs, k, reserved), CallsOf(api, selector, legs, k, reserved);
    assert before + done + own == before + (done + own);
    assert before + done + [Inc(selector), Dec(selector)] == before + (done + [Inc(selector), Dec(selector)]);
  }

  /** What a loop hands over when it ends at target `k`. */
  ghost predicate Reached(api: Api, legs: seq<Leg>, k: nat, attempts: seq<Attempt>, totalWait: int, turn: Turn) {
    && k < |legs|
    && turn == (if legs[k].refusal.Some? then Refusing else TurnFor(legs[k], true))
    && (if legs[k].Untried() then attempts == Attempts(api, legs, k)
        else attempts == Attempts(api, legs, k + 1) && |attempts| == k + 1 && totalWait == TotalWait(legs, k + 1))
  }

  /** What is to be stored and replied then. */
  lemma StopsHere(api: Api, selector: string, legs: seq<Leg>, k: nat, reserved: int, attempts: seq<Attempt>, totalWait: int, turn: Turn)
    requires Reached(api, legs, k, attempts, totalWait, turn)
    ensures var (e, leg) := (EffectAt(api, selector, legs, k, reserved), legs[k]);
            match turn
            case Refusing =>
              && e.rows == [] && e.stored == []
              && e.reply == Reply(422, Some(Refused(leg.refusal.value)), if api.Stream? then [] else attempts)
            case Raised => e.rows == [] && e.stored == [] && e.reply == RAISED
            case GotAnswer => e.rows == [RowAt(api, selector, legs, k)] && e.stored == attempts && e.reply == Reply(leg.outcome.status, None, attempts)
            case GaveUp(message) =>
              && (if api.Stream? then e.rows == [] && e.stored == []
                  else e.rows == [FailureRow(selector, totalWait, attempts)] && e.stored == attempts)
              && e.reply == Reply(FailureStatus(api, leg.outcome), Some(message), attempts)
            case Next => false
    ensures turn.GotAnswer? ==> RowAt(api, selector, legs, k).waitMs == totalWait && RowAt(api, selector, legs, k).attemptCount == |attempts|
  {
    if !legs[k].Untried() {
      assert attempts[k] == AttemptAt(api, legs, k);
    }
  }

  lemma FiledSnoc(id: nat, attempts: seq<Attempt>, i: nat)
    requires i < |attempts|
    ensures Filed(id, attempts[..i + 1]) == Filed(id, attempts[..i]) + [(id, attempts[i])]
  {
  }

  lemma CallsOfEffect(api: Api, selector: string, legs: seq<Leg>, k: nat, reserved: int)
    requires k < |legs|
    ensures EffectAt(api, selector, legs, k, reserved).calls ==
            if !legs[k].Untried() then Calls(api, selector, legs, k + 1, reserved)
            else if legs[k].refusal.Some? then Calls(api, selector, legs, k, reserved)
            else Calls(api, selector, legs, k, reserved) + [Inc(selector), Dec(selector)]
  {
  }

  // ---------------------------------------------------------------- which outcomes are passed over

  /** Outcomes after which the next target is tried: the destination is blocked or cannot be reached, or it
      answers that it is too slow, too busy or broken. */
  predicate CallsForAnother(o: Outcome) {
    match o
    case Blocked(_) => true
    case Unreachable(_) => true
    case Answered(status, _, _) =>
      status == 408 || status == 429 || status == 500 || status == 502 || status == 503 || status == 504 || status == 529
    case _ => false
  }

  lemma OutcomesAgree(o: Outcome)
    ensures CallsForAnother(o) <==> AllowsFallback(o)
  {
  }

  /** A run goes past target `i` exactly when every target up to it has been tried, has called for another,
      and is not the last. */
  lemma StopByOutcome(legs: seq<Leg>, i: nat)
    requires i < |legs|
    ensures i < Stop(legs) <==>
            forall j: nat | j <= i :: j + 1 < |legs| && legs[j].refusal.None? && !legs[j].cramped && CallsForAnother(legs[j].outcome)
  {
    var k := Stop(legs);
    StopExists(legs);
    if i < k {
      forall j: nat | j <= i
        ensures j + 1 < |legs| && legs[j].refusal.None? && !legs[j].cramped && CallsForAnother(legs[j].outcome)
      {
        assert Passes(legs, j);
        OutcomesAgree(legs[j].outcome);
      }
    } else {
      OutcomesAgree(legs[k].outcome);
      assert !Passes(legs, k);
    }
  }

  /** The error text names what went wrong at the target. */
  ghost predicate Explains(message: Message, leg: Leg) {
    && (message == BlockedByPolicy <==> leg.outcome.Blocked?)
    && (message == ConnectionFailed <==> leg.outcome.Unreachable?)
    && (message == NoResponseWithin(leg.timeout) <==> leg.outcome.TimedOut?)
    && (message == RequestFailed <==> leg.outcome.Broken?)
  }

  /** The replies of a run: an answer that calls for another target is returned only when every target has
      been tried; a timeout or a broken request ends the run. */
  ghost predicate RepliesByOutcome(api: Api, legs: seq<Leg>, reply: Reply) {
    && |reply.attempts| <= |legs|
    && (reply.error.None? ==>
          && 0 < |reply.attempts|
          && var last := legs[|reply.attempts| - 1];
             && last.outcome.Answered? && reply.status == last.outcome.status
             && (CallsForAnother(last.outcome) ==> |reply.attempts| == |legs|))
    && (forall i: nat | i + 1 < |reply.attempts| :: CallsForAnother(legs[i].outcome))
    && (reply.error == Some(ExceedsCapacity) ==> reply.status == 500 && reply.attempts == [])
    && (reply.error.Some? && reply.error.value.Refused? ==> reply.status == 422 && (api.Stream? ==> reply.attempts == []))
    && (reply.error == Some(BlockedByPolicy) || reply.error == Some(ConnectionFailed) ==> |reply.attempts| == |legs|)
    && (reply.error.Some? && |reply.attempts| > 0 && !reply.error.value.Refused? ==>
          var last := legs[|reply.attempts| - 1];
          reply.status == (if api.Stream? && last.outcome.TimedOut? then 504 else 502) && Explains(reply.error.value, last))
  }

  lemma {:induction false} AttemptsByIndex(api: Api, legs: seq<Leg>, k: nat)
    requires k <= |legs|
    ensures |Attempts(api, legs, k)| == k
    ensures forall i: nat | i < k :: Attempts(api, legs, k)[i] == AttemptAt(api, legs, i)
  {
    if k == 0 {
    } else {
      AttemptsByIndex(api, legs, k - 1);
    }
  }

  lemma StopsForAReason(legs: seq<Leg>)
    requires legs != []
    ensures forall i: nat | i < Stop(legs) :: CallsForAnother(legs[i].outcome)
    ensures var k := Stop(legs); !legs[k].Untried() && CallsForAnother(legs[k].outcome) ==> k + 1 == |legs|
  {
    var k := Stop(legs);
    StopExists(legs);
    assert !Passes(legs, k);
    OutcomesAgree(legs[k].outcome);
    forall i: nat | i < k
      ensures CallsForAnother(legs[i].outcome)
    {
      assert Passes(legs, i);
      OutcomesAgree(legs[i].outcome);
    }
  }

  lemma RunRepliesByOutcome(api: Api, selector: string, legs: seq<Leg>, reserved: int)
    requires legs != []
    ensures RepliesByOutcome(api, legs, EffectAt(api, selector, legs, Stop(legs), reserved).reply)
  {
    var k := Stop(legs);
    StopsForAReason(legs);
    AttemptsByIndex(api, legs, k);
    AttemptsByIndex(api, legs, k + 1);
  }

  /** The application state the loops write to. */
  class Gateway {
    var calls: seq<Call>
    var requests: seq<Row>
    var stored: seq<(nat, Attempt)>   // request row number and attempt

    constructor ()
      ensures calls == [] && requests == [] && stored == []
    {
      calls, requests, stored := [], [], [];
    }

    /** A run that leaves `effect` behind, its attempts filed under the row it stored. */
    twostate predicate Leaves(effect: Effect)
      reads this
    {
      && calls == old(calls) + effect.calls
      && requests == old(requests) + effect.rows
      && stored == old(stored) + Filed(old(|requests|), effect.stored)
    }

    method Store(row: Row, attempts: seq<Attempt>)
      modifies this`requests, this`stored
      ensures requests == old(requests) + [row]
      ensures stored == old(stored) + Filed(old(|requests|), attempts)
    {
      var id := |requests|;
      requests := requests + [row];
      ghost var before := stored;
      for i := 0 to |attempts|
        invariant requests == old(requests) + [row]
        invariant stored == before + Filed(id, attempts[..i])
      {
        FiledSnoc(id, attempts, i);
        stored := stored + [(id, attempts[i])];
      }
      assert attempts[..|attempts|] == attempts;
    }

    /** acquire between the gauge's increment and its decrement in a finally block; not ok when it raises. */
    method Reserve(selector: string, leg: Leg, reservation: int) returns (waitMs: int, reserved: int, ok: bool)
      modifies this`calls
      ensures ok <==> !leg.cramped
      ensures calls == old(calls) + if ok then [Inc(selector), Acquire(leg.provider, reservation), Dec(selector)]
                                    else [Inc(selector), Dec(selector)]
      ensures waitMs == leg.waitMs && reserved == reservation
    {
      calls := calls + [Inc(selector)];
      waitMs, reserved, ok := leg.waitMs, reservation, !leg.cramped;
      if ok {
        calls := calls + [Acquire(leg.provider, reservation)];
      }
      calls := calls + [Dec(selector)];
    }

    method ReleaseCapacity(leg: Leg, reserved: int, actual: Option<int>)
      modifies this`calls
      ensures calls == old(calls) + [Release(leg.provider, reserved, actual)]
    {
      calls := calls + [Release(leg.provider, reserved, actual)];
    }

    /** The four exception handlers around the upstream call: release without a count, and record
        the attempt; `brokenType` is the label of the last handler, `more` says a target is left. */
    method OnException(index: nat, leg: Leg, reserved: int, more: bool, brokenType: ErrorType)
      returns (attempt: Attempt, message: Message)
      requires !leg.outcome.Answered?
      modifies this`calls
      ensures calls == old(calls) + [Release(leg.provider, reserved, None)]
      ensures message == FailureMessage(leg)
      ensures attempt == Attempt(index, leg.provider, leg.model, leg.waitMs, leg.responseMs, None,
                                 Some(match leg.outcome
                                      case Blocked(_) => BlockedDestination
                                      case Unreachable(_) => Connection
                                      case TimedOut => Timeout
                                      case _ => brokenType),
                                 if more && AllowsFallback(leg.outcome) then Some(ReasonOf(leg.outcome)) else None)
    {
      ReleaseCapacity(leg, reserved, None);
      var errorType, reason: Option<Reason> := brokenType, None;
      match leg.outcome {
        case Blocked(detail) =>
          message, errorType := BlockedByPolicy, BlockedDestination;
          reason := if more then Some(Detail(detail)) else None;
        case Unreachable(kind) =>
          message, errorType := ConnectionFailed, Connection;
          reason := if more then Some(Detail(kind)) else None;
        case TimedOut =>
          message, errorType := NoResponseWithin(leg.timeout), Timeout;
        case Broken =>
          message := RequestFailed;
      }
      attempt := Attempt(index, leg.provider, leg.model, leg.waitMs, leg.responseMs, None, Some(errorType), reason);
    }

    /** One target of forward_chat_request: reserve, call, classify, release, record. */
    method TryChat(selector: string, leg: Leg, index: nat, more: bool, reservation: int)
      returns (turn: Turn, attempt: Attempt)
      requires leg.refusal.None?
      modifies this`calls
      ensures var last := !more || !AllowsFallback(leg.outcome);
              && calls == old(calls) + (if leg.cramped then [Inc(selector), Dec(selector)] else CallsFor(Chat, selector, leg, reservation, last))
              && (!leg.cramped ==> attempt == AttemptFor(Chat, leg, index, last))
              && turn == TurnFor(leg, last)
    {
      var wait, reserved, ok := Reserve(selector, leg, reservation);
      if !ok {
        return Raised, NO_ATTEMPT;
      }
      if !leg.outcome.Answered? {
        var message;
        attempt, message := OnException(index, leg, reserved, more, Unknown);
        turn := if (leg.outcome.Blocked? || leg.outcome.Unreachable?) && more then Next else GaveUp(message);
        return;
      }
      var Answered(status, prompt, completion) := leg.outcome;
      if status in FALLBACK_STATUS_CODES && more {
        ReleaseCapacity(leg, reserved, None);
        attempt := Attempt(index, leg.provider, leg.model, wait, leg.responseMs, Some(status), ClassifyError(status), Some(HttpStatus(status)));
        return Next, attempt;
      }
      var actual := if prompt.Some? && completion.Some? then Some(prompt.value + completion.value) else None;
      ReleaseCapacity(leg, reserved, actual);
      attempt := Attempt(index, leg.provider, leg.model, wait, leg.responseMs, Some(status), ClassifyError(status), None);
      turn := GotAnswer;
    }

    /** One target of forward_embeddings_request. */
    method TryEmbeddings(selector: string, leg: Leg, index: nat, more: bool, reservation: int)
      returns (turn: Turn, attempt: Attempt)
      requires leg.refusal.None?
      modifies this`calls
      ensures var last := !more || !AllowsFallback(leg.outcome);
              && calls == old(calls) + (if leg.cramped then [Inc(selector), Dec(selector)] else CallsFor(Embeddings, selector, leg, reservation, last))
              && (!leg.cramped ==> attempt == AttemptFor(Embeddings, leg, index, last))
              && turn == TurnFor(leg, last)
    {
      var wait, reserved, ok := Reserve(selector, leg, reservation);
      if !ok {
        return Raised, NO_ATTEMPT;
      }
      if !leg.outcome.Answered? {
        var message;
        attempt, message := OnException(index, leg, reserved, more, Unknown);
        turn := if (leg.outcome.Blocked? || leg.outcome.Unreachable?) && more then Next else GaveUp(message);
        return;
      }
      var Answered(status, prompt, completion) := leg.outcome;
      if status in FALLBACK_STATUS_CODES && more {
        ReleaseCapacity(leg, reserved, None);
        attempt := Attempt(index, leg.provider, leg.model, wait, leg.responseMs, Some(status), ClassifyError(status), Some(HttpStatus(status)));
        return Next, attempt;
      }
      ReleaseCapacity(leg, reserved, prompt);
      attempt := Attempt(index, leg.provider, leg.model, wait, leg.responseMs, Some(status), ClassifyError(status), None);
      turn := GotAnswer;
    }

    /** One target of streaming_proxy_response; an opened stream is played to its end, whose finally block
        releases and records. */
    method TryStream(selector: string, leg: Leg, index: nat, more: bool, reservation: int, tail: Tail)
      returns (turn: Turn, attempt: Attempt)
      requires leg.refusal.None?
      modifies this`calls
      ensures var last := !more || !AllowsFallback(leg.outcome);
              && calls == old(calls) + (if leg.cramped then [Inc(selector), Dec(selector)] else CallsFor(Stream(tail), selector, leg, reservation, last))
              && (!leg.cramped ==> attempt == AttemptFor(Stream(tail), leg, index, last))
              && turn == TurnFor(leg, last)
    {
      var wait, reserved, ok := Reserve(selector, leg, reservation);
      if !ok {
        return Raised, NO_ATTEMPT;
      }
      if !leg.outcome.Answered? {
        var message;
        attempt, message := OnException(index, leg, reserved, more, Connection);
        turn := if (leg.outcome.Blocked? || leg.outcome.Unreachable?) && more then Next else GaveUp(message);
        return;
      }
      var Answered(status, prompt, completion) := leg.outcome;
      if status in FALLBACK_STATUS_CODES && more {
        ReleaseCapacity(leg, reserved, None);
        attempt := Attempt(index, leg.provider, leg.model, wait, leg.responseMs, Some(status), ClassifyError(status), Some(HttpStatus(status)));
        return Next, attempt;
      }
      var responseError := InterruptionOf(tail);
      ReleaseCapacity(leg, reserved, Some(tail.prompt + tail.completion));
      attempt := Attempt(index, leg.provider, leg.model, wait, leg.responseMs,
                         if responseError.None? then Some(status) else None, responseError, None);
      turn := GotAnswer;
    }

    /** The row of an answered chat or embeddings run. */
    method StoreAnswer(selector: string, leg: Leg, totalWait: int, completion: Option<int>, attempts: seq<Attempt>)
      requires leg.outcome.Answered?
      modifies this`requests, this`stored
      ensures requests == old(requests) + [Row(selector, totalWait, Some(leg.outcome.status), leg.outcome.prompt, completion, leg.responseMs,
                                               ClassifyError(leg.outcome.status), leg.provider, leg.model, |attempts|)]
      ensures stored == old(stored) + Filed(old(|requests|), attempts)
    {
      var Answered(status, prompt, _) := leg.outcome;
      Store(Row(selector, totalWait, Some(status), prompt, completion, leg.responseMs, ClassifyError(status),
                leg.provider, leg.model, |attempts|), attempts);
    }

    /** The row of an opened stream. */
    method StoreStream(selector: string, leg: Leg, totalWait: int, tail: Tail, attempts: seq<Attempt>)
      requires leg.outcome.Answered?
      modifies this`requests, this`stored
      ensures requests == old(requests) + [Row(selector, totalWait, StatusOf(Stream(tail), leg, true), Some(tail.prompt), Some(tail.completion),
                                               leg.responseMs,
                                               if tail.interruption.Some? then InterruptionOf(tail) else ClassifyError(leg.outcome.status),
                                               leg.provider, leg.model, |attempts|)]
      ensures stored == old(stored) + Filed(old(|requests|), attempts)
    {
      var responseError := InterruptionOf(tail);
      Store(Row(selector, totalWait, if responseError.None? then Some(leg.outcome.status) else None, Some(tail.prompt), Some(tail.completion),
                leg.responseMs, if responseError.Some? then responseError else ClassifyError(leg.outcome.status),
                leg.provider, leg.model, |attempts|), attempts);
    }

    /** The row of a chat or embeddings run without an answer, taken from its last attempt. */
    method StoreFailure(selector: string, totalWait: int, attempts: seq<Attempt>)
      requires attempts != []
      modifies this`requests, this`stored
      ensures requests == old(requests) + [FailureRow(selector, totalWait, attempts)]
      ensures stored == old(stored) + Filed(old(|requests|), attempts)
    {
      var final := attempts[|attempts| - 1];
      Store(Row(selector, totalWait, None, None, None, final.responseMs, final.errorType, final.provider, final.model, |attempts|), attempts);
    }

    /** The loop over the targets of forward_chat_request. */
    method TryChatTargets(selector: string, legs: seq<Leg>, reservation: int)
      returns (k: nat, attempts: seq<Attempt>, totalWait: int, turn: Turn)
      requires legs != []
      modifies this`calls
      ensures k == Stop(legs) && calls == old(calls) + EffectAt(Chat, selector, legs, k, reservation).calls
      ensures Reached(Chat, legs, k, attempts, totalWait, turn)
    {
      attempts, totalWait := [], 0;
      var index := 0;
      ghost var api, before := Chat, calls;
      NoTarget(api, selector, legs, reservation, before);
      while true
        invariant index < |legs| && Stop(legs, index) == Stop(legs)
        invariant Progress(api, selector, legs, index, reservation, before, calls, attempts, totalWait)
        decreases |legs| - index
      {
        var leg := legs[index];
        index := index + 1;
        OneTarget(api, selector, legs, index - 1, reservation, before, calls, attempts, totalWait);
        if leg.refusal.Some? {
          return index - 1, attempts, totalWait, Refusing;
        }
        var attempt;
        turn, attempt := TryChat(selector, leg, index, index < |legs|, reservation);
        if turn.Raised? {
          return index - 1, attempts, totalWait, turn;
        }
        totalWait := totalWait + attempt.waitMs;
        attempts := attempts + [attempt];
        if turn.Next? {
          continue;
        }
        CallsOfEffect(api, selector, legs, index - 1, reservation);
        return index - 1, attempts, totalWait, turn;
      }
    }

    /** The loop over the targets of forward_embeddings_request. */
    method TryEmbeddingsTargets(selector: string, legs: seq<Leg>, reservation: int)
      returns (k: nat, attempts: seq<Attempt>, totalWait: int, turn: Turn)
      requires legs != []
      modifies this`calls
      ensures k == Stop(legs) && calls == old(calls) + EffectAt(Embeddings, selector, legs, k, reservation).calls
      ensures Reached(Embeddings, legs, k, attempts, totalWait, turn)
    {
      attempts, totalWait := [], 0;
      var index := 0;
      ghost var api, before := Embeddings, calls;
      NoTarget(api, selector, legs, reservation, before);
      while true
        invariant index < |legs| && Stop(legs, index) == Stop(legs)
        invariant Progress(api, selector, legs, index, reservation, before, calls, attempts, totalWait)
        decreases |legs| - index
      {
        var leg := legs[index];
        index := index + 1;
        OneTarget(api, selector, legs, index - 1, reservation, before, calls, attempts, totalWait);
        if leg.refusal.Some? {
          return index - 1, attempts, totalWait, Refusing;
        }
        var attempt;
        turn, attempt := TryEmbeddings(selector, leg, index, index < |legs|, reservation);
        if turn.Raised? {
          return index - 1, attempts, totalWait, turn;
        }
        totalWait := totalWait + attempt.waitMs;
        attempts := attempts + [attempt];
        if turn.Next? {
          continue;
        }
        CallsOfEffect(api, selector, legs, index - 1, reservation);
        return index - 1, attempts, totalWait, turn;
      }
    }

    /** The loop over the targets of streaming_proxy_response. */
    method TryStreamTargets(selector: string, legs: seq<Leg>, reservation: int, tail: Tail)
      returns (k: nat, attempts: seq<Attempt>, totalWait: int, turn: Turn)
      requires legs != []
      modifies this`calls
      ensures k == Stop(legs) && calls == old(calls) + EffectAt(Stream(tail), selector, legs, k, reservation).calls
      ensures Reached(Stream(tail), legs, k, attempts, totalWait, turn)
    {
      attempts, totalWait := [], 0;
      var index := 0;
      ghost var api, before := Stream(tail), calls;
      NoTarget(api, selector, legs, reservation, before);
      while true
        invariant index < |legs| && Stop(legs, index) == Stop(legs)
        invariant Progress(api, selector, legs, index, reservation, before, calls, attempts, totalWait)
        decreases |legs| - index
      {
        var leg := legs[index];
        index := index + 1;
        OneTarget(api, selector, legs, index - 1, reservation, before, calls, attempts, totalWait);
        if leg.refusal.Some? {
          return index - 1, attempts, totalWait, Refusing;
        }
        var attempt;
        turn, attempt := TryStream(selector, leg, index, index < |legs|, reservation, tail);
        if turn.Raised? {
          return index - 1, attempts, totalWait, turn;
        }
        totalWait := totalWait + attempt.waitMs;
        attempts := attempts + [attempt];
        if turn.Next? {
          continue;
        }
        CallsOfEffect(api, selector, legs, index - 1, reservation);
        return index - 1, attempts, totalWait, turn;
      }
    }

    /** forward_chat_request: the loop, then what it stores and replies. */
    method ForwardChat(selector: string, legs: seq<Leg>, reservation: int) returns (reply: Reply)
      modifies this
      ensures legs == [] ==> reply == Reply(503, Some(NoEnabledProvider), []) && Leaves(Effect([], [], [], reply))
      ensures legs != [] ==> Leaves(EffectAt(Chat, selector, legs, Stop(legs), reservation))
      ensures legs != [] ==> reply == EffectAt(Chat, selector, legs, Stop(legs), reservation).reply
      ensures legs != [] ==> RepliesByOutcome(Chat, legs, reply)
    {
      if legs == [] {
        return Reply(503, Some(NoEnabledProvider), []);
      }
      var k, attempts, totalWait, turn := TryChatTargets(selector, legs, reservation);
      StopsHere(Chat, selector, legs, k, reservation, attempts, totalWait, turn);
      RunRepliesByOutcome(Chat, selector, legs, reservation);
      NothingStored(requests, stored);
      match turn {
        case Refusing =>
          return Reply(422, Some(Refused(legs[k].refusal.value)), attempts);
        case Raised =>
          return RAISED;
        case GotAnswer =>
          StoreAnswer(selector, legs[k], totalWait, legs[k].outcome.completion, attempts);
          return Reply(legs[k].outcome.status, None, attempts);
        case GaveUp(message) =>
          StoreFailure(selector, totalWait, attempts);
          return Reply(502, Some(message), attempts);
      }
    }

    /** forward_embeddings_request: the loop, then what it stores and replies. */
    method ForwardEmbeddings(selector: string, legs: seq<Leg>, reservation: int) returns (reply: Reply)
      modifies this
      ensures legs == [] ==> reply == Reply(503, Some(NoEnabledProvider), []) && Leaves(Effect([], [], [], reply))
      ensures legs != [] ==> Leaves(EffectAt(Embeddings, selector, legs, Stop(legs), reservation))
      ensures legs != [] ==> reply == EffectAt(Embeddings, selector, legs, Stop(legs), reservation).reply
      ensures legs != [] ==> RepliesByOutcome(Embeddings, legs, reply)
    {
      if legs == [] {
        return Reply(503, Some(NoEnabledProvider), []);
      }
      var k, attempts, totalWait, turn := TryEmbeddingsTargets(selector, legs, reservation);
      StopsHere(Embeddings, selector, legs, k, reservation, attempts, totalWait, turn);
      RunRepliesByOutcome(Embeddings, selector, legs, reservation);
      NothingStored(requests, stored);
      match turn {
        case Refusing =>
          return Reply(422, Some(Refused(legs[k].refusal.value)), attempts);
        case Raised =>
          return RAISED;
        case GotAnswer =>
          StoreAnswer(selector, legs[k], totalWait, Some(0), attempts);
          return Reply(legs[k].outcome.status, None, attempts);
        case GaveUp(message) =>
          StoreFailure(selector, totalWait, attempts);
          return Reply(502, Some(message), attempts);
      }
    }

    /** streaming_proxy_response together with the generator it returns; `tail` is how the stream ends. */
    method ForwardStream(selector: string, legs: seq<Leg>, reservation: int, tail: Tail) returns (reply: Reply)
      modifies this
      ensures legs == [] ==> reply == Reply(503, Some(NoEnabledProvider), []) && Leaves(Effect([], [], [], reply))
      ensures legs != [] ==> Leaves(EffectAt(Stream(tail), selector, legs, Stop(legs), reservation))
      ensures legs != [] ==> reply == EffectAt(Stream(tail), selector, legs, Stop(legs), reservation).reply
      ensures legs != [] ==> RepliesByOutcome(Stream(tail), legs, reply)
    {
      if legs == [] {
        return Reply(503, Some(NoEnabledProvider), []);
      }
      var k, attempts, totalWait, turn := TryStreamTargets(selector, legs, reservation, tail);
      StopsHere(Stream(tail), selector, legs, k, reservation, attempts, totalWait, turn);
      RunRepliesByOutcome(Stream(tail), selector, legs, reservation);
      NothingStored(requests, stored);
      match turn {
        case Refusing =>
          return Reply(422, Some(Refused(legs[k].refusal.value)), []);
        case Raised =>
          return RAISED;
        case GotAnswer =>
          StoreStream(selector, legs[k], totalWait, tail, attempts);
          return Reply(legs[k].outcome.status, None, attempts);
        case GaveUp(message) =>
          return Reply(if legs[k].outcome.TimedOut? then 504 else 502, Some(message), attempts);
      }
    }
  }
}
