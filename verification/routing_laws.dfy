/** What every run of the forwarding loops guarantees. */
module RoutingLaws {
  import opened Common
  import opened Routing

  /** Providers whose capacity was acquired, in order. */
  function Tried(calls: seq<Call>): seq<string> {
    if calls == [] then []
    else (if calls[0].Acquire? then [calls[0].provider] else []) + Tried(calls[1..])
  }

  function Providers(legs: seq<Leg>, k: nat): seq<string>
    requires k <= |legs|
  {
    if k == 0 then [] else Providers(legs, k - 1) + [legs[k - 1].provider]
  }

  lemma {:induction false} TriedConcat(a: seq<Call>, b: seq<Call>)
    ensures Tried(a + b) == Tried(a) + Tried(b)
  {
    if a == [] {
      assert a + b == b;
    } else {
      assert (a + b)[1..] == a[1..] + b;
      TriedConcat(a[1..], b);
    }
  }

  lemma TriedOnce(a: Call, b: Call, c: Call, d: Call)
    requires a.Inc? && b.Acquire? && c.Dec? && d.Release?
    ensures Tried([a, b, c, d]) == [b.provider]
  {
    assert [d][1..] == [] && Tried([d]) == [];
    assert [c, d][1..] == [d] && Tried([c, d]) == [];
    assert [b, c, d][1..] == [c, d] && Tried([b, c, d]) == [b.provider];
    assert [a, b, c, d][1..] == [b, c, d];
  }

  lemma {:induction false} TriedIsThePrefix(api: Api, selector: string, legs: seq<Leg>, k: nat, reserved: int)
    requires k <= |legs|
    ensures Tried(Calls(api, selector, legs, k, reserved)) == Providers(legs, k)
  {
    if k == 0 {
    } else {
      TriedIsThePrefix(api, selector, legs, k - 1, reserved);
      var last := CallsOf(api, selector, legs, k - 1, reserved);
      TriedConcat(Calls(api, selector, legs, k - 1, reserved), last);
      TriedOnce(last[0], last[1], last[2], last[3]);
    }
  }

  // ---- the capacity ledger

  /** Where a run stands with respect to the queue gauge and the controllers. */
  datatype Phase = Free | InQueue(selector: string) | Granted(selector: string, provider: string, reserved: int)
                 | Holding(provider: string, reserved: int) | Wrong

  /** The only legal order of calls; anything else is Wrong. */
  function Advance(phase: Phase, call: Call): Phase {
    match (phase, call)
    case (Free, Inc(selector)) => InQueue(selector)
    case (InQueue(selector), Acquire(provider, reserved)) => Granted(selector, provider, reserved)
    case (InQueue(selector), Dec(selector')) => if selector == selector' then Free else Wrong   // acquire has raised
    case (Granted(selector, provider, reserved), Dec(selector')) =>
      if selector == selector' then Holding(provider, reserved) else Wrong
    case (Holding(provider, reserved), Release(provider', reserved', _)) =>
      if provider == provider' && reserved == reserved' then Free else Wrong
    case _ => Wrong
  }

  function AdvanceAll(phase: Phase, calls: seq<Call>): Phase {
    if calls == [] then phase else Advance(AdvanceAll(phase, calls[..|calls| - 1]), calls[|calls| - 1])
  }

  /** Tokens a call takes from the bucket, less those it gives back. */
  function Debit(call: Call): int {
    match call
    case Acquire(_, reserved) => reserved
    case Release(_, reserved, Some(actual)) => if actual < reserved then actual - reserved else 0
    case _ => 0
  }

  function NetDebit(calls: seq<Call>): int {
    if calls == [] then 0 else NetDebit(calls[..|calls| - 1]) + Debit(calls[|calls| - 1])
  }

  function Least(a: int, b: int): int {
    if a <= b then a else b
  }

  lemma OneCall(phase: Phase, before: seq<Call>, call: Call)
    ensures AdvanceAll(phase, before + [call]) == Advance(AdvanceAll(phase, before), call)
    ensures NetDebit(before + [call]) == NetDebit(before) + Debit(call)
  {
    assert (before + [call])[..|before|] == before;
  }

  lemma FourCalls(phase: Phase, before: seq<Call>, a: Call, b: Call, c: Call, d: Call)
    ensures AdvanceAll(phase, before + [a, b, c, d])
         == Advance(Advance(Advance(Advance(AdvanceAll(phase, before), a), b), c), d)
    ensures NetDebit(before + [a, b, c, d]) == NetDebit(before) + Debit(a) + Debit(b) + Debit(c) + Debit(d)
  {
    OneCall(phase, before, a);
    OneCall(phase, before + [a], b);
    OneCall(phase, before + [a] + [b], c);
    OneCall(phase, before + [a] + [b] + [c], d);
    assert before + [a] + [b] + [c] + [d] == before + [a, b, c, d];
  }

  /** Every controller acquired is released exactly once, with the same reservation, before the next
      one is acquired; every gauge increment has its decrement before the upstream call ends; and a
      target that was passed over keeps its full reservation charged. */
  lemma {:induction false} PassedTargetsKeepTheirCharge(api: Api, selector: string, legs: seq<Leg>, k: nat, reserved: int)
    requires k <= |legs| && forall i: nat | i < k :: Passes(legs, i)
    ensures AdvanceAll(Free, Calls(api, selector, legs, k, reserved)) == Free
    ensures NetDebit(Calls(api, selector, legs, k, reserved)) == k * reserved
  {
    if k == 0 {
    } else {
      PassedTargetsKeepTheirCharge(api, selector, legs, k - 1, reserved);
      var last := CallsOf(api, selector, legs, k - 1, reserved);
      FourCalls(Free, Calls(api, selector, legs, k - 1, reserved), last[0], last[1], last[2], last[3]);
      assert k * reserved == (k - 1) * reserved + reserved;
    }
  }

  /** The tokens the last target is finally charged for. */
  function FinalCharge(api: Api, leg: Leg, reserved: int): int {
    match leg.outcome
    case Answered(_, prompt, completion) =>
      (match api
       case Chat => if prompt.Some? && completion.Some? then Least(reserved, prompt.value + completion.value) else reserved
       case Embeddings => if prompt.Some? then Least(reserved, prompt.value) else reserved
       case Stream(tail) => Least(reserved, tail.prompt + tail.completion))
    case _ => reserved
  }

  lemma LastTargetIsCharged(api: Api, selector: string, legs: seq<Leg>, k: nat, reserved: int)
    requires StopsAt(legs, k)
    ensures AdvanceAll(Free, Calls(api, selector, legs, k + 1, reserved)) == Free
    ensures NetDebit(Calls(api, selector, legs, k + 1, reserved)) == k * reserved + FinalCharge(api, legs[k], reserved)
  {
    PassedTargetsKeepTheirCharge(api, selector, legs, k, reserved);
    var last := CallsOf(api, selector, legs, k, reserved);
    FourCalls(Free, Calls(api, selector, legs, k, reserved), last[0], last[1], last[2], last[3]);
  }

  /** Chat, embeddings and streaming try the same targets: up to the first one whose outcome does not
      call for another, or all of them. */
  lemma ThreeLoopsTryTheSamePrefix(api: Api, selector: string, legs: seq<Leg>, reserved: int, calls: seq<Call>)
    requires legs != [] && forall i: nat | i < |legs| :: !legs[i].Untried()
    requires calls == EffectAt(api, selector, legs, Stop(legs), reserved).calls
    ensures Tried(calls) == Providers(legs, Stop(legs) + 1)
    ensures forall i: nat | i < Stop(legs) :: CallsForAnother(legs[i].outcome)
    ensures Stop(legs) + 1 < |legs| ==> !CallsForAnother(legs[Stop(legs)].outcome)
  {
    CallsOfEffect(api, selector, legs, Stop(legs), reserved);
    TriedIsThePrefix(api, selector, legs, Stop(legs) + 1, reserved);
    StopsForAReason(legs);
  }

  /** An acquire that raises leaves the gauge as it was and charges nothing. */
  lemma RaisedIsUndone(selector: string, before: seq<Call>)
    requires AdvanceAll(Free, before) == Free
    ensures AdvanceAll(Free, before + [Inc(selector), Dec(selector)]) == Free
    ensures NetDebit(before + [Inc(selector), Dec(selector)]) == NetDebit(before)
  {
    OneCall(Free, before, Inc(selector));
    OneCall(Free, before + [Inc(selector)], Dec(selector));
    assert before + [Inc(selector)] + [Dec(selector)] == before + [Inc(selector), Dec(selector)];
  }

  /** The call is about this request: its selector, and its reservation. */
  predicate Concerns(call: Call, selector: string, reserved: int) {
    match call
    case Inc(s) => s == selector
    case Dec(s) => s == selector
    case Acquire(_, r) => r == reserved
    case Release(_, r, _) => r == reserved
  }

  lemma {:induction false} CallsConcernTheRequest(api: Api, selector: string, legs: seq<Leg>, k: nat, reserved: int)
    requires k <= |legs|
    ensures forall call <- Calls(api, selector, legs, k, reserved) :: Concerns(call, selector, reserved)
  {
    if k == 0 {
    } else {
      CallsConcernTheRequest(api, selector, legs, k - 1, reserved);
    }
  }

  /** The ledger of a whole run: all controllers are given back and every gauge increment has its
      decrement, also when acquire raises; each passed-over target costs its reservation, and the last
      one the smaller of reservation and actual use when that is known. */
  lemma CapacityLedger(api: Api, selector: string, legs: seq<Leg>, reserved: int, calls: seq<Call>)
    requires legs != [] && calls == EffectAt(api, selector, legs, Stop(legs), reserved).calls
    ensures AdvanceAll(Free, calls) == Free
    ensures forall call <- calls :: Concerns(call, selector, reserved)
    ensures var k := Stop(legs);
            NetDebit(calls) == k * reserved + if legs[k].Untried() then 0 else FinalCharge(api, legs[k], reserved)
  {
    var k := Stop(legs);
    StopExists(legs);
    CallsOfEffect(api, selector, legs, k, reserved);
    PassedTargetsKeepTheirCharge(api, selector, legs, k, reserved);
    LastTargetIsCharged(api, selector, legs, k, reserved);
    RaisedIsUndone(selector, Calls(api, selector, legs, k, reserved));
    CallsConcernTheRequest(api, selector, legs, k, reserved);
    CallsConcernTheRequest(api, selector, legs, k + 1, reserved);
  }

  // ---- the stored history

  function SumWaits(attempts: seq<Attempt>): int {
    if attempts == [] then 0 else SumWaits(attempts[..|attempts| - 1]) + attempts[|attempts| - 1].waitMs
  }

  lemma SumWaitsSnoc(attempts: seq<Attempt>, last: Attempt)
    ensures SumWaits(attempts + [last]) == SumWaits(attempts) + last.waitMs
  {
    assert (attempts + [last])[..|attempts|] == attempts;
  }

  lemma {:induction false} WaitsAddUp(api: Api, legs: seq<Leg>, k: nat)
    requires k <= |legs|
    ensures SumWaits(Attempts(api, legs, k)) == TotalWait(legs, k)
  {
    if k == 0 {
    } else {
      WaitsAddUp(api, legs, k - 1);
      SumWaitsSnoc(Attempts(api, legs, k - 1), AttemptAt(api, legs, k - 1));
    }
  }

  /** Numbered from 1, with a fallback reason on exactly the non-last attempts. */
  ghost predicate WellNumbered(attempts: seq<Attempt>) {
    forall i: nat | i < |attempts| ::
      attempts[i].number == i + 1 && (attempts[i].fallbackReason.Some? <==> i + 1 < |attempts|)
  }

  lemma AttemptsAreWellNumbered(api: Api, legs: seq<Leg>, k: nat)
    requires StopsAt(legs, k)
    ensures |Attempts(api, legs, k + 1)| == k + 1 && WellNumbered(Attempts(api, legs, k + 1))
  {
    AttemptsByIndex(api, legs, k + 1);
  }

  lemma RowCountsItsAttempts(api: Api, selector: string, legs: seq<Leg>, k: nat)
    requires k < |legs| && !legs[k].Untried()
    ensures var row := RowAt(api, selector, legs, k);
            && row.waitMs == SumWaits(Attempts(api, legs, k + 1)) && row.attemptCount == k + 1
            && row.provider == legs[k].provider && row.upstreamModel == legs[k].model
  {
    WaitsAddUp(api, legs, k + 1);
  }

  /** What a run that stops at target `k` stores. */
  lemma StoredAt(api: Api, selector: string, legs: seq<Leg>, k: nat, reserved: int)
    requires k < |legs|
    ensures var (e, leg) := (EffectAt(api, selector, legs, k, reserved), legs[k]);
            && |e.rows| == (if !leg.Untried() && (leg.outcome.Answered? || !api.Stream?) then 1 else 0)
            && (e.rows == [] ==> e.stored == [])
            && (e.rows != [] ==> !leg.Untried() && e.rows == [RowAt(api, selector, legs, k)]
                                 && e.stored == e.reply.attempts == Attempts(api, legs, k + 1))
  {
  }

  /** The label of an answer by its status. */
  ghost predicate Labels(errorType: Option<ErrorType>, status: int) {
    && (errorType == Some(RateLimited) <==> status == 429)
    && (errorType == Some(ServerError) <==> 500 <= status <= 599)
    && (errorType == Some(ClientError) <==> 400 <= status <= 499 && status != 429)
    && (errorType == None <==> status < 400 || status > 599)
  }

  /** The label of a call that got no answer; a broken request is a connection error only in a stream. */
  ghost predicate LabelsFailure(api: Api, errorType: Option<ErrorType>, o: Outcome) {
    && (errorType == Some(BlockedDestination) <==> o.Blocked?)
    && (errorType == Some(Timeout) <==> o.TimedOut?)
    && (errorType == Some(Connection) <==> o.Unreachable? || (o.Broken? && api.Stream?))
    && (errorType == Some(Unknown) <==> o.Broken? && !api.Stream?)
  }

  ghost predicate Broke(api: Api) {
    api.Stream? && api.tail.interruption.Some?
  }

  /** What the record of an attempt says about its target, be it passed over or the last one. */
  ghost predicate Records(api: Api, a: Attempt, leg: Leg, last: bool) {
    && a.provider == leg.provider && a.model == leg.model && a.waitMs == leg.waitMs && a.responseMs == leg.responseMs
    && match leg.outcome
       case Answered(status, _, _) =>
         if !last then a.status == Some(status) && Labels(a.errorType, status) && a.fallbackReason == Some(HttpStatus(status))
         else if Broke(api) then a.status == None && a.errorType == Some(Interrupted(api.tail.interruption.value))
         else a.status == Some(status) && (if api.Stream? then a.errorType == None else Labels(a.errorType, status))
       case Blocked(reason) => a.status == None && LabelsFailure(api, a.errorType, leg.outcome) && (!last ==> a.fallbackReason == Some(Detail(reason)))
       case Unreachable(kind) => a.status == None && LabelsFailure(api, a.errorType, leg.outcome) && (!last ==> a.fallbackReason == Some(Detail(kind)))
       case _ => a.status == None && LabelsFailure(api, a.errorType, leg.outcome)
  }

  /** What the row of a request says about the answer it got, or about the lack of one. */
  ghost predicate Reports(api: Api, row: Row, leg: Leg) {
    && row.provider == leg.provider && row.upstreamModel == leg.model && row.responseMs == leg.responseMs
    && match leg.outcome
       case Answered(status, prompt, completion) =>
         && (if Broke(api) then row.status == None && row.errorType == Some(Interrupted(api.tail.interruption.value))
             else row.status == Some(status) && Labels(row.errorType, status))
         && (match api
             case Chat => row.prompt == prompt && row.completion == completion
             case Embeddings => row.prompt == prompt && row.completion == Some(0)
             case Stream(tail) => row.prompt == Some(tail.prompt) && row.completion == Some(tail.completion))
       case _ => row.status == row.prompt == row.completion == None && LabelsFailure(api, row.errorType, leg.outcome)
  }

  /** One row filed with the attempts of a run that stops at target `k`. */
  ghost predicate Tells(api: Api, selector: string, row: Row, stored: seq<Attempt>, legs: seq<Leg>, k: nat)
    requires k < |legs|
  {
    && |stored| == row.attemptCount == k + 1 && WellNumbered(stored)
    && row.model == selector && row.waitMs == SumWaits(stored)
    && Reports(api, row, legs[k])
    && forall i: nat | i <= k :: Records(api, stored[i], legs[i], i == k)
  }

  lemma LabelsStatus(status: int)
    ensures Labels(ClassifyError(status), status)
  {
  }

  lemma AttemptRecords(api: Api, leg: Leg, number: nat, last: bool)
    requires !last ==> AllowsFallback(leg.outcome)
    ensures Records(api, AttemptFor(api, leg, number, last), leg, last)
  {
    if leg.outcome.Answered? {
      LabelsStatus(leg.outcome.status);
    }
  }

  lemma RowReports(api: Api, selector: string, legs: seq<Leg>, k: nat)
    requires k < |legs| && !legs[k].Untried()
    ensures Reports(api, RowAt(api, selector, legs, k), legs[k]) && RowAt(api, selector, legs, k).model == selector
  {
    if legs[k].outcome.Answered? {
      LabelsStatus(legs[k].outcome.status);
    }
  }

  lemma RowTells(api: Api, selector: string, legs: seq<Leg>, k: nat)
    requires StopsAt(legs, k) && !legs[k].Untried()
    ensures Tells(api, selector, RowAt(api, selector, legs, k), Attempts(api, legs, k + 1), legs, k)
  {
    AttemptsAreWellNumbered(api, legs, k);
    RowCountsItsAttempts(api, selector, legs, k);
    RowReports(api, selector, legs, k);
    AttemptsByIndex(api, legs, k + 1);
    forall i: nat | i <= k
      ensures Records(api, Attempts(api, legs, k + 1)[i], legs[i], i == k)
    {
      assert i < k ==> Passes(legs, i);
      AttemptRecords(api, legs[i], i + 1, i == k);
    }
  }

  /** A run that stores anything stores exactly one request row, with at least one attempt; attempts
      are numbered from 1; exactly the non-last ones carry a fallback reason; the row's wait is the sum of
      theirs; and status, label, token counts and reasons are those of the outcomes. Chat and embeddings
      store unless the last target refused the payload or raised; streaming stores only when a stream was
      opened. */
  lemma StoredHistory(api: Api, selector: string, legs: seq<Leg>, reserved: int, e: Effect)
    requires legs != [] && e == EffectAt(api, selector, legs, Stop(legs), reserved)
    ensures var leg := legs[Stop(legs)];
            |e.rows| == if !leg.Untried() && (leg.outcome.Answered? || !api.Stream?) then 1 else 0
    ensures e.rows == [] ==> e.stored == []
    ensures e.rows != [] ==> e.stored == e.reply.attempts && Tells(api, selector, e.rows[0], e.stored, legs, Stop(legs))
  {
    var k := Stop(legs);
    StopExists(legs);
    StoredAt(api, selector, legs, k, reserved);
    if !legs[k].Untried() {
      RowTells(api, selector, legs, k);
    }
  }
}
