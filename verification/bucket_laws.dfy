/** Laws of whole runs of a token bucket: every interleaving of passes, refunds, level reads and
    reconfigurations, in the order in which the lock admits them. */
module BucketLaws {
  import opened Limiter

  datatype Op =
    | Take(amount: real)
    | GiveBack(amount: real)
    | Read
    | Retune(rpm: real, capacity: real)

  datatype Event = At(time: real, op: Op)

  /** Acquire returns before its loop for amounts that are not positive; limits are positive. */
  ghost predicate Legal(e: Event) {
    && (e.op.Take? ==> e.op.amount > 0.0)
    && (e.op.Retune? ==> e.op.rpm > 0.0 && e.op.capacity > 0.0)
  }

  /** The events are legal and their times run forward from `from` to at most `to`. */
  ghost predicate Timely(from: real, es: seq<Event>, to: real)
    decreases |es|
  {
    if es == [] then from <= to
    else from <= es[0].time && Legal(es[0]) && Timely(es[0].time, es[1..], to)
  }

  function Apply(b: Bucket, e: Event): Bucket {
    match e.op
    case Take(amount) => b.Try(e.time, amount).0
    case GiveBack(amount) => b.Refund(e.time, amount)
    case Read => b
    case Retune(rpm, capacity) => b.Reconfigure(e.time, rpm, capacity)
  }

  function Exec(b: Bucket, es: seq<Event>): Bucket
    decreases |es|
  {
    if es == [] then b else Exec(Apply(b, es[0]), es[1..])
  }

  function Positive(x: real): real {
    if x > 0.0 then x else 0.0
  }

  // ---------------------------------------------------------------- the ledger

  function GrantOf(b: Bucket, e: Event): real {
    if e.op.Take? && b.Try(e.time, e.op.amount).1 then e.op.amount else 0.0
  }

  function RefundOf(e: Event): real {
    if e.op.GiveBack? then Positive(e.op.amount) else 0.0
  }

  /** Tokens that an event itself throws away: a refund or a lower capacity clipping the level. */
  function LossOf(b: Bucket, e: Event): real {
    match e.op
    case GiveBack(amount) => if amount > 0.0 then Positive(b.Level(e.time) + amount - b.capacity) else 0.0
    case Retune(_, capacity) => Positive(b.Level(e.time) - capacity)
    case _ => 0.0
  }

  function Gain(b: Bucket, from: real, to: real): real {
    Filled(0.0, b.rate, from, to)
  }

  /** Tokens that arrive at a full bucket between two events. */
  function Overflow(b: Bucket, from: real, to: real): real {
    Positive(b.Level(from) + Gain(b, from, to) - b.capacity)
  }

  function Granted(b: Bucket, es: seq<Event>): real
    decreases |es|
  {
    if es == [] then 0.0 else GrantOf(b, es[0]) + Granted(Apply(b, es[0]), es[1..])
  }

  function Refunded(es: seq<Event>): real {
    if es == [] then 0.0 else RefundOf(es[0]) + Refunded(es[1..])
  }

  /** The rate in force, integrated from `from` to `to` across the run. */
  function Accrued(b: Bucket, from: real, es: seq<Event>, to: real): real
    decreases |es|
  {
    if es == [] then Gain(b, from, to)
    else Gain(b, from, es[0].time) + Accrued(Apply(b, es[0]), es[0].time, es[1..], to)
  }

  function Spilled(b: Bucket, from: real, es: seq<Event>, to: real): real
    decreases |es|
  {
    if es == [] then Overflow(b, from, to)
    else Overflow(b, from, es[0].time) + LossOf(b, es[0]) + Spilled(Apply(b, es[0]), es[0].time, es[1..], to)
  }

  lemma FillLedger(b: Bucket, from: real, to: real)
    requires b.Valid() && b.last <= from <= to
    ensures b.Level(from) + Gain(b, from, to) == b.Level(to) + Overflow(b, from, to)
  {
    var stored := Filled(b.tokens, b.rate, b.last, from);
    FillSplits(b.tokens, b.rate, b.last, from, to);
    FillShifts(0.0, stored, b.rate, from, to);
    FillGrows(0.0, b.rate, from, to);
  }

  lemma EventLedger(b: Bucket, e: Event)
    requires b.Valid() && b.last <= e.time && Legal(e)
    ensures Apply(b, e).Valid() && Apply(b, e).last <= e.time
    ensures b.Level(e.time) + RefundOf(e) == GrantOf(b, e) + LossOf(b, e) + Apply(b, e).Level(e.time)
  {
    LevelInRange(b, e.time);
    FillShifts(Apply(b, e).tokens, 0.0, b.rate, e.time, e.time);
    FillShifts(Apply(b, e).tokens, 0.0, Apply(b, e).rate, e.time, e.time);
  }

  /** Nothing is created or lost unaccounted for: what was there, plus what the rate delivered,
      plus what was refunded, equals what was granted, spilled, and is still there. */
  lemma {:induction false} Conservation(b: Bucket, from: real, es: seq<Event>, to: real)
    requires b.Valid() && b.last <= from && Timely(from, es, to)
    ensures b.Level(from) + Accrued(b, from, es, to) + Refunded(es)
         == Granted(b, es) + Spilled(b, from, es, to) + Exec(b, es).Level(to)
    ensures Spilled(b, from, es, to) >= 0.0
    ensures Exec(b, es).Valid() && Exec(b, es).last <= to
    decreases |es|
  {
    if es == [] {
      FillLedger(b, from, to);
    } else {
      FillLedger(b, from, es[0].time);
      EventLedger(b, es[0]);
      Conservation(Apply(b, es[0]), es[0].time, es[1..], to);
    }
  }

  lemma {:induction false} TimelyBounds(from: real, es: seq<Event>, to: real)
    requires Timely(from, es, to)
    ensures from <= to
    decreases |es|
  {
    if es == [] {
    } else {
      TimelyBounds(es[0].time, es[1..], to);
    }
  }

  /** A run cut in two: the first part leads to a valid bucket from which the second is a run. */
  lemma {:induction false} CutRun(b: Bucket, from: real, es: seq<Event>, i: nat, to: real) returns (mid: real)
    requires b.Valid() && b.last <= from && Timely(from, es, to) && i <= |es|
    ensures from <= mid <= to && (i > 0 ==> mid == es[i - 1].time) && (i == 0 ==> mid == from)
    ensures Exec(b, es[..i]).Valid() && Exec(b, es[..i]).last <= mid && Timely(mid, es[i..], to)
    decreases |es|
  {
    if i == 0 {
      mid := from;
      assert es[..0] == [] && es[0..] == es;
      TimelyBounds(from, es, to);
    } else {
      EventLedger(b, es[0]);
      mid := CutRun(Apply(b, es[0]), es[0].time, es[1..], i - 1, to);
      assert es[..i][1..] == es[1..][..i - 1] && es[1..][i - 1..] == es[i..];
    }
  }

  lemma {:induction false} TimelyPrefix(from: real, es: seq<Event>, j: nat, to: real)
    requires Timely(from, es, to) && 0 < j <= |es|
    ensures Timely(from, es[..j], es[j - 1].time)
    decreases |es|
  {
    assert es[..j][1..] == es[1..][..j - 1];
    if j > 1 {
      TimelyPrefix(es[0].time, es[1..], j - 1, to);
    }
  }

  /** The window bound. Between the event before number `i` and event number `j - 1` of any run,
      the grants never exceed the capacity in force at the start of the window, plus the rate
      integrated over it, plus the refunds in it; and the level stays within bounds at both ends. */
  lemma WindowBound(b: Bucket, from: real, es: seq<Event>, i: nat, j: nat, to: real)
    requires b.Valid() && b.last <= from && Timely(from, es, to) && i < j <= |es|
    ensures var start := if i == 0 then from else es[i - 1].time;
            var s := Exec(b, es[..i]);
            && s.Valid()
            && Granted(s, es[i..j]) <= s.capacity + Accrued(s, start, es[i..j], es[j - 1].time) + Refunded(es[i..j])
            && Exec(s, es[i..j]).Valid()
  {
    var start := CutRun(b, from, es, i, to);
    var s := Exec(b, es[..i]);
    TimelyPrefix(start, es[i..], j - i, to);
    assert es[i..][..j - i] == es[i..j];
    Conservation(s, start, es[i..j], es[j - 1].time);
    LevelInRange(s, start);
    LevelInRange(Exec(s, es[i..j]), es[j - 1].time);
  }

  /** With no reconfiguration the integrated rate is the rate times the elapsed time. */
  lemma {:induction false} AccruedAtConstantRate(b: Bucket, from: real, es: seq<Event>, to: real)
    requires forall e <- es :: !e.op.Retune?
    ensures Accrued(b, from, es, to) == Filled(0.0, b.rate, from, to)
    ensures Exec(b, es).rate == b.rate && Exec(b, es).capacity == b.capacity
    decreases |es|
  {
    if es == [] {
    } else {
      AccruedAtConstantRate(Apply(b, es[0]), es[0].time, es[1..], to);
      FillSplits(0.0, b.rate, from, es[0].time, to);
      FillShifts(0.0, Gain(b, from, es[0].time), b.rate, es[0].time, to);
    }
  }

  // ---------------------------------------------------------------- lazy refill is exact

  /** Two stored forms of one continuously filling bucket: every reader from `now` on agrees. */
  ghost predicate SameFrom(b: Bucket, c: Bucket, now: real) {
    && b.Valid() && c.Valid() && b.last <= now && c.last <= now
    && b.rate == c.rate && b.capacity == c.capacity && b.Level(now) == c.Level(now)
  }

  /** Events that grant, add or change nothing: level reads, failed passes, refunds of nothing. */
  ghost predicate Silent(b: Bucket, e: Event) {
    match e.op
    case Take(amount) => !b.Try(e.time, amount).1
    case GiveBack(amount) => amount <= 0.0
    case Read => true
    case Retune(_, _) => false
  }

  /** The run with every silent event struck out. */
  ghost function Audible(b: Bucket, es: seq<Event>): seq<Event>
    decreases |es|
  {
    if es == [] then []
    else (if Silent(b, es[0]) then [] else [es[0]]) + Audible(Apply(b, es[0]), es[1..])
  }

  /** The grants of a run, in order, with their moments. */
  function GrantLog(b: Bucket, es: seq<Event>): seq<Event>
    decreases |es|
  {
    if es == [] then []
    else (if es[0].op.Take? && b.Try(es[0].time, es[0].op.amount).1 then [es[0]] else []) + GrantLog(Apply(b, es[0]), es[1..])
  }

  lemma SameLater(b: Bucket, c: Bucket, now: real, later: real)
    requires SameFrom(b, c, now) && now <= later
    ensures SameFrom(b, c, later)
  {
    RefillIsInvisible(b, now, later);
    RefillIsInvisible(c, now, later);
    assert b.Refill(now) == c.Refill(now);
  }

  lemma SameAfter(b: Bucket, c: Bucket, e: Event)
    requires SameFrom(b, c, e.time) && Legal(e)
    ensures Silent(b, e) == Silent(c, e) && GrantOf(b, e) == GrantOf(c, e)
    ensures Silent(b, e) ==> SameFrom(Apply(b, e), c, e.time)
    ensures !Silent(b, e) ==> SameFrom(Apply(b, e), Apply(c, e), e.time)
  {
    LevelInRange(b, e.time);
    LevelInRange(c, e.time);
    RefillIsInvisible(b, e.time, e.time);
    FillGrows(b.tokens, b.rate, b.last, e.time);
    FillGrows(c.tokens, c.rate, c.last, e.time);
  }

  /** Reads, failed passes and empty refunds, at whatever moments, leave every later level and
      every grant of a run unchanged: the lazily refilled bucket is the continuously filling one. */
  lemma {:induction false} LazyRefillIsExact(b: Bucket, c: Bucket, from: real, es: seq<Event>, to: real)
    requires SameFrom(b, c, from) && Timely(from, es, to)
    ensures SameFrom(Exec(b, es), Exec(c, Audible(b, es)), to)
    ensures GrantLog(b, es) == GrantLog(c, Audible(b, es))
    decreases |es|
  {
    if es == [] {
      SameLater(b, c, from, to);
    } else {
      var e := es[0];
      SameLater(b, c, from, e.time);
      SameAfter(b, c, e);
      var rest := Audible(Apply(b, e), es[1..]);
      if Silent(b, e) {
        assert Audible(b, es) == rest;
        LazyRefillIsExact(Apply(b, e), c, e.time, es[1..], to);
      } else {
        assert Audible(b, es) == [e] + rest && ([e] + rest)[1..] == rest;
        LazyRefillIsExact(Apply(b, e), Apply(c, e), e.time, es[1..], to);
      }
    }
  }

  // ---------------------------------------------------------------- which schedules are granted

  ghost predicate AllGranted(b: Bucket, es: seq<Event>)
    decreases |es|
  {
    es == [] || (es[0].op.Take? && b.Try(es[0].time, es[0].op.amount).1 && AllGranted(Apply(b, es[0]), es[1..]))
  }

  function Demand(es: seq<Event>): real
    requires forall e <- es :: e.op.Take?
  {
    if es == [] then 0.0 else es[0].op.amount + Demand(es[1..])
  }

  /** An account that is never clipped: credit at `from`, filled at `rate`, never overdrawn by `es`. */
  ghost predicate Covers(credit: real, rate: real, from: real, es: seq<Event>)
    requires forall e <- es :: e.op.Take?
    decreases |es|
  {
    es == [] ||
    var filled := Filled(credit, rate, from, es[0].time);
    es[0].op.amount <= filled && Covers(filled - es[0].op.amount, rate, es[0].time, es[1..])
  }

  lemma {:induction false} CoversMin(x: real, y: real, rate: real, from: real, es: seq<Event>)
    requires forall e <- es :: e.op.Take?
    ensures Covers(Min(x, y), rate, from, es) <==> Covers(x, rate, from, es) && Covers(y, rate, from, es)
    decreases |es|
  {
    if es == [] {
    } else {
      var t, a := es[0].time, es[0].op.amount;
      FillShifts(x, y - x, rate, from, t);
      CoversMin(Filled(x, rate, from, t) - a, Filled(y, rate, from, t) - a, rate, t, es[1..]);
    }
  }

  /** The first `j` requests ask for at most `credit` plus the fill since `from`. */
  ghost predicate StretchOk(credit: real, rate: real, from: real, es: seq<Event>, j: nat)
    requires 0 < j <= |es| && forall e <- es :: e.op.Take?
  {
    Demand(es[..j]) <= Filled(credit, rate, from, es[j - 1].time)
  }

  lemma StretchShift(credit: real, rate: real, from: real, es: seq<Event>, j: nat)
    requires 0 < j <= |es| && forall e <- es :: e.op.Take?
    ensures var filled := Filled(credit, rate, from, es[0].time);
            && (j == 1 ==> (StretchOk(credit, rate, from, es, j) <==> es[0].op.amount <= filled))
            && (j > 1 ==> (StretchOk(credit, rate, from, es, j) <==>
                           StretchOk(filled - es[0].op.amount, rate, es[0].time, es[1..], j - 1)))
  {
    assert es[..j][1..] == es[1..][..j - 1];
    assert Demand(es[..j]) == es[0].op.amount + Demand(es[1..][..j - 1]);
    if j == 1 {
      assert Demand(es[1..][..0]) == 0.0;
    }
    var filled := Filled(credit, rate, from, es[0].time);
    FillSplits(credit, rate, from, es[0].time, es[j - 1].time);
    FillShifts(filled - es[0].op.amount, es[0].op.amount, rate, es[0].time, es[j - 1].time);
    FillShifts(filled, 0.0, rate, es[0].time, es[0].time);
  }

  /** Covering is the bound on every initial stretch. */
  lemma {:induction false} CoversIsBound(credit: real, rate: real, from: real, es: seq<Event>)
    requires forall e <- es :: e.op.Take?
    ensures Covers(credit, rate, from, es) <==> forall j | 0 < j <= |es| :: StretchOk(credit, rate, from, es, j)
    decreases |es|
  {
    if es == [] {
    } else {
      var credit' := Filled(credit, rate, from, es[0].time) - es[0].op.amount;
      CoversIsBound(credit', rate, es[0].time, es[1..]);
      forall j | 0 < j <= |es|
        ensures j == 1 ==> (StretchOk(credit, rate, from, es, j) <==> 0.0 <= credit')
        ensures j > 1 ==> (StretchOk(credit, rate, from, es, j) <==> StretchOk(credit', rate, es[0].time, es[1..], j - 1))
      {
        StretchShift(credit, rate, from, es, j);
      }
      if forall j | 0 < j <= |es| :: StretchOk(credit, rate, from, es, j) {
        assert StretchOk(credit, rate, from, es, 1);
        forall j | 0 < j <= |es[1..]| ensures StretchOk(credit', rate, es[0].time, es[1..], j) {
          assert StretchOk(credit, rate, from, es, j + 1);
        }
      }
    }
  }

  ghost predicate WindowsCovered(capacity: real, rate: real, es: seq<Event>)
    requires forall e <- es :: e.op.Take?
    decreases |es|
  {
    es == [] || (Covers(capacity, rate, es[0].time, es) && WindowsCovered(capacity, rate, es[1..]))
  }

  lemma CoversAtOnce(credit: real, rate: real, es: seq<Event>)
    requires es != [] && forall e <- es :: e.op.Take?
    ensures Covers(credit, rate, es[0].time, es) <==>
            es[0].op.amount <= credit && Covers(credit - es[0].op.amount, rate, es[0].time, es[1..])
  {
    FillShifts(credit, 0.0, rate, es[0].time, es[0].time);
  }

  lemma TakeStep(b: Bucket, from: real, e: Event, filled: real)
    requires b.Valid() && b.last <= from <= e.time && Legal(e) && e.op.Take?
    requires filled == Filled(b.Level(from), b.rate, from, e.time)
    ensures b.Try(e.time, e.op.amount).1 <==> e.op.amount <= b.capacity && e.op.amount <= filled
    ensures var c := Apply(b, e); c.Valid() && c.last == e.time && c.rate == b.rate && c.capacity == b.capacity
    ensures b.Try(e.time, e.op.amount).1 ==>
              Apply(b, e).Level(e.time) == Min(b.capacity - e.op.amount, filled - e.op.amount)
  {
    FillLedger(b, from, e.time);
    EventLedger(b, e);
    FillShifts(0.0, b.Level(from), b.rate, from, e.time);
  }

  lemma {:induction false} GrantedWhenCovered(b: Bucket, from: real, es: seq<Event>, to: real)
    requires b.Valid() && b.last <= from && Timely(from, es, to) && forall e <- es :: e.op.Take?
    ensures AllGranted(b, es) <==> Covers(b.Level(from), b.rate, from, es) && WindowsCovered(b.capacity, b.rate, es)
    decreases |es|
  {
    if es == [] {
    } else {
      var e, a := es[0], es[0].op.amount;
      var filled := Filled(b.Level(from), b.rate, from, e.time);
      TakeStep(b, from, e, filled);
      CoversAtOnce(b.capacity, b.rate, es);
      if b.Try(e.time, a).1 {
        GrantedWhenCovered(Apply(b, e), e.time, es[1..], to);
        CoversMin(b.capacity - a, filled - a, b.rate, e.time, es[1..]);
        assert Covers(b.Level(from), b.rate, from, es) <==> Covers(filled - a, b.rate, e.time, es[1..]);
      }
    }
  }

  /** A full account only gains by waiting for the first request. */
  lemma FullCreditIsImplied(capacity: real, rate: real, from: real, es: seq<Event>, to: real)
    requires rate > 0.0 && Timely(from, es, to) && es != [] && forall e <- es :: e.op.Take?
    ensures Covers(capacity, rate, es[0].time, es) ==> Covers(capacity, rate, from, es)
  {
    FillGrows(capacity, rate, from, es[0].time);
    CoversAtOnce(capacity, rate, es);
    var late := Filled(capacity, rate, from, es[0].time);
    var a := es[0].op.amount;
    CoversMin(capacity - a, late - a, rate, es[0].time, es[1..]);
    assert Min(capacity - a, late - a) == capacity - a;
  }

  lemma SliceOfTail<T>(s: seq<T>, i: nat, j: nat)
    requires 0 < i <= j <= |s|
    ensures s[i..j] == s[1..][i - 1..j - 1]
  {
    var tail := s[1..];
    assert forall k | i <= k < j :: s[k] == tail[k - 1];
    assert forall k | 0 <= k < j - i :: s[i..j][k] == s[i + k] == tail[i - 1 + k];
  }

  /** Requests `i` to `j - 1` ask for at most the capacity plus the fill between the first and the last. */
  ghost predicate WindowOk(capacity: real, rate: real, es: seq<Event>, i: nat, j: nat)
    requires i < j <= |es| && forall e <- es :: e.op.Take?
  {
    Demand(es[i..j]) <= Filled(capacity, rate, es[i].time, es[j - 1].time)
  }

  lemma {:induction false} WindowsCoveredIsBound(capacity: real, rate: real, es: seq<Event>)
    requires forall e <- es :: e.op.Take?
    ensures WindowsCovered(capacity, rate, es) <==> forall i, j | 0 <= i < j <= |es| :: WindowOk(capacity, rate, es, i, j)
    decreases |es|
  {
    if es == [] {
    } else {
      WindowsCoveredIsBound(capacity, rate, es[1..]);
      CoversIsBound(capacity, rate, es[0].time, es);
      forall i, j | 0 <= i < j <= |es|
        ensures i == 0 ==> (WindowOk(capacity, rate, es, i, j) <==> StretchOk(capacity, rate, es[0].time, es, j))
        ensures i > 0 ==> (WindowOk(capacity, rate, es, i, j) <==> WindowOk(capacity, rate, es[1..], i - 1, j - 1))
      {
        if i == 0 {
          assert es[0..j] == es[..j];
        } else {
          SliceOfTail(es, i, j);
        }
      }
      if forall i, j | 0 <= i < j <= |es| :: WindowOk(capacity, rate, es, i, j) {
        forall i, j | 0 <= i < j <= |es[1..]| ensures WindowOk(capacity, rate, es[1..], i, j) {
          assert WindowOk(capacity, rate, es, i + 1, j + 1);
        }
        forall j | 0 < j <= |es| ensures StretchOk(capacity, rate, es[0].time, es, j) {
          assert WindowOk(capacity, rate, es, 0, j);
        }
      }
    }
  }

  /** The window bound is the whole story: starting full, a bucket grants every request of a
      schedule exactly when no window of the schedule asks for more than the capacity plus the
      rate times the length of the window. */
  lemma GrantsExactlyTheBoundedSchedules(b: Bucket, es: seq<Event>, to: real)
    requires b.Valid() && b.tokens == b.capacity && Timely(b.last, es, to) && forall e <- es :: e.op.Take?
    ensures AllGranted(b, es) <==> forall i, j | 0 <= i < j <= |es| :: WindowOk(b.capacity, b.rate, es, i, j)
  {
    GrantedWhenCovered(b, b.last, es, to);
    WindowsCoveredIsBound(b.capacity, b.rate, es);
    if es != [] {
      FullCreditIsImplied(b.capacity, b.rate, b.last, es, to);
    }
  }
}
