/** The bucket aggregators of app/db.py. */
module Charts {
  import opened Common
  import opened StatusSql

  /** What a chart shows: `count` buckets of `bucket` seconds, the last one ending now. */
  datatype View = View(now: real, bucket: nat, count: nat)

  /** The bucket of a row: bucket_count - 1 - int(age // bucket_seconds), if the chart has it. */
  function Slot(v: View, at: real): Option<nat>
    requires v.bucket > 0
  {
    var age := v.now - at;
    if age < 0.0 then None
    else
      var index := v.count - 1 - (age / v.bucket as real).Floor;
      if 0 <= index < v.count then Some(index) else None
  }

  lemma ScaleLess(d: real, a: real, b: real)
    requires d > 0.0
    ensures a <= b <==> d * a <= d * b
  {
    if a > b {
      assert d * (a - b) > 0.0;
    } else {
      assert d * (b - a) >= 0.0;
    }
  }

  lemma RatioAtLeast(x: real, d: real, a: real)
    requires d > 0.0
    ensures a <= x / d <==> d * a <= x
  {
    var q := x / d;
    assert d * q == x;
    ScaleLess(d, a, q);
  }

  lemma FloorIs(q: real, k: int)
    ensures q.Floor == k <==> k as real <= q && !((k + 1) as real <= q)
  {
  }

  lemma FloorOfRatio(x: real, d: real, k: int)
    requires d > 0.0
    ensures (x / d).Floor == k <==> d * k as real <= x < d * (k + 1) as real
  {
    FloorIs(x / d, k);
    RatioAtLeast(x, d, k as real);
    RatioAtLeast(x, d, (k + 1) as real);
  }

  /** Bucket i holds exactly the ages from (count - 1 - i) to (count - i) buckets, so every row not
      older than the chart is in exactly one bucket. */
  lemma SlotIsAnInterval(v: View, at: real, i: nat)
    requires v.bucket > 0 && i < v.count
    ensures var (age, b) := (v.now - at, v.bucket as real);
            Slot(v, at) == Some(i) <==> b * (v.count - 1 - i) as real <= age < b * (v.count - i) as real
  {
    var age, b := v.now - at, v.bucket as real;
    FloorOfRatio(age, b, v.count - 1 - i);
    ScaleLess(b, 0.0, (v.count - 1 - i) as real);
  }

  lemma SlotCoversTheChart(v: View, at: real)
    requires v.bucket > 0
    ensures Slot(v, at).Some? <==> 0.0 <= v.now - at < v.bucket as real * v.count as real
  {
    var age, b := v.now - at, v.bucket as real;
    if age >= 0.0 {
      RatioAtLeast(age, b, 0.0);
      RatioAtLeast(age, b, v.count as real);
    }
  }

  // ---------------------------------------------------------------- status breakdown

  /** The columns of request_stats that the chart reads. */
  datatype Row = Row(at: real, wait: Option<int>, status: Option<int>)

  function LabelOf(row: Row): Status {
    Label(row.status, row.wait)
  }

  predicate Hit(v: View, row: Row, kind: Status, i: nat)
    requires v.bucket > 0
  {
    Slot(v, row.at) == Some(i) && LabelOf(row) == kind
  }

  function Tally(v: View, rows: seq<Row>, kind: Status, i: nat): nat
    requires v.bucket > 0
  {
    if rows == [] then 0
    else
      var (init, last) := (Tally(v, rows[..|rows| - 1], kind, i), rows[|rows| - 1]);
      if Hit(v, last, kind, i) then init + 1 else init
  }

  function Series(v: View, rows: seq<Row>, kind: Status): (series: seq<nat>)
    requires v.bucket > 0
    ensures |series| == v.count && forall i | 0 <= i < v.count :: series[i] == Tally(v, rows, kind, i)
  {
    seq(v.count, i requires 0 <= i => Tally(v, rows, kind, i))
  }

  lemma TallyStep(v: View, rows: seq<Row>, kind: Status, n: nat, i: nat)
    requires v.bucket > 0 && n < |rows|
    ensures Tally(v, rows[..n + 1], kind, i) == Tally(v, rows[..n], kind, i) + if Hit(v, rows[n], kind, i) then 1 else 0
  {
    assert rows[..n + 1][..n] == rows[..n];
  }

  lemma SeriesStep(v: View, rows: seq<Row>, kind: Status, n: nat)
    requires v.bucket > 0 && n < |rows|
    ensures var (before, after) := (Series(v, rows[..n], kind), Series(v, rows[..n + 1], kind));
            match Slot(v, rows[n].at)
            case Some(i) => after == if LabelOf(rows[n]) == kind then before[i := before[i] + 1] else before
            case None => after == before
  {
    var before, after := Series(v, rows[..n], kind), Series(v, rows[..n + 1], kind);
    forall i | 0 <= i < v.count
      ensures after[i] == before[i] + if Hit(v, rows[n], kind, i) then 1 else 0
    {
      TallyStep(v, rows, kind, n, i);
    }
  }

  /** chart_status_breakdown on the selected rows. */
  method StatusBreakdown(v: View, rows: seq<Row>) returns (success: array<nat>, throttled: array<nat>, error: array<nat>)
    requires v.bucket > 0
    ensures success[..] == Series(v, rows, Success)
    ensures throttled[..] == Series(v, rows, Throttled)
    ensures error[..] == Series(v, rows, Error)
  {
    success := new nat[v.count](_ => 0);
    throttled := new nat[v.count](_ => 0);
    error := new nat[v.count](_ => 0);
    for n := 0 to |rows|
      invariant success != throttled && throttled != error && error != success
      invariant success[..] == Series(v, rows[..n], Success)
      invariant throttled[..] == Series(v, rows[..n], Throttled)
      invariant error[..] == Series(v, rows[..n], Error)
    {
      SeriesStep(v, rows, Success, n);
      SeriesStep(v, rows, Throttled, n);
      SeriesStep(v, rows, Error, n);
      var row := rows[n];
      var slot := Slot(v, row.at);
      if slot.Some? {
        var target := match LabelOf(row) case Error => error case Throttled => throttled case Success => success;
        target[slot.value] := target[slot.value] + 1;
      }
    }
    assert rows[..|rows|] == rows;
  }

  function Sum(s: seq<nat>): nat {
    if s == [] then 0 else s[0] + Sum(s[1..])
  }

  lemma {:induction false} SumBumps(s: seq<nat>, i: nat)
    requires i < |s|
    ensures Sum(s[i := s[i] + 1]) == Sum(s) + 1
  {
    var t := s[i := s[i] + 1];
    if i == 0 {
      assert t[1..] == s[1..];
    } else {
      assert t[1..] == s[1..][i - 1 := s[i] + 1];
      SumBumps(s[1..], i - 1);
    }
  }

  lemma {:induction false} SumOfZeros(s: seq<nat>)
    requires forall i | 0 <= i < |s| :: s[i] == 0
    ensures Sum(s) == 0
  {
    if s == [] {
    } else {
      SumOfZeros(s[1..]);
    }
  }

  /** The rows on the chart that an SQL status condition selects. */
  function Selected(v: View, rows: seq<Row>, kind: Status): nat
    requires v.bucket > 0
  {
    if rows == [] then 0
    else
      var (init, last) := (Selected(v, rows[..|rows| - 1], kind), rows[|rows| - 1]);
      if Slot(v, last.at).Some? && Condition(kind, last.status, last.wait).Yes? then init + 1 else init
  }

  /** The rows on the chart that no condition selects. */
  function Unselected(v: View, rows: seq<Row>): nat
    requires v.bucket > 0
  {
    if rows == [] then 0
    else
      var (init, last) := (Unselected(v, rows[..|rows| - 1]), rows[|rows| - 1]);
      if Slot(v, last.at).Some? && Unclassified(last.status, last.wait) then init + 1 else init
  }

  /** Conservation: each series sums to the number of rows on the chart that meet the matching SQL
      condition; only the success series also counts the rows without a wait. */
  lemma {:induction false} SeriesSumsToSelectedRows(v: View, rows: seq<Row>, kind: Status)
    requires v.bucket > 0
    ensures Sum(Series(v, rows, kind)) == Selected(v, rows, kind) + if kind.Success? then Unselected(v, rows) else 0
  {
    if rows == [] {
      SumOfZeros(Series(v, rows, kind));
    } else {
      var n := |rows| - 1;
      SeriesSumsToSelectedRows(v, rows[..n], kind);
      assert rows[..n + 1] == rows;
      SeriesStep(v, rows, kind, n);
      ChartsAgreeWithSql(rows[n].status, rows[n].wait);
      var slot := Slot(v, rows[n].at);
      if slot.Some? {
        SumBumps(Series(v, rows[..n], kind), slot.value);
      }
    }
  }
}
