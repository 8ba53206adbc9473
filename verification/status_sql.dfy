/** The SQL status conditions of app/db.py, with SQL's three truth values. */
module StatusSql {
  import opened Common

  datatype Truth = Yes | No | Unknown

  function And(a: Truth, b: Truth): Truth {
    if a.No? || b.No? then No else if a.Yes? && b.Yes? then Yes else Unknown
  }

  function Or(a: Truth, b: Truth): Truth {
    if a.Yes? || b.Yes? then Yes else if a.No? && b.No? then No else Unknown
  }

  function Is(b: bool): Truth {
    if b then Yes else No
  }

  function Rank(t: Truth): int {
    match t case No => 0 case Unknown => 1 case Yes => 2
  }

  /** With unknown between no and yes, a conjunction is the lesser and a disjunction the greater. */
  lemma TruthsAreOrdered(a: Truth, b: Truth)
    ensures Rank(And(a, b)) == if Rank(a) <= Rank(b) then Rank(a) else Rank(b)
    ensures Rank(Or(a, b)) == if Rank(a) <= Rank(b) then Rank(b) else Rank(a)
  {
  }

  /** A comparison with a column that may be NULL. */
  function Compare(column: Option<int>, holds: int -> bool): Truth {
    if column.None? then Unknown else Is(holds(column.value))
  }

  datatype Status = Error | Throttled | Success

  /** STATUS_CONDITIONS */
  function Condition(kind: Status, status: Option<int>, wait: Option<int>): Truth {
    match kind
    case Error =>
      Or(Is(status.None?), And(Compare(status, s => s >= 400), Compare(status, s => s != 429)))
    case Throttled =>
      Or(Compare(status, s => s == 429), And(Compare(status, s => s < 400), Compare(wait, w => w > 2000)))
    case Success =>
      And(And(And(Is(status.Some?), Compare(status, s => s < 400)), Compare(status, s => s != 429)), Compare(wait, w => w <= 2000))
  }

  /** The label a row gets on the charts: status_label, then the test of the wait. */
  function Label(status: Option<int>, wait: Option<int>): Status {
    if status.None? || (status.value >= 400 && status.value != 429) then Error
    else if status.value == 429 || (if wait.Some? then wait.value else 0) > 2000 then Throttled
    else Success
  }

  /** Rows the charts call a success although no SQL condition selects them. */
  predicate Unclassified(status: Option<int>, wait: Option<int>) {
    wait.None? && status.Some? && status.value < 400
  }

  /** Charts and SQL conditions classify a row alike exactly when its wait is known or its status is
      not below 400; otherwise no condition selects it, though the charts show a success. */
  lemma ChartsAgreeWithSql(status: Option<int>, wait: Option<int>)
    ensures (forall kind :: Condition(kind, status, wait).Yes? <==> kind == Label(status, wait)) <==> !Unclassified(status, wait)
    ensures Unclassified(status, wait) ==> Label(status, wait) == Success && forall kind :: !Condition(kind, status, wait).Yes?
  {
    if Unclassified(status, wait) {
      assert !Condition(Success, status, wait).Yes?;
    }
  }

  /** What the three words mean on a row whose wait is known: an error has no status, or one from 400 on
      other than 429; throttled is 429, or a good status after more than two seconds of waiting; the rest are
      successes. Charts and SQL both say so. */
  lemma WordsMean(status: Option<int>, wait: int)
    ensures forall kind :: Condition(kind, status, Some(wait)).Yes? <==> kind == Label(status, Some(wait))
    ensures Label(status, Some(wait)) == Error <==> status == None || (status.value >= 400 && status.value != 429)
    ensures Label(status, Some(wait)) == Throttled <==> status == Some(429) || (status.Some? && status.value < 400 && wait > 2000)
    ensures Label(status, Some(wait)) == Success <==> status.Some? && status.value < 400 && wait <= 2000
  {
    ChartsAgreeWithSql(status, Some(wait));
  }
}
