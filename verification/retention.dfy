/** _purge_table of app/db.py: what a purge may delete and how fast it converges. */
module Retention {
  import opened Common
  import opened Ordering

  datatype Row = Row(id: int, at: real)

  const BATCH := 5000

  function IdOf(row: Row): int {
    row.id
  }

  predicate Expired(row: Row, cutoff: real) {
    row.at < cutoff
  }

  /** The first statement: the `limit` lowest ids among the expired rows go. */
  function DropExpired(table: seq<Row>, cutoff: real, limit: nat): seq<Row> {
    if table == [] then []
    else if Expired(table[0], cutoff) && limit > 0 then DropExpired(table[1..], cutoff, limit - 1)
    else [table[0]] + DropExpired(table[1..], cutoff, limit)
  }

  /** The second statement: in descending id order, skip `maxRows` rows and delete the next batch. */
  function DropExcess(table: seq<Row>, maxRows: nat): seq<Row> {
    if |table| <= maxRows then table
    else
      var excess := |table| - maxRows;
      table[..if excess <= BATCH then 0 else excess - BATCH] + table[excess..]
  }

  function Pass(table: seq<Row>, cutoff: real, maxRows: nat): seq<Row> {
    DropExcess(DropExpired(table, cutoff, BATCH), maxRows)
  }

  function Passes(table: seq<Row>, cutoff: real, maxRows: nat, n: nat): seq<Row> {
    if n == 0 then table else Pass(Passes(table, cutoff, maxRows, n - 1), cutoff, maxRows)
  }

  function ExpiredRows(table: seq<Row>, cutoff: real): nat {
    if table == [] then 0 else (if Expired(table[0], cutoff) then 1 else 0) + ExpiredRows(table[1..], cutoff)
  }

  /** How many rows are newer than `id`. */
  function NewerThan(table: seq<Row>, id: int): nat {
    if table == [] then 0 else (if table[0].id > id then 1 else 0) + NewerThan(table[1..], id)
  }

  // ---------------------------------------------------------------- the first statement

  lemma {:induction false} DropExpiredKeeps(table: seq<Row>, cutoff: real, limit: nat, row: Row)
    ensures row in DropExpired(table, cutoff, limit) ==> row in table
    ensures row in table && !Expired(row, cutoff) ==> row in DropExpired(table, cutoff, limit)
  {
    if table == [] {
    } else {
      DropExpiredKeeps(table[1..], cutoff, if Expired(table[0], cutoff) && limit > 0 then limit - 1 else limit, row);
      assert row in table <==> row == table[0] || row in table[1..];
    }
  }

  lemma {:induction false} DropExpiredCounts(table: seq<Row>, cutoff: real, limit: nat, id: int)
    ensures var left := DropExpired(table, cutoff, limit);
            && NewerThan(left, id) <= NewerThan(table, id)
            && ExpiredRows(left, cutoff) == (if ExpiredRows(table, cutoff) <= limit then 0 else ExpiredRows(table, cutoff) - limit)
            && |left| <= |table|
  {
    if table == [] {
    } else {
      if Expired(table[0], cutoff) && limit > 0 {
        DropExpiredCounts(table[1..], cutoff, limit - 1, id);
      } else {
        DropExpiredCounts(table[1..], cutoff, limit, id);
        var rest := DropExpired(table[1..], cutoff, limit);
        assert ([table[0]] + rest)[1..] == rest;
      }
    }
  }

  lemma {:induction false} NothingGoes(table: seq<Row>, cutoff: real)
    ensures DropExpired(table, cutoff, 0) == table
  {
    if table == [] {
    } else {
      NothingGoes(table[1..], cutoff);
    }
  }

  lemma {:induction false} DropExpiredSorted(table: seq<Row>, cutoff: real, limit: nat)
    requires Ascending(table, IdOf)
    ensures Ascending(DropExpired(table, cutoff, limit), IdOf)
  {
    if table == [] {
    } else {
      var fewer := if Expired(table[0], cutoff) && limit > 0 then limit - 1 else limit;
      var rest := DropExpired(table[1..], cutoff, fewer);
      DropExpiredSorted(table[1..], cutoff, fewer);
      forall j | 0 <= j < |rest|
        ensures table[0].id < rest[j].id
      {
        DropExpiredKeeps(table[1..], cutoff, fewer, rest[j]);
      }
    }
  }

  /** The oldest go first: whatever the statement deletes is expired, and older than every expired row that
      it leaves. */
  lemma {:induction false} OldestExpiredGoFirst(table: seq<Row>, cutoff: real, limit: nat, gone: Row, left: Row)
    requires Ascending(table, IdOf)
    requires gone in table && gone !in DropExpired(table, cutoff, limit)
    requires left in DropExpired(table, cutoff, limit) && left.at < cutoff
    ensures gone.at < cutoff && gone.id < left.id
  {
    DropExpiredKeeps(table, cutoff, limit, gone);
    DropExpiredKeeps(table, cutoff, limit, left);
    if Expired(table[0], cutoff) && limit > 0 {
      if gone == table[0] {
        DropExpiredKeeps(table[1..], cutoff, limit - 1, left);
        var i :| 0 <= i < |table[1..]| && table[1..][i] == left;
        assert table[0].id < table[i + 1].id;
      } else {
        OldestExpiredGoFirst(table[1..], cutoff, limit - 1, gone, left);
      }
    } else if limit == 0 {
      NothingGoes(table, cutoff);
    } else {
      OldestExpiredGoFirst(table[1..], cutoff, limit, gone, left);
    }
  }

  // ---------------------------------------------------------------- the second statement

  lemma {:induction false} NewerThanAdds(a: seq<Row>, b: seq<Row>, id: int)
    ensures NewerThan(a + b, id) == NewerThan(a, id) + NewerThan(b, id)
  {
    if a == [] {
      assert a + b == b;
    } else {
      assert (a + b)[1..] == a[1..] + b;
      NewerThanAdds(a[1..], b, id);
    }
  }

  lemma {:induction false} ExpiredRowsAdd(a: seq<Row>, b: seq<Row>, cutoff: real)
    ensures ExpiredRows(a + b, cutoff) == ExpiredRows(a, cutoff) + ExpiredRows(b, cutoff)
  {
    if a == [] {
      assert a + b == b;
    } else {
      assert (a + b)[1..] == a[1..] + b;
      ExpiredRowsAdd(a[1..], b, cutoff);
    }
  }

  lemma {:induction false} AllNewer(table: seq<Row>, id: int)
    requires forall row <- table :: row.id > id
    ensures NewerThan(table, id) == |table|
  {
    if table == [] {
    } else {
      AllNewer(table[1..], id);
    }
  }

  /** In a sorted table the rows behind a row are the newer ones. */
  lemma {:induction false} NewerThanAt(table: seq<Row>, i: nat)
    requires Ascending(table, IdOf) && i < |table|
    ensures NewerThan(table, table[i].id) == |table| - 1 - i
  {
    if i == 0 {
      AllNewer(table[1..], table[0].id);
    } else {
      NewerThanAt(table[1..], i - 1);
    }
  }

  lemma Cut(table: seq<Row>, i: nat, j: nat, cutoff: real, id: int)
    requires i <= j <= |table|
    ensures NewerThan(table[..i] + table[j..], id) <= NewerThan(table, id)
    ensures ExpiredRows(table[..i] + table[j..], cutoff) <= ExpiredRows(table, cutoff)
  {
    assert table == table[..i] + (table[i..j] + table[j..]);
    NewerThanAdds(table[..i], table[j..], id);
    NewerThanAdds(table[..i], table[i..j] + table[j..], id);
    NewerThanAdds(table[i..j], table[j..], id);
    ExpiredRowsAdd(table[..i], table[j..], cutoff);
    ExpiredRowsAdd(table[..i], table[i..j] + table[j..], cutoff);
    ExpiredRowsAdd(table[i..j], table[j..], cutoff);
  }

  lemma DropExcessCounts(table: seq<Row>, maxRows: nat, cutoff: real, id: int)
    ensures var left := DropExcess(table, maxRows);
            && NewerThan(left, id) <= NewerThan(table, id)
            && ExpiredRows(left, cutoff) <= ExpiredRows(table, cutoff)
            && |left| == if |table| <= maxRows then |table| else if |table| - BATCH <= maxRows then maxRows else |table| - BATCH
  {
    if |table| > maxRows {
      var excess := |table| - maxRows;
      Cut(table, if excess <= BATCH then 0 else excess - BATCH, excess, cutoff, id);
    }
  }

  // ---------------------------------------------------------------- a pass

  /** Safety: a pass keeps every row that is unexpired and among the newest `maxRows`. */
  lemma PassIsSafe(table: seq<Row>, cutoff: real, maxRows: nat, row: Row)
    requires Ascending(table, IdOf) && row in table && row.at >= cutoff && NewerThan(table, row.id) < maxRows
    ensures row in Pass(table, cutoff, maxRows)
  {
    var left := DropExpired(table, cutoff, BATCH);
    DropExpiredKeeps(table, cutoff, BATCH, row);
    DropExpiredCounts(table, cutoff, BATCH, row.id);
    DropExpiredSorted(table, cutoff, BATCH);
    var i :| 0 <= i < |left| && left[i] == row;
    NewerThanAt(left, i);
    if |left| > maxRows {
      var excess := |left| - maxRows;
      assert left[excess..][i - excess] == row;
    }
  }

  /** A pass invents no rows and keeps the order. */
  lemma PassKeepsOrder(table: seq<Row>, cutoff: real, maxRows: nat)
    requires Ascending(table, IdOf)
    ensures Ascending(Pass(table, cutoff, maxRows), IdOf) && forall row <- Pass(table, cutoff, maxRows) :: row in table
  {
    DropExpiredSorted(table, cutoff, BATCH);
    forall row <- Pass(table, cutoff, maxRows)
      ensures row in table
    {
      DropExpiredKeeps(table, cutoff, BATCH, row);
    }
  }

  /** Each pass at the same cutoff makes up a batch of both backlogs. */
  lemma {:induction false} PassesMakeProgress(table: seq<Row>, cutoff: real, maxRows: nat, n: nat)
    ensures var left := Passes(table, cutoff, maxRows, n);
            && (ExpiredRows(left, cutoff) == 0 || ExpiredRows(left, cutoff) <= ExpiredRows(table, cutoff) - n * 5000)
            && (|left| <= maxRows || |left| <= |table| - n * 5000)
  {
    if n == 0 {
    } else {
      var before := Passes(table, cutoff, maxRows, n - 1);
      PassesMakeProgress(table, cutoff, maxRows, n - 1);
      DropExpiredCounts(before, cutoff, BATCH, 0);
      DropExcessCounts(DropExpired(before, cutoff, BATCH), maxRows, cutoff, 0);
    }
  }

  lemma {:induction false} NoneExpired(table: seq<Row>, cutoff: real)
    ensures ExpiredRows(table, cutoff) == 0 <==> forall row <- table :: row.at >= cutoff
  {
    if table == [] {
    } else {
      NoneExpired(table[1..], cutoff);
      assert forall row <- table :: row == table[0] || row in table[1..];
      assert table[0] in table && forall row <- table[1..] :: row in table;
    }
  }

  function Backlog(table: seq<Row>, cutoff: real, maxRows: nat): nat {
    var (expired, excess) := (ExpiredRows(table, cutoff), |table| - maxRows);
    if expired < excess then excess else expired
  }

  /** Convergence: at a fixed time and without inserts, ceil(max(expired, excess) / 5000) passes leave
      no expired row and at most `maxRows` rows. */
  lemma PurgeConverges(table: seq<Row>, cutoff: real, maxRows: nat)
    ensures var left := Passes(table, cutoff, maxRows, (Backlog(table, cutoff, maxRows) + 5000 - 1) / 5000);
            (forall row <- left :: row.at >= cutoff) && |left| <= maxRows
  {
    var n := (Backlog(table, cutoff, maxRows) + 5000 - 1) / 5000;
    PassesMakeProgress(table, cutoff, maxRows, n);
    NoneExpired(Passes(table, cutoff, maxRows, n), cutoff);
  }

  // ---------------------------------------------------------------- runs

  datatype Step = Insert(row: Row) | Purge(cutoff: real)

  function Run(steps: seq<Step>, maxRows: nat): seq<Row> {
    if steps == [] then []
    else
      var (table, last) := (Run(steps[..|steps| - 1], maxRows), steps[|steps| - 1]);
      match last
      case Insert(row) => table + [row]
      case Purge(cutoff) => Pass(table, cutoff, maxRows)
  }

  function Inserted(steps: seq<Step>): seq<Row> {
    if steps == [] then []
    else
      var (rows, last) := (Inserted(steps[..|steps| - 1]), steps[|steps| - 1]);
      if last.Insert? then rows + [last.row] else rows
  }

  /** Every purge so far found the row unexpired. */
  ghost predicate NeverExpired(steps: seq<Step>, row: Row) {
    forall step <- steps :: step.Purge? ==> row.at >= step.cutoff
  }

  lemma InsertKeepsOrder(table: seq<Row>, rows: seq<Row>, added: Row)
    requires Ascending(table, IdOf) && Ascending(rows + [added], IdOf) && forall row <- table :: row in rows
    ensures Ascending(table + [added], IdOf)
  {
    forall row <- table
      ensures row.id < added.id
    {
      var i :| 0 <= i < |rows| && rows[i] == row;
      assert (rows + [added])[i].id < (rows + [added])[|rows|].id;
    }
  }

  /** The table holds nothing that was not inserted, in id order. */
  lemma {:induction false} TableStaysSorted(steps: seq<Step>, maxRows: nat)
    requires Ascending(Inserted(steps), IdOf)
    ensures Ascending(Run(steps, maxRows), IdOf) && forall row <- Run(steps, maxRows) :: row in Inserted(steps)
  {
    if steps == [] {
    } else {
      var init, last := steps[..|steps| - 1], steps[|steps| - 1];
      assert last.Insert? ==> (Inserted(init) + [last.row])[..|Inserted(init)|] == Inserted(init);
      TableStaysSorted(init, maxRows);
      match last {
        case Insert(added) => InsertKeepsOrder(Run(init, maxRows), Inserted(init), added);
        case Purge(cutoff) => PassKeepsOrder(Run(init, maxRows), cutoff, maxRows);
      }
    }
  }

  /** Nothing is lost in any run: what was inserted, never expired at a purge, and is among the newest
      `maxRows` ever inserted is still there. */
  lemma {:induction false} NewestRowsSurvive(steps: seq<Step>, maxRows: nat, row: Row)
    requires Ascending(Inserted(steps), IdOf)
    ensures var table := Run(steps, maxRows);
            && NewerThan(table, row.id) <= NewerThan(Inserted(steps), row.id)
            && (row in Inserted(steps) && NeverExpired(steps, row) && NewerThan(Inserted(steps), row.id) < maxRows ==> row in table)
  {
    if steps == [] {
    } else {
      var init, last := steps[..|steps| - 1], steps[|steps| - 1];
      var table, rows := Run(init, maxRows), Inserted(init);
      assert last.Insert? ==> (rows + [last.row])[..|rows|] == rows;
      NewestRowsSurvive(init, maxRows, row);
      assert NeverExpired(steps, row) ==> NeverExpired(init, row);
      match last {
        case Insert(added) =>
          NewerThanAdds(table, [added], row.id);
          NewerThanAdds(rows, [added], row.id);
        case Purge(cutoff) =>
          TableStaysSorted(init, maxRows);
          DropExpiredCounts(table, cutoff, BATCH, row.id);
          DropExcessCounts(DropExpired(table, cutoff, BATCH), maxRows, cutoff, row.id);
          assert last in steps;
          if row in table && !Expired(row, cutoff) && NewerThan(table, row.id) < maxRows {
            PassIsSafe(table, cutoff, maxRows, row);
          }
      }
    }
  }

  /** A table of the service in use; `history` remembers every insert and purge. */
  class Table {
    const maxRows: nat
    var rows: seq<Row>
    ghost var history: seq<Step>

    constructor (maxRows: nat)
      ensures Valid() && history == [] && rows == [] && this.maxRows == maxRows
    {
      this.maxRows := maxRows;
      rows, history := [], [];
    }

    ghost predicate Valid()
      reads this
    {
      rows == Run(history, maxRows)
    }

    method InsertRow(row: Row)
      requires Valid()
      modifies this`rows, this`history
      ensures Valid() && history == old(history) + [Insert(row)]
      ensures rows == old(rows) + [row]
    {
      rows, history := rows + [row], history + [Insert(row)];
      assert history[..|history| - 1] == old(history);
    }

    /** _purge_table: as long as ids grow, what is left includes every row that no purge found expired
        and that is among the newest `maxRows` ever inserted. */
    method PurgeTable(cutoff: real)
      requires Valid() && Ascending(Inserted(history), IdOf)
      modifies this`rows, this`history
      ensures Valid() && history == old(history) + [Purge(cutoff)]
      ensures rows == Pass(old(rows), cutoff, maxRows)
      ensures forall row <- Inserted(history) ::
                NeverExpired(history, row) && NewerThan(Inserted(history), row.id) < maxRows ==> row in rows
    {
      rows := DropExpired(rows, cutoff, BATCH);
      rows := DropExcess(rows, maxRows);
      history := history + [Purge(cutoff)];
      assert history[..|history| - 1] == old(history);
      forall row | row in Inserted(history)
        ensures NeverExpired(history, row) && NewerThan(Inserted(history), row.id) < maxRows ==> row in rows
      {
        NewestRowsSurvive(history, maxRows, row);
      }
    }
  }
}
