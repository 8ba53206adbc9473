/** Rows in the order of their ids, and the values of a map in the order of their integer keys. */
module Ordering {

  ghost predicate Ascending<T>(rows: seq<T>, id: T -> int) {
    forall i, j | 0 <= i < j < |rows| :: id(rows[i]) < id(rows[j])
  }

  lemma HasLeast(keys: set<int>)
    requires keys != {}
    ensures exists least <- keys :: forall k <- keys :: least <= k
  {
    assert (forall k: int :: k !in keys) ==> keys == {};
    var first: int :| first in keys;
    if keys != {first} {
      HasLeast(keys - {first});
      var rest :| rest in keys - {first} && forall k <- keys - {first} :: rest <= k;
      assert forall k <- keys :: k == first || k in keys - {first};
      assert if first < rest then forall k <- keys :: first <= k else forall k <- keys :: rest <= k;
    }
  }

  function Least(keys: set<int>): (least: int)
    requires keys != {}
    ensures least in keys && forall k <- keys :: least <= k
  {
    HasLeast(keys);
    var least :| least in keys && forall k <- keys :: least <= k;
    least
  }

  function InKeyOrder<T>(m: map<int, T>): seq<T>
    decreases |m|
  {
    if m.Keys == {} then []
    else
      var least := Least(m.Keys);
      [m[least]] + InKeyOrder(m - {least})
  }

  ghost predicate Lists<T>(m: map<int, T>, list: seq<T>, from: nat) {
    && (forall k :: k in m <==> from <= k < |list|)
    && (forall k | from <= k < |list| :: m[k] == list[k])
  }

  lemma NoKeys<T>(m: map<int, T>)
    requires forall k :: k !in m
    ensures m.Keys == {}
  {
    assert forall k: int :: k !in m.Keys;
  }

  /** A map that numbers a list is read back as that list. */
  lemma {:induction false} NumberedComesBack<T>(m: map<int, T>, list: seq<T>, from: nat := 0)
    requires from <= |list| && Lists(m, list, from)
    ensures InKeyOrder(m) == list[from..]
    decreases |list| - from
  {
    if from < |list| {
      assert from in m.Keys && Least(m.Keys) == from;
      NumberedComesBack(m - {from}, list, from + 1);
      assert list[from..] == [list[from]] + list[from + 1..];
    } else {
      NoKeys(m);
    }
  }
}
