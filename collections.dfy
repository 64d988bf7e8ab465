/**
 * The two collection operations every resolver relies on: cobrapy's
 * `DictList.query(callable)`, which keeps the members satisfying a predicate
 * in list order, and the length-based policy that turns the matches into a
 * single entity, a "not found" error or an ambiguity (`IndexError`).
 */
module Collections {

  /** `DictList.query(p)`: the items satisfying `p`, in their original order. */
  function Query<T>(items: seq<T>, p: T -> bool): (r: seq<T>)
    ensures |r| <= |items|
    ensures forall x :: x in r ==> x in items && p(x)
    ensures forall i :: 0 <= i < |items| && p(items[i]) ==> items[i] in r
  {
    if |items| == 0 then []
    else if p(items[0]) then [items[0]] + Query(items[1..], p)
    else Query(items[1..], p)
  }

  /** Predicates that agree on every item of the collection select the same items. */
  lemma {:induction false} QueryAgreeing<T>(items: seq<T>, p: T -> bool, q: T -> bool)
    requires forall i :: 0 <= i < |items| ==> p(items[i]) == q(items[i])
    ensures Query(items, p) == Query(items, q)
    decreases |items|
  {
    if |items| > 0 {
      assert forall i :: 0 <= i < |items[1..]| ==> items[1..][i] == items[i + 1];
      QueryAgreeing(items[1..], p, q);
    }
  }

  /** Two satisfying positions give the query at least two members. */
  lemma {:induction false} QueryManyFromTwo<T>(items: seq<T>, p: T -> bool, i: nat, j: nat)
    requires i < j < |items| && p(items[i]) && p(items[j])
    ensures |Query(items, p)| >= 2
  {
    var rest := items[1..];
    if i == 0 {
      assert rest[j - 1] in Query(rest, p);
    } else {
      QueryManyFromTwo(rest, p, i - 1, j - 1);
    }
  }

  /** A query with at least two members found them at two distinct positions. */
  lemma {:induction false} QueryManyHasTwo<T>(items: seq<T>, p: T -> bool) returns (i: nat, j: nat)
    requires |Query(items, p)| >= 2
    ensures i < j < |items| && p(items[i]) && p(items[j])
  {
    var rest := items[1..];
    if p(items[0]) {
      var x := Query(rest, p)[0];
      assert x in Query(rest, p);
      var k :| 0 <= k < |rest| && rest[k] == x;
      i, j := 0, k + 1;
    } else {
      var i', j' := QueryManyHasTwo(rest, p);
      i, j := i' + 1, j' + 1;
    }
  }

  /** The query finds at least two members exactly when two positions satisfy `p`. */
  lemma QueryManyIff<T>(items: seq<T>, p: T -> bool)
    ensures |Query(items, p)| >= 2 <==>
            exists i, j :: 0 <= i < j < |items| && p(items[i]) && p(items[j])
  {
    if |Query(items, p)| >= 2 {
      var i, j := QueryManyHasTwo(items, p);
    }
    if exists i, j :: 0 <= i < j < |items| && p(items[i]) && p(items[j]) {
      var i, j :| 0 <= i < j < |items| && p(items[i]) && p(items[j]);
      QueryManyFromTwo(items, p, i, j);
    }
  }

  /** A query with exactly one result found it at exactly one position. */
  lemma {:induction false} QueryOne<T>(items: seq<T>, p: T -> bool)
    requires |Query(items, p)| == 1
    ensures exists i :: 0 <= i < |items| && items[i] == Query(items, p)[0] &&
                        forall j :: 0 <= j < |items| && j != i ==> !p(items[j])
  {
    var rest := items[1..];
    if p(items[0]) {
      assert |Query(rest, p)| == 0;
      forall j | 0 < j < |items| ensures !p(items[j]) {
        assert items[j] == rest[j - 1];
      }
    } else {
      QueryOne(rest, p);
      var i :| 0 <= i < |rest| && rest[i] == Query(rest, p)[0] &&
               forall j :: 0 <= j < |rest| && j != i ==> !p(rest[j]);
      assert items[i + 1] == Query(items, p)[0];
      forall j | 0 <= j < |items| && j != i + 1 ensures !p(items[j]) {
        if j > 0 { assert items[j] == rest[j - 1]; }
      }
    }
  }

  /** The outcome of the "exactly one match" policy. */
  datatype Resolution<T> = Found(entity: T) | NotFound | Ambiguous(matches: seq<T>)

  /** `len == 0` raises the not-found error, `len > 1` raises `IndexError`, else the only match. */
  function PickUnique<T>(matches: seq<T>): Resolution<T> {
    if |matches| == 0 then NotFound
    else if |matches| > 1 then Ambiguous(matches)
    else Found(matches[0])
  }

  /** The policy applied to a query, described by positions in the searched list. */
  lemma UniqueQuery<T>(items: seq<T>, p: T -> bool)
    ensures PickUnique(Query(items, p)).NotFound? <==>
            forall i :: 0 <= i < |items| ==> !p(items[i])
    ensures PickUnique(Query(items, p)).Ambiguous? <==>
            exists i, j :: 0 <= i < j < |items| && p(items[i]) && p(items[j])
    ensures PickUnique(Query(items, p)).Found? ==>
            exists i :: 0 <= i < |items| && items[i] == PickUnique(Query(items, p)).entity && p(items[i]) &&
                        forall j :: 0 <= j < |items| && j != i ==> !p(items[j])
  {
    var m := Query(items, p);
    QueryManyIff(items, p);
    if |m| == 1 {
      QueryOne(items, p);
    }
    if |m| > 0 {
      assert m[0] in m;
    }
  }
}
