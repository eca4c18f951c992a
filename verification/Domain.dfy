/** Types shared by the models of WashFlow's services. */
module Domain {

  datatype Option<+T> = None | Some(value: T)

  datatype Result<+T, +E> = Ok(value: T) | Err(error: E)

  /** The HTTP exceptions that the services distinguish (only a Conflict is ever caught). */
  datatype Failure = NotFound | BadRequest | Conflict

  /** A row id. The only thing the code asks of ids is a total order, so an id is its place in that order. */
  datatype Id = Id(rank: int) {
    predicate AtMost(other: Id) {
      rank <= other.rank
    }

    predicate Below(other: Id) {
      rank < other.rank
    }
  }

  predicate IsLeast(m: Id, s: set<Id>) {
    m in s && forall x :: x in s ==> m.AtMost(x)
  }

  /** The least id of a set: what `orderBy: { id: 'asc' }` followed by "take the first" yields. */
  function MinId(s: set<Id>): (m: Id)
    requires s != {}
    ensures IsLeast(m, s)
  {
    LeastExists(s);
    var m :| IsLeast(m, s);
    m
  }

  lemma {:induction false} LeastExists(s: set<Id>)
    requires s != {}
    ensures exists m :: IsLeast(m, s)
    decreases |s|
  {
    var x :| x in s;
    if s == {x} {
      assert IsLeast(x, s);
    } else {
      LeastExists(s - {x});
      var m :| IsLeast(m, s - {x});
      assert forall y :: y in s ==> y == x || y in s - {x};
      assert IsLeast(if x.Below(m) then x else m, s);
    }
  }

  /** Enumerations returned by a query: every row once, in some order. */
  predicate Distinct<T(==)>(s: seq<T>) {
    forall i, j :: 0 <= i < j < |s| ==> s[i] != s[j]
  }

  predicate Enumerates<T(==)>(s: seq<T>, rows: set<T>) {
    Distinct(s) && (forall x :: x in s ==> x in rows) && (forall x :: x in rows ==> x in s)
  }

  lemma {:induction false} EnumerationSize<T>(s: seq<T>, rows: set<T>)
    requires Enumerates(s, rows)
    ensures |s| == |rows|
    decreases |s|
  {
    if s == [] {
      assert rows == {};
    } else {
      var n := |s| - 1;
      assert s == s[..n] + [s[n]];
      forall x | x in rows - {s[n]} ensures x in s[..n] {
        assert x in s;
      }
      EnumerationSize(s[..n], rows - {s[n]});
    }
  }
}
