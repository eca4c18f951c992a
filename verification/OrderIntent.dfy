/** The normalised intent of an order request (src/modules/orders/orders.service.ts, `create`). */
module OrderIntent {
  import opened Domain
  import opened Idempotency

  datatype CreateDto = CreateDto(branch: Id, client: Id, vehicle: Id, post: Option<Id>, employee: Option<Id>,
                                 start: int, services: seq<Id>, source: string, notes: Option<string>)

  function Insert(x: Id, s: seq<Id>): seq<Id> {
    if s == [] || x.AtMost(s[0]) then [x] + s else [s[0]] + Insert(x, s[1..])
  }

  /** `[...serviceIds].sort()` */
  function Sort(s: seq<Id>): seq<Id> {
    if s == [] then [] else Insert(s[0], Sort(s[1..]))
  }

  function SourceOf(dto: CreateDto): string {
    if dto.source == "" then "INTERNAL" else dto.source
  }

  function IntentOf(dto: CreateDto): Intent {
    OrderIntent(dto.branch, dto.client, dto.vehicle, dto.post, dto.employee, dto.start,
                Sort(dto.services), SourceOf(dto), dto.notes)
  }

  ghost predicate AtMostAll(x: Id, m: multiset<Id>) {
    forall y :: y in m ==> x.AtMost(y)
  }

  ghost predicate Sorted(s: seq<Id>) {
    s == [] || (AtMostAll(s[0], multiset(s[1..])) && Sorted(s[1..]))
  }

  lemma HeadAndTail(s: seq<Id>)
    requires s != []
    ensures multiset(s) == multiset{s[0]} + multiset(s[1..])
  {
    assert s == [s[0]] + s[1..];
  }

  lemma {:induction false} InsertKeepsSorted(x: Id, s: seq<Id>)
    requires Sorted(s)
    ensures Sorted(Insert(x, s)) && multiset(Insert(x, s)) == multiset(s) + multiset{x}
  {
    if s == [] || x.AtMost(s[0]) {
      assert Insert(x, s)[1..] == s;
      if s != [] {
        HeadAndTail(s);
      }
    } else {
      HeadAndTail(s);
      InsertKeepsSorted(x, s[1..]);
      assert Insert(x, s)[1..] == Insert(x, s[1..]);
    }
  }

  lemma {:induction false} SortSorts(s: seq<Id>)
    ensures Sorted(Sort(s)) && multiset(Sort(s)) == multiset(s)
  {
    if s != [] {
      SortSorts(s[1..]);
      InsertKeepsSorted(s[0], Sort(s[1..]));
      HeadAndTail(s);
    }
  }

  lemma {:induction false} SortedIsUnique(a: seq<Id>, b: seq<Id>)
    requires Sorted(a) && Sorted(b) && multiset(a) == multiset(b)
    ensures a == b
  {
    if a == [] || b == [] {
      assert |multiset(a)| == |a| && |multiset(b)| == |b|;
    } else {
      HeadAndTail(a);
      HeadAndTail(b);
      assert a[0] in multiset(b) && b[0] in multiset(a);
      assert multiset(a[1..]) == multiset(a) - multiset{a[0]};
      assert multiset(b[1..]) == multiset(b) - multiset{b[0]};
      SortedIsUnique(a[1..], b[1..]);
    }
  }

  /** Two requests have one fingerprint exactly when they differ at most in the order of their services. */
  lemma FingerprintIff(a: CreateDto, b: CreateDto)
    ensures IntentOf(a) == IntentOf(b) <==>
            && a.(services := [], source := SourceOf(a)) == b.(services := [], source := SourceOf(b))
            && multiset(a.services) == multiset(b.services)
  {
    SortSorts(a.services);
    SortSorts(b.services);
    if multiset(a.services) == multiset(b.services) {
      SortedIsUnique(Sort(a.services), Sort(b.services));
    }
  }
}
