/** The order in which the workspace's crates are published: every crate after the ones it needs. */
module ReleaseOrder {
  import opened Common

  /** A crate's name; names compare as the script sorts them. */
  type Name = int

  datatype Dependency = Dependency(name: Name, dev: bool)

  type Requirements = map<Name, set<Name>>

  /** The internal dependencies that are not for development only. */
  function Required(packages: map<Name, seq<Dependency>>): (r: Requirements) {
    map n | n in packages :: set d | d in packages[n] && d.name in packages && !d.dev :: d.name
  }

  /** Nothing is required that is not among the packages. */
  predicate Closed(rem: Requirements) {
    forall n, d :: n in rem && d in rem[n] ==> d in rem
  }

  lemma RequiredIsClosed(packages: map<Name, seq<Dependency>>)
    ensures Closed(Required(packages))
  {
  }

  function Ready(rem: Requirements): (r: set<Name>) {
    set n | n in rem && rem[n] == {}
  }

  function Rest(rem: Requirements): (r: Requirements) {
    map n | n in rem && rem[n] != {} :: rem[n] - Ready(rem)
  }

  lemma RestIsSmaller(rem: Requirements)
    requires Ready(rem) != {}
    ensures |Rest(rem)| < |rem|
  {
    SomeInt(Ready(rem));
    var n :| n in Ready(rem);
    assert n in rem.Keys && n !in Rest(rem).Keys;
    assert Rest(rem).Keys <= rem.Keys - {n};
    Smaller(Rest(rem).Keys, rem.Keys - {n});
  }

  lemma {:induction false} Smaller(a: set<int>, b: set<int>)
    requires a <= b
    ensures |a| <= |b|
  {
    assert a + (b - a) == b;
  }

  /** Layer after layer: the packages that need nothing left, by name; what remains when none is ready. */
  function Order(rem: Requirements): (r: Result<seq<Name>, Requirements>)
    decreases |rem|
  {
    if rem == map[] then Ok([])
    else if Ready(rem) == {} then Err(rem)
    else
      RestIsSmaller(rem);
      match Order(Rest(rem))
      case Err(stuck) => Err(stuck)
      case Ok(later) => Ok(Ascending(Ready(rem)) + later)
  }

  // ---------------------------------------------------------------------------------------------
  // The order.
  // ---------------------------------------------------------------------------------------------

  predicate Distinct(s: seq<Name>) {
    forall i, j :: 0 <= i < j < |s| ==> s[i] != s[j]
  }

  predicate Before(order: seq<Name>, d: Name, i: nat)
    requires i <= |order|
  {
    d in order[..i]
  }

  /** Each package once, and all it requires earlier. */
  ghost predicate Sorted(rem: Requirements, order: seq<Name>) {
    && Distinct(order)
    && (forall n :: n in rem <==> n in order)
    && (forall i, d :: 0 <= i < |order| && order[i] in rem && d in rem[order[i]] ==> Before(order, d, i))
  }

  lemma {:induction false} OrderIsSorted(rem: Requirements)
    requires Closed(rem) && Order(rem).Ok?
    ensures Sorted(rem, Order(rem).value)
    decreases |rem|
  {
    if rem != map[] {
      RestIsSmaller(rem);
      var rest := Rest(rem);
      assert Closed(rest);
      OrderIsSorted(rest);
      Prepend(rem, rest, Ascending(Ready(rem)), Order(rest).value);
    }
  }

  /** `ready` lists the packages that are. */
  ghost predicate Lists(ready: seq<Name>, rem: Requirements) {
    Distinct(ready) && forall n :: n in ready <==> n in Ready(rem)
  }

  lemma Prepend(rem: Requirements, rest: Requirements, ready: seq<Name>, later: seq<Name>)
    requires Closed(rem) && rest == Rest(rem) && Lists(ready, rem) && Sorted(rest, later)
    ensures Sorted(rem, ready + later)
  {
    var order := ready + later;
    PrependDistinct(rem, rest, ready, later);
    forall n ensures n in rem <==> n in order {
      assert n in rem <==> n in Ready(rem) || n in rest;
    }
    forall i, d | 0 <= i < |order| && order[i] in rem && d in rem[order[i]] ensures Before(order, d, i) {
      PrependBefore(rem, rest, ready, later, i, d);
    }
  }

  lemma PrependDistinct(rem: Requirements, rest: Requirements, ready: seq<Name>, later: seq<Name>)
    requires rest == Rest(rem) && Lists(ready, rem) && Sorted(rest, later)
    ensures Distinct(ready + later)
  {
    var order := ready + later;
    forall i, j | 0 <= i < j < |order| ensures order[i] != order[j] {
      if i < |ready| <= j {
        assert order[i] == ready[i] && order[j] == later[j - |ready|];
        assert ready[i] in Ready(rem) && later[j - |ready|] in rest;
      }
    }
  }

  lemma PastFirst(a: seq<Name>, b: seq<Name>, i: nat)
    requires i < |a| + |b| && (a + b)[i] !in a
    ensures i >= |a|
  {
  }

  lemma PrependBefore(rem: Requirements, rest: Requirements, ready: seq<Name>, later: seq<Name>, i: nat, d: Name)
    requires rest == Rest(rem) && Lists(ready, rem) && Sorted(rest, later)
    requires i < |ready| + |later| && (ready + later)[i] in rem && d in rem[(ready + later)[i]]
    ensures Before(ready + later, d, i)
  {
    var order := ready + later;
    var n := order[i];
    assert n !in Ready(rem);
    PastFirst(ready, later, i);
    var k := i - |ready|;
    assert n == later[k];
    assert order[..i] == ready + later[..k];
    if d !in ready {
      assert d in rest[later[k]];
      assert Before(later, d, k);
    }
  }

  // ---------------------------------------------------------------------------------------------
  // Cycles.
  // ---------------------------------------------------------------------------------------------

  /** Each package of `c` requires the next, and the last the first. */
  predicate Cycle(rem: Requirements, c: seq<Name>) {
    && c != []
    && (forall i :: 0 <= i < |c| ==> c[i] in rem && c[if i + 1 < |c| then i + 1 else 0] in rem[c[i]])
  }

  /** Each package of `walk` requires the next. */
  predicate Walk(rem: Requirements, walk: seq<Name>) {
    && walk != []
    && (forall i :: 0 <= i < |walk| ==> walk[i] in rem)
    && (forall i :: 0 <= i < |walk| - 1 ==> walk[i + 1] in rem[walk[i]])
  }

  function Members(s: seq<Name>): (r: set<Name>) {
    set i | 0 <= i < |s| :: s[i]
  }

  lemma {:induction false} DistinctCount(s: seq<Name>)
    requires Distinct(s)
    ensures |Members(s)| == |s|
  {
    if s != [] {
      var last := s[|s| - 1];
      var front := s[..|s| - 1];
      DistinctCount(front);
      SameInts(Members(s), Members(front) + {last});
    }
  }

  lemma WalkFits(rem: Requirements, walk: seq<Name>)
    requires Walk(rem, walk) && Distinct(walk)
    ensures |walk| <= |rem|
  {
    DistinctCount(walk);
    assert Members(walk) <= rem.Keys;
    Smaller(Members(walk), rem.Keys);
  }

  /** Where every package requires one that remains, a walk comes back to itself. */
  lemma {:induction false} FindCycle(rem: Requirements, walk: seq<Name>) returns (c: seq<Name>)
    requires Closed(rem) && Ready(rem) == {} && Walk(rem, walk) && Distinct(walk)
    ensures Cycle(rem, c)
    decreases |rem| - |walk|
  {
    WalkFits(rem, walk);
    var last := walk[|walk| - 1];
    assert last !in Ready(rem);
    SomeInt(rem[last]);
    var d :| d in rem[last];
    if d in walk {
      var i :| 0 <= i < |walk| && walk[i] == d;
      c := walk[i..];
    } else {
      WalkFits(rem, walk + [d]);
      c := FindCycle(rem, walk + [d]);
    }
  }

  lemma CycleOfRest(rem: Requirements, c: seq<Name>)
    requires Cycle(Rest(rem), c)
    ensures Cycle(rem, c)
  {
  }

  /** Nothing on a cycle is ever ready. */
  lemma CycleStays(rem: Requirements, c: seq<Name>)
    requires Cycle(rem, c)
    ensures Cycle(Rest(rem), c)
  {
    var rest := Rest(rem);
    forall i | 0 <= i < |c| ensures c[i] in rest && c[if i + 1 < |c| then i + 1 else 0] in rest[c[i]] {
      var next := if i + 1 < |c| then i + 1 else 0;
      assert c[next] in rem[c[i]];
      assert c[next] in rem && c[if next + 1 < |c| then next + 1 else 0] in rem[c[next]];
      assert c[next] !in Ready(rem);
    }
  }

  lemma {:induction false} RaisesOnCycle(rem: Requirements, c: seq<Name>)
    requires Cycle(rem, c)
    ensures Order(rem).Err?
    decreases |rem|
  {
    assert c[0] in rem;
    if Ready(rem) != {} {
      RestIsSmaller(rem);
      CycleStays(rem, c);
      RaisesOnCycle(Rest(rem), c);
    }
  }

  lemma {:induction false} CycleOnRaise(rem: Requirements) returns (c: seq<Name>)
    requires Closed(rem) && Order(rem).Err?
    ensures Cycle(rem, c)
    decreases |rem|
  {
    if Ready(rem) == {} {
      assert rem.Keys != {};
      SomeInt(rem.Keys);
      var n :| n in rem.Keys;
      c := FindCycle(rem, [n]);
    } else {
      RestIsSmaller(rem);
      assert Closed(Rest(rem));
      c := CycleOnRaise(Rest(rem));
      CycleOfRest(rem, c);
    }
  }

  /** An order of all packages, each after what it requires; none exactly when the requirements have a cycle. */
  lemma OrderExactly(packages: map<Name, seq<Dependency>>)
    ensures var rem := Required(packages);
            && (Order(rem).Ok? ==> Sorted(rem, Order(rem).value))
            && (Order(rem).Err? <==> exists c :: Cycle(rem, c))
  {
    var rem := Required(packages);
    RequiredIsClosed(packages);
    if Order(rem).Ok? {
      OrderIsSorted(rem);
      forall c | Cycle(rem, c) ensures false {
        RaisesOnCycle(rem, c);
      }
    } else {
      var c := CycleOnRaise(rem);
    }
  }

  // ---------------------------------------------------------------------------------------------
  // The loop.
  // ---------------------------------------------------------------------------------------------

  method DropReady(rem: Requirements, ready: seq<Name>) returns (r: Requirements)
    ensures forall n :: n in r <==> n in rem && n !in ready
    ensures forall n :: n in r ==> r[n] == rem[n]
  {
    r := rem;
    var i := 0;
    while i < |ready|
      invariant 0 <= i <= |ready|
      invariant forall n :: n in r <==> n in rem && n !in ready[..i]
      invariant forall n :: n in r ==> r[n] == rem[n]
    {
      r := r - {ready[i]};
      i := i + 1;
    }
    assert ready[..i] == ready;
  }

  /** The requirements of `n` once those of `done` are reduced. */
  function Reduced(rem: Requirements, done: set<Name>, gone: set<Name>, n: Name): (r: set<Name>)
    requires n in rem
  {
    if n in done then rem[n] - gone else rem[n]
  }

  method DifferenceUpdate(rem: Requirements, gone: set<Name>) returns (r: Requirements)
    ensures forall n :: n in r <==> n in rem
    ensures forall n :: n in r ==> r[n] == rem[n] - gone
  {
    r := rem;
    var left := rem.Keys;
    ghost var done: set<Name> := {};
    while left != {}
      invariant forall n :: n in r <==> n in rem
      invariant forall n :: n in rem ==> (n in left <==> n !in done)
      invariant forall n :: n in left ==> n in rem
      invariant forall n :: n in r ==> r[n] == Reduced(rem, done, gone, n)
    {
      var name := Least(left);
      r := r[name := r[name] - gone];
      left := left - {name};
      done := done + {name};
    }
  }

  function Then(order: seq<Name>, later: Result<seq<Name>, Requirements>): (r: Result<seq<Name>, Requirements>) {
    match later
    case Err(stuck) => Err(stuck)
    case Ok(names) => Ok(order + names)
  }

  lemma ThenThen(order: seq<Name>, ready: seq<Name>, later: Result<seq<Name>, Requirements>)
    ensures Then(order, Then(ready, later)) == Then(order + ready, later) && Then([], later) == later
  {
    if later.Ok? {
      assert order + (ready + later.value) == order + ready + later.value;
      assert [] + later.value == later.value;
    }
  }

  lemma IsRest(rem: Requirements, ready: seq<Name>, left: Requirements)
    requires Lists(ready, rem)
    requires forall n :: n in left <==> n in rem && n !in ready
    requires forall n :: n in left ==> left[n] == rem[n] - Ready(rem)
    ensures left == Rest(rem)
  {
    var rest := Rest(rem);
    forall n ensures n in left.Keys <==> n in rest.Keys {
      assert n in ready <==> n in Ready(rem);
    }
    SameInts(left.Keys, rest.Keys);
    assert left.Keys == rest.Keys;
    forall n | n in left ensures n in rest && left[n] == rest[n] {
      assert n in rest.Keys;
    }
  }

  /** One layer of the loop. */
  method TakeReady(rem: Requirements, ready: seq<Name>) returns (left: Requirements)
    requires Lists(ready, rem)
    ensures left == Rest(rem)
  {
    left := DropReady(rem, ready);
    left := DifferenceUpdate(left, Ready(rem));
    IsRest(rem, ready, left);
  }

  /** Every internal dependency that is not for development only comes earlier. */
  predicate DependenciesFirst(packages: map<Name, seq<Dependency>>, order: seq<Name>) {
    forall i, k :: 0 <= i < |order| && order[i] in packages && 0 <= k < |packages[order[i]]| ==>
                     var d := packages[order[i]][k];
                     !d.dev && d.name in packages ==> Before(order, d.name, i)
  }

  lemma SortedIsFirst(packages: map<Name, seq<Dependency>>, order: seq<Name>)
    requires Sorted(Required(packages), order)
    ensures DependenciesFirst(packages, order)
  {
    var rem := Required(packages);
    forall i, k | 0 <= i < |order| && order[i] in packages && 0 <= k < |packages[order[i]]|
                  && !packages[order[i]][k].dev && packages[order[i]][k].name in packages
      ensures Before(order, packages[order[i]][k].name, i)
    {
      assert packages[order[i]][k] in packages[order[i]];
      assert packages[order[i]][k].name in rem[order[i]];
    }
  }

  method TopologicalOrder(packages: map<Name, seq<Dependency>>) returns (r: Result<seq<Name>, Requirements>)
    ensures r == Order(Required(packages))
    ensures r.Ok? ==> Sorted(Required(packages), r.value) && DependenciesFirst(packages, r.value)
    ensures r.Err? <==> exists c :: Cycle(Required(packages), c)
  {
    OrderExactly(packages);
    ghost var all := Order(Required(packages));
    if all.Ok? {
      SortedIsFirst(packages, all.value);
    }
    var order: seq<Name> := [];
    var remaining := Required(packages);
    ThenThen([], [], Order(remaining));
    while remaining != map[]
      invariant Order(Required(packages)) == Then(order, Order(remaining))
      decreases |remaining|
    {
      var ready := Ascending(Ready(remaining));
      if ready == [] {
        NoInts(Ready(remaining));
        return Err(remaining);
      }
      assert ready[0] in Ready(remaining);
      RestIsSmaller(remaining);
      var left := TakeReady(remaining, ready);
      ThenThen(order, ready, Order(left));
      order := order + ready;
      remaining := left;
    }
    assert order + [] == order;
    return Ok(order);
  }
}
