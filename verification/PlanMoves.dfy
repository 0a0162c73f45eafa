/**
 One-voter moves that spread replicas: each swaps the group's voter with the most roles for the
 active node outside it with the fewest, counting the moves already planned.
 */
module PlanMoves {
  import opened Common

  type Node = int

  type Group = int

  datatype Placement = Seeded | Stable | Moving

  /** `current` are the voters of a group now, `target` those it ends on: the same unless it moves. */
  datatype GroupTarget = GroupTarget(state: Placement, current: set<Node>, target: set<Node>)

  type Targets = map<Group, GroupTarget>

  datatype Move = Move(group: Group, from: seq<Node>, into: seq<Node>, outgoing: Node, incoming: Node)

  /** A stable group with no voter has none to give up. */
  datatype PlanError = NoVoters(group: Group)

  predicate WellPlaced(targets: Targets) {
    forall g :: g in targets && targets[g].state.Stable? ==> targets[g].target == targets[g].current
  }

  // ---------------------------------------------------------------------------------------------
  // Roles recounted.
  // ---------------------------------------------------------------------------------------------

  /** Where every group ends, with the plan's moves made. */
  function Ends(targets: Targets, plan: seq<Move>): (r: map<Group, set<Node>>)
    decreases |plan|
  {
    if plan == [] then map g | g in targets :: targets[g].target
    else
      var m := plan[|plan| - 1];
      Ends(targets, plan[..|plan| - 1])[m.group := set n | n in m.into]
  }

  function Holders(ends: map<Group, set<Node>>, n: Node): (r: set<Group>) {
    set g | g in ends && n in ends[g]
  }

  /** The roles of `n` over all groups, the plan applied. */
  function Recount(targets: Targets, plan: seq<Move>, n: Node): (r: nat) {
    |Holders(Ends(targets, plan), n)|
  }

  function Role(roles: map<Node, int>, n: Node): (r: int) {
    if n in roles then roles[n] else 0
  }

  lemma HoldersAfter(ends: map<Group, set<Node>>, g: Group, outgoing: Node, incoming: Node, after: set<Node>, n: Node)
    requires g in ends && outgoing in ends[g] && incoming !in ends[g] && after == ends[g] - {outgoing} + {incoming}
    ensures |Holders(ends[g := after], n)|
         == |Holders(ends, n)| + (if n == incoming then 1 else 0) - (if n == outgoing then 1 else 0)
  {
    var before, now := Holders(ends, n), Holders(ends[g := after], n);
    if n == incoming {
      SameInts(now, before + {g});
    } else if n == outgoing {
      SameInts(now, before - {g});
    } else {
      SameInts(now, before);
    }
  }

  // ---------------------------------------------------------------------------------------------
  // What a plan is.
  // ---------------------------------------------------------------------------------------------

  /**
   What a plan is asked for: the groups, the nodes that take replicas, the retirements pending by
   group, and the one node to fill, if any.
   */
  datatype Request = Request(targets: Targets, active: seq<Node>, retirements: map<Group, set<Node>>,
    incoming: Option<Node>)

  function Retiring(q: Request, g: Group): (r: set<Node>) {
    if g in q.retirements then q.retirements[g] else {}
  }

  /** Group `g` may take `n`. */
  predicate Allowed(q: Request, g: Group, n: Node)
    requires g in q.targets
  {
    n in q.active && n !in q.targets[g].current && n !in Retiring(q, g) && (q.incoming.None? || q.incoming.value == n)
  }

  /** A move of a stable group that swaps one of its voters for a node it may take, and keeps how many there are. */
  predicate Lawful(q: Request, m: Move) {
    && m.group in q.targets && q.targets[m.group].state.Stable?
    && Allowed(q, m.group, m.incoming) && m.outgoing in q.targets[m.group].current
    && m.from == Ascending(q.targets[m.group].current)
    && m.into == Ascending(q.targets[m.group].current - {m.outgoing} + {m.incoming})
    && |m.into| == |m.from|
  }

  /** Fewer roles, or as many and the lesser node. */
  predicate Sooner(targets: Targets, plan: seq<Move>, a: Node, b: Node) {
    Recount(targets, plan, a) < Recount(targets, plan, b)
      || (Recount(targets, plan, a) == Recount(targets, plan, b) && a <= b)
  }

  /** More roles, or as many and the lesser node. */
  predicate Busier(targets: Targets, plan: seq<Move>, a: Node, b: Node) {
    Recount(targets, plan, a) > Recount(targets, plan, b)
      || (Recount(targets, plan, a) == Recount(targets, plan, b) && a <= b)
  }

  /**
   Of the nodes its group may take it takes the one with the fewest roles, of the voters it gives
   up the one with the most.
   */
  ghost predicate Best(q: Request, plan: seq<Move>, m: Move)
    requires m.group in q.targets
  {
    && (forall n :: Allowed(q, m.group, n) ==> Sooner(q.targets, plan, m.incoming, n))
    && (forall n :: n in q.targets[m.group].current ==> Busier(q.targets, plan, m.outgoing, n))
  }

  /** The groups a plan moves. */
  function Moved(plan: seq<Move>): (r: set<Group>)
    decreases |plan|
  {
    if plan == [] then {} else Moved(plan[..|plan| - 1]) + {plan[|plan| - 1].group}
  }

  /** Every move is lawful, the best with those before it made, and of a group none of them moves. */
  ghost predicate GoodPlan(q: Request, plan: seq<Move>)
    decreases |plan|
  {
    plan == [] ||
    var before, m := plan[..|plan| - 1], plan[|plan| - 1];
    GoodPlan(q, before) && Lawful(q, m) && Best(q, before, m) && m.group !in Moved(before)
  }

  /** A group the plan does not move ends where it stood. */
  lemma {:induction false} EndsUnplanned(targets: Targets, plan: seq<Move>, g: Group)
    requires g in targets && g !in Moved(plan)
    ensures g in Ends(targets, plan) && Ends(targets, plan)[g] == targets[g].target
    decreases |plan|
  {
    if plan != [] {
      EndsUnplanned(targets, plan[..|plan| - 1], g);
    }
  }

  /** A move changes the recount by its two nodes alone. */
  lemma RecountNext(q: Request, plan: seq<Move>, m: Move, n: Node)
    requires WellPlaced(q.targets) && Lawful(q, m) && m.group !in Moved(plan)
    ensures Recount(q.targets, plan + [m], n)
         == Recount(q.targets, plan, n) + (if n == m.incoming then 1 else 0) - (if n == m.outgoing then 1 else 0)
  {
    EndsUnplanned(q.targets, plan, m.group);
    var ends := Ends(q.targets, plan);
    var after := ends[m.group] - {m.outgoing} + {m.incoming};
    HoldersAfter(ends, m.group, m.outgoing, m.incoming, after, n);
    assert (plan + [m])[..|plan|] == plan;
    var listed := set x | x in m.into;
    SameInts(listed, after);
  }

  // ---------------------------------------------------------------------------------------------
  // The loop.
  // ---------------------------------------------------------------------------------------------

  method Choices(q: Request, g: Group) returns (r: seq<Node>)
    requires g in q.targets
    ensures forall n :: n in r <==> Allowed(q, g, n)
  {
    r := [];
    var i := 0;
    var blocked := q.targets[g].current + Retiring(q, g);
    while i < |q.active|
      invariant 0 <= i <= |q.active|
      invariant forall n :: n in r <==> n in q.active[..i] && Allowed(q, g, n)
    {
      if q.active[i] !in blocked && (q.incoming.None? || q.incoming.value == q.active[i]) {
        r := r + [q.active[i]];
      }
      i := i + 1;
    }
    assert q.active[..i] == q.active;
  }

  /** The least by roles, then by node. */
  method Fewest(choices: seq<Node>, roles: map<Node, int>) returns (best: Node)
    requires choices != []
    ensures best in choices
    ensures forall n :: n in choices ==>
                          Role(roles, best) < Role(roles, n) || (Role(roles, best) == Role(roles, n) && best <= n)
  {
    best := choices[0];
    var i := 1;
    while i < |choices|
      invariant 1 <= i <= |choices| && best in choices
      invariant forall k :: 0 <= k < i ==>
                              || Role(roles, best) < Role(roles, choices[k])
                              || (Role(roles, best) == Role(roles, choices[k]) && best <= choices[k])
    {
      var n := choices[i];
      if Role(roles, n) < Role(roles, best) || (Role(roles, n) == Role(roles, best) && n < best) {
        best := n;
      }
      i := i + 1;
    }
  }

  /** The first with the most roles, in ascending order. */
  method Busiest(voters: seq<Node>, roles: map<Node, int>) returns (best: Node)
    requires voters != [] && StrictlyAscending(voters)
    ensures best in voters
    ensures forall n :: n in voters ==>
                          Role(roles, n) < Role(roles, best) || (Role(roles, n) == Role(roles, best) && best <= n)
  {
    best := voters[0];
    var i := 1;
    ghost var at := 0;
    while i < |voters|
      invariant 1 <= i <= |voters| && 0 <= at < i && best == voters[at]
      invariant forall k :: 0 <= k < i ==>
                              || Role(roles, voters[k]) < Role(roles, best)
                              || (Role(roles, voters[k]) == Role(roles, best) && best <= voters[k])
    {
      if Role(roles, voters[i]) > Role(roles, best) {
        best := voters[i];
        at := i;
      }
      i := i + 1;
    }
  }

  function Swapped(roles: map<Node, int>, outgoing: Node, incoming: Node): (r: map<Node, int>) {
    var more := roles[incoming := Role(roles, incoming) + 1];
    more[outgoing := Role(more, outgoing) - 1]
  }

  lemma SwapKeepsSize(current: set<Node>, outgoing: Node, incoming: Node)
    requires outgoing in current && incoming !in current
    ensures |current - {outgoing} + {incoming}| == |current|
  {
  }

  /** The counter is the recount over all groups with the plan applied. */
  ghost predicate Counts(roles: map<Node, int>, targets: Targets, plan: seq<Move>) {
    forall n :: Role(roles, n) == Recount(targets, plan, n)
  }

  lemma CountsNext(q: Request, roles: map<Node, int>, plan: seq<Move>, m: Move)
    requires WellPlaced(q.targets) && Counts(roles, q.targets, plan) && Lawful(q, m) && m.group !in Moved(plan)
    ensures Counts(Swapped(roles, m.outgoing, m.incoming), q.targets, plan + [m])
  {
    forall n ensures Role(Swapped(roles, m.outgoing, m.incoming), n) == Recount(q.targets, plan + [m], n) {
      RecountNext(q, plan, m, n);
    }
  }

  /** What one candidate adds: its best move. */
  method BestMove(q: Request, g: Group, choices: seq<Node>, roles: map<Node, int>,
                  ghost plan: seq<Move>) returns (m: Move)
    requires g in q.targets && q.targets[g].state.Stable? && q.targets[g].current != {}
    requires choices != [] && (forall n :: n in choices <==> Allowed(q, g, n)) && Counts(roles, q.targets, plan)
    ensures m.group == g && Lawful(q, m) && Best(q, plan, m)
  {
    var current := q.targets[g].current;
    var incoming := Fewest(choices, roles);
    SomeInt(current);
    var voters := Ascending(current);
    var outgoing := Busiest(voters, roles);
    m := Move(g, voters, Ascending(current - {outgoing} + {incoming}), outgoing, incoming);
    SwapKeepsSize(current, outgoing, incoming);
    BestByRoles(q, plan, m, choices, roles);
  }

  lemma BestByRoles(q: Request, plan: seq<Move>, m: Move, choices: seq<Node>, roles: map<Node, int>)
    requires m.group in q.targets && (forall n :: n in choices <==> Allowed(q, m.group, n))
    requires Counts(roles, q.targets, plan)
    requires forall n :: n in choices ==>
                           || Role(roles, m.incoming) < Role(roles, n)
                           || (Role(roles, m.incoming) == Role(roles, n) && m.incoming <= n)
    requires forall n :: n in q.targets[m.group].current ==>
                           || Role(roles, n) < Role(roles, m.outgoing)
                           || (Role(roles, n) == Role(roles, m.outgoing) && m.outgoing <= n)
    ensures Best(q, plan, m)
  {
    var t := q.targets;
    assert Role(roles, m.incoming) == Recount(t, plan, m.incoming);
    assert Role(roles, m.outgoing) == Recount(t, plan, m.outgoing);
    forall n | Allowed(q, m.group, n) ensures Sooner(t, plan, m.incoming, n) {
      assert n in choices && Role(roles, n) == Recount(t, plan, n);
    }
    forall n | n in t[m.group].current ensures Busier(t, plan, m.outgoing, n) {
      assert Role(roles, n) == Recount(t, plan, n);
    }
  }

  /** The roles as the targets give them. */
  function RolesOf(targets: Targets): (r: map<Node, int>) {
    map n | n in AllNodes(targets) :: Recount(targets, [], n)
  }

  function AllNodes(targets: Targets): (r: set<Node>) {
    set g, n | g in targets && n in targets[g].target :: n
  }

  lemma RolesCount(targets: Targets)
    ensures Counts(RolesOf(targets), targets, [])
  {
    forall n ensures Role(RolesOf(targets), n) == Recount(targets, [], n) {
      if n !in AllNodes(targets) {
        NoInts(Holders(Ends(targets, []), n));
      }
    }
  }

  /** The stable groups in some order, as the shuffle leaves them. */
  predicate Candidates(targets: Targets, order: seq<Group>) {
    && (forall i, j :: 0 <= i < j < |order| ==> order[i] != order[j])
    && (forall i :: 0 <= i < |order| ==> order[i] in targets && targets[order[i]].state.Stable?)
    && (forall g :: g in targets && targets[g].state.Stable? ==> g in order)
  }

  /** A group left alone had no node to take. */
  ghost predicate LeftAlone(q: Request, g: Group) {
    g in q.targets && forall n :: !Allowed(q, g, n)
  }

  /** How many of the candidates have a node to take. */
  ghost function Movable(q: Request, order: seq<Group>): (n: nat)
    decreases |order|
  {
    if order == [] then 0
    else Movable(q, order[..|order| - 1]) + if LeftAlone(q, order[|order| - 1]) then 0 else 1
  }

  /**
   The plan stops at candidate `i`: it has a node to take and no voter to give up, the ones before
   it that have a node to take have voters, and they are fewer than `count`.
   */
  ghost predicate StopsAt(q: Request, order: seq<Group>, count: int, i: int) {
    && 0 <= i < |order| && VotersBefore(q, order, i) && Movable(q, order[..i]) < count
    && order[i] in q.targets && q.targets[order[i]].current == {} && !LeftAlone(q, order[i])
  }

  ghost predicate VotersBefore(q: Request, order: seq<Group>, i: nat)
    requires i <= |order|
  {
    forall j :: 0 <= j < i ==> LeftAlone(q, order[j]) || (order[j] in q.targets && q.targets[order[j]].current != {})
  }

  lemma MovableNext(q: Request, order: seq<Group>, i: nat)
    requires i < |order|
    ensures Movable(q, order[..i + 1]) == Movable(q, order[..i]) + if LeftAlone(q, order[i]) then 0 else 1
  {
    assert order[..i + 1][..i] == order[..i];
  }

  lemma {:induction false} MovableGrows(q: Request, order: seq<Group>, i: nat, j: nat)
    requires i <= j <= |order|
    ensures Movable(q, order[..i]) <= Movable(q, order[..j])
    decreases j - i
  {
    if i < j {
      MovableNext(q, order, j - 1);
      MovableGrows(q, order, i, j - 1);
    }
  }

  /** No candidate stops the plan once as many as asked for can move, with voters all. */
  lemma NeverStops(q: Request, order: seq<Group>, count: int, i: nat)
    requires i <= |order| && VotersBefore(q, order, i) && (Movable(q, order[..i]) >= count || i == |order|)
    ensures forall k :: !StopsAt(q, order, count, k)
  {
    forall k ensures !StopsAt(q, order, count, k) {
      if 0 <= k < |order| && i <= k {
        MovableGrows(q, order, i, k);
      }
    }
  }

  /** A candidate not moved although the plan had room. */
  ghost predicate Considered(q: Request, plan: seq<Move>, g: Group) {
    g in Moved(plan) || LeftAlone(q, g)
  }

  /** The first `i` candidates are dealt with, and no other. */
  ghost predicate Done(q: Request, plan: seq<Move>, order: seq<Group>, i: nat)
    requires i <= |order|
  {
    && (forall g :: g in Moved(plan) ==> g in order[..i])
    && (forall k :: 0 <= k < i ==> Considered(q, plan, order[k]))
  }

  lemma Skipped(q: Request, plan: seq<Move>, order: seq<Group>, i: nat, choices: seq<Node>)
    requires i < |order| && Done(q, plan, order, i) && order[i] in q.targets
    requires choices == [] && forall n :: n in choices <==> Allowed(q, order[i], n)
    ensures Done(q, plan, order, i + 1)
  {
    assert LeftAlone(q, order[i]) by {
      forall n ensures !Allowed(q, order[i], n) {
        assert n !in choices;
      }
    }
  }

  lemma MovedNext(plan: seq<Move>, m: Move)
    ensures Moved(plan + [m]) == Moved(plan) + {m.group}
  {
    assert (plan + [m])[..|plan|] == plan;
  }

  lemma GoodNext(q: Request, plan: seq<Move>, m: Move)
    requires GoodPlan(q, plan) && Lawful(q, m) && Best(q, plan, m) && m.group !in Moved(plan)
    ensures GoodPlan(q, plan + [m])
  {
    var all := plan + [m];
    var before := all[..|all| - 1];
    assert before == plan;
    assert GoodPlan(q, before) && Best(q, before, m) && m.group !in Moved(before);
  }

  lemma DoneNext(q: Request, plan: seq<Move>, m: Move, order: seq<Group>, i: nat)
    requires i < |order| && Done(q, plan, order, i) && m.group == order[i]
    ensures Done(q, plan + [m], order, i + 1)
  {
    MovedNext(plan, m);
    forall g | g in Moved(plan + [m]) ensures g in order[..i + 1] {
      if g != m.group {
        assert g in order[..i];
        var k :| 0 <= k < i && order[..i][k] == g;
        assert order[..i + 1][k] == g;
      } else {
        assert order[..i + 1][i] == g;
      }
    }
    forall k | 0 <= k < i + 1 ensures Considered(q, plan + [m], order[k]) {
      if k < i {
        assert Considered(q, plan, order[k]);
      }
    }
  }

  /**
   The first `i` candidates dealt with: the plan good, the counter its recount, a move for each
   that had a node to take.
   */
  ghost predicate Progress(q: Request, order: seq<Group>, i: nat, plan: seq<Move>, roles: map<Node, int>)
    requires i <= |order|
  {
    && Counts(roles, q.targets, plan) && GoodPlan(q, plan) && Done(q, plan, order, i)
    && |plan| == Movable(q, order[..i]) && VotersBefore(q, order, i)
  }

  lemma SkipProgress(q: Request, order: seq<Group>, i: nat, plan: seq<Move>, roles: map<Node, int>, choices: seq<Node>)
    requires i < |order| && order[i] in q.targets && Progress(q, order, i, plan, roles) && LeftAlone(q, order[i])
    requires choices == [] && forall n :: n in choices <==> Allowed(q, order[i], n)
    ensures Progress(q, order, i + 1, plan, roles)
  {
    MovableNext(q, order, i);
    Skipped(q, plan, order, i, choices);
  }

  lemma MoveProgress(q: Request, order: seq<Group>, i: nat, plan: seq<Move>, roles: map<Node, int>, m: Move)
    requires i < |order| && WellPlaced(q.targets) && Candidates(q.targets, order) && Progress(q, order, i, plan, roles)
    requires m.group == order[i] && Lawful(q, m) && Best(q, plan, m) && !LeftAlone(q, order[i])
    ensures Progress(q, order, i + 1, plan + [m], Swapped(roles, m.outgoing, m.incoming))
  {
    MovableNext(q, order, i);
    NewCandidate(order, i);
    assert m.group !in Moved(plan);
    DoneNext(q, plan, m, order, i);
    GoodNext(q, plan, m);
    CountsNext(q, roles, plan, m);
  }

  /**
   At most `count` moves of groups each moved once; with room left, every stable group that could
   move does. It fails exactly when it reaches a group without voters that has a node to take.
   */
  method Plan(q: Request, order: seq<Group>, count: int) returns (r: Result<seq<Move>, PlanError>)
    requires WellPlaced(q.targets) && Candidates(q.targets, order)
    ensures r.Ok? ==> GoodPlan(q, r.value) && |r.value| <= Max(count, 0)
    ensures r.Ok? && |r.value| < count ==>
        forall g :: g in q.targets && q.targets[g].state.Stable? ==> Considered(q, r.value, g)
    ensures r.Err? <==> exists i :: StopsAt(q, order, count, i)
    ensures r.Err? ==> exists i :: StopsAt(q, order, count, i) && order[i] == r.error.group
  {
    var roles := RolesOf(q.targets);
    RolesCount(q.targets);
    var plan: seq<Move> := [];
    var i := 0;
    while i < |order|
      invariant 0 <= i <= |order| && |plan| <= Max(count, 0)
      invariant Progress(q, order, i, plan, roles)
    {
      if |plan| >= count {
        NeverStops(q, order, count, i);
        return Ok(plan);
      }
      var g := order[i];
      var choices := Choices(q, g);
      ChoicesLeave(q, g, choices);
      if choices == [] {
        SkipProgress(q, order, i, plan, roles, choices);
      } else {
        if q.targets[g].current == {} {
          assert StopsAt(q, order, count, i);
          return Err(NoVoters(g));
        }
        var m := BestMove(q, g, choices, roles, plan);
        MoveProgress(q, order, i, plan, roles, m);
        roles := Swapped(roles, m.outgoing, m.incoming);
        plan := plan + [m];
      }
      i := i + 1;
    }
    NeverStops(q, order, count, i);
    AllDone(q, plan, order);
    return Ok(plan);
  }

  lemma ChoicesLeave(q: Request, g: Group, choices: seq<Node>)
    requires g in q.targets && forall n :: n in choices <==> Allowed(q, g, n)
    ensures LeftAlone(q, g) <==> choices == []
  {
    if choices != [] {
      assert choices[0] in choices;
      assert Allowed(q, g, choices[0]);
    } else {
      forall n ensures !Allowed(q, g, n) {
        assert n !in choices;
      }
    }
  }

  lemma NewCandidate(order: seq<Group>, i: nat)
    requires i < |order| && forall j, k :: 0 <= j < k < |order| ==> order[j] != order[k]
    ensures order[i] !in order[..i]
  {
  }

  lemma AllDone(q: Request, plan: seq<Move>, order: seq<Group>)
    requires Candidates(q.targets, order) && Done(q, plan, order, |order|)
    ensures forall g :: g in q.targets && q.targets[g].state.Stable? ==> Considered(q, plan, g)
  {
    forall g | g in q.targets && q.targets[g].state.Stable? ensures Considered(q, plan, g) {
      assert g in order;
      var k :| 0 <= k < |order| && order[k] == g;
      assert Considered(q, plan, order[k]);
    }
  }

  /** A stable group without voters stops a plan: that of one node to take and any room. */
  lemma StopReached(g: Group, n: Node, count: int)
    requires count >= 1
    ensures var q := Request(map[g := GroupTarget(Stable, {}, {})], [n], map[], None);
            WellPlaced(q.targets) && Candidates(q.targets, [g]) && StopsAt(q, [g], count, 0)
  {
    var q := Request(map[g := GroupTarget(Stable, {}, {})], [n], map[], None);
    assert Allowed(q, g, n);
  }
}
