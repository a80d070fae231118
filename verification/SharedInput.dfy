/** A batch over an input that hosts two of its assets, from selection to transitions. */
module SharedInput {

  import opened Common
  import opened Assignments
  import opened Selection
  import opened SendLoop
  import opened Transitions

  function Alone(asset: AssetId, n: nat): LocalRgbAllocation
  {
    LocalRgbAllocation(Some(asset), Fungible(n), Settled, true, false)
  }

  /** One output hosts n of one asset; the other hosts s of the same asset and m of another one. */
  datatype Scene = Scene(
    asset: AssetId, other: AssetId, first: Outpoint, second: Outpoint, x: Opout, stray: Opout, y: Opout,
    n: nat, s: nat, m: nat)
  {
    /** The second output holds too little of the first asset, but is worth more than the first one. */
    predicate Valid()
    {
      && asset != other && first != second && x != stray && x != y && stray != y
      && x.ty.OsAsset? && stray.ty.OsAsset? && y.ty.OsAsset?
      && 0 < s < n < s + m && 0 < m
    }

    function X(): Holding { Holding(asset, first, x, Amount(n)) }

    function Stray(): Holding { Holding(asset, second, stray, Amount(s)) }

    function Y(): Holding { Holding(other, second, y, Amount(m)) }

    function Stock(): seq<Holding> { [X(), Stray(), Y()] }

    function First(): LocalUnspent { LocalUnspent(first, false, true, false, 1000, [Alone(asset, n)], 0) }

    function Second(): LocalUnspent
    {
      LocalUnspent(second, false, true, false, 1000, [Alone(asset, s), Alone(other, m)], 0)
    }

    function Candidates(): seq<LocalUnspent> { [First(), Second()] }

    function SendX(): AssetRequest { AssetRequest(asset, Collection(n, false, 0), false) }

    function SendY(): AssetRequest { AssetRequest(other, Collection(m, false, 0), false) }
  }

  /** What the first output hosts. */
  lemma HostedFirst(c: Scene, a: AssetId)
    requires c.Valid()
    ensures Filter(c.First().allocations, SettledFilter(a)) == if a == c.asset then [Alone(a, c.n)] else []
    ensures FungibleOn(a)(c.First()) == if a == c.asset then c.n else 0
    ensures InflationOn(a)(c.First()) == 0 && NonFungibleOn(a)(c.First()) == 0
  {
    assert c.First().allocations[..0] == [];
    SumOne(Alone(a, c.n), FungibleAmounts());
    SumOne(Alone(a, c.n), InflationAmounts());
    SumOne(Alone(a, c.n), NonFungibles());
  }

  lemma HostedSecond(c: Scene, a: AssetId)
    requires c.Valid() && (a == c.asset || a == c.other)
    ensures var amount := if a == c.asset then c.s else c.m;
      && Filter(c.Second().allocations, SettledFilter(a)) == [Alone(a, amount)]
      && FungibleOn(a)(c.Second()) == amount
      && InflationOn(a)(c.Second()) == 0 && NonFungibleOn(a)(c.Second()) == 0
  {
    var amount := if a == c.asset then c.s else c.m;
    FilterTwo(Alone(c.asset, c.s), Alone(c.other, c.m), SettledFilter(a));
    SumOne(Alone(a, amount), FungibleAmounts());
    SumOne(Alone(a, amount), InflationAmounts());
    SumOne(Alone(a, amount), NonFungibles());
  }

  lemma StockedAt(c: Scene, a: AssetId, o: Outpoint)
    requires c.Valid() && (a == c.asset || a == c.other) && (o == c.first || o == c.second)
    ensures AssignmentsFor(c.Stock(), a, {o}) ==
      if o == c.first then (if a == c.asset then [c.X()] else []) else if a == c.asset then [c.Stray()] else [c.Y()]
  {
    FilterThree(c.X(), c.Stray(), c.Y(), HeldIn(a, {o}));
  }

  lemma AgreesOn(c: Scene, a: AssetId, u: LocalUnspent)
    requires c.Valid() && (a == c.asset || a == c.other) && u in c.Candidates()
    ensures Agrees(a, u, c.Stock())
  {
    StockedAt(c, a, u.outpoint);
    HostedFirst(c, a);
    HostedSecond(c, a);
    var here := AssignmentsFor(c.Stock(), a, {u.outpoint});
    if here != [] {
      SumOne(here[0], FungibleState());
      SumOne(here[0], InflationState());
      SumOne(here[0], DataState());
    }
  }

  lemma SceneIsConcrete(c: Scene, a: AssetId)
    requires c.Valid() && (a == c.asset || a == c.other)
    ensures Concrete(a, c.Candidates()) && !SomeNonFungible(a, c.Candidates())
    ensures forall u | u in c.Candidates() :: Agrees(a, u, c.Stock())
  {
    HostsNoData(c, a);
    SceneAgrees(c, a);
  }

  lemma SceneAgrees(c: Scene, a: AssetId)
    requires c.Valid() && (a == c.asset || a == c.other)
    ensures forall u | u in c.Candidates() :: Agrees(a, u, c.Stock())
  {
    AgreesOn(c, a, c.First());
    AgreesOn(c, a, c.Second());
  }

  /** All that an output hosts of an asset is fungible. */
  ghost predicate OnlyFungible(a: AssetId, u: LocalUnspent)
  {
    && NonFungibleOn(a)(u) == 0
    && forall l | l in Filter(u.allocations, SettledFilter(a)) :: l.assignment.Fungible?
  }

  lemma FirstIsFungible(c: Scene, a: AssetId)
    requires c.Valid()
    ensures OnlyFungible(a, c.First())
  {
    HostedFirst(c, a);
  }

  lemma SecondIsFungible(c: Scene, a: AssetId)
    requires c.Valid() && (a == c.asset || a == c.other)
    ensures OnlyFungible(a, c.Second())
  {
    HostedSecond(c, a);
  }

  lemma HostsNoData(c: Scene, a: AssetId)
    requires c.Valid() && (a == c.asset || a == c.other)
    ensures Concrete(a, c.Candidates()) && !SomeNonFungible(a, c.Candidates())
  {
    FirstIsFungible(c, a);
    SecondIsFungible(c, a);
    SumTwo(c.First(), c.Second(), NonFungibleOn(a));
  }

  lemma SceneIsDistinct(c: Scene)
    requires c.Valid()
    ensures ValidStock(c.Stock()) && DistinctOutpoints(c.Candidates())
  {
  }

  lemma SceneServes(c: Scene, req: AssetRequest)
    requires c.Valid() && (req == c.SendX() || req == c.SendY())
    ensures ValidRequest(req, c.Candidates(), c.Stock())
  {
    SceneIsConcrete(c, req.asset);
  }

  lemma {:induction false} DistinctWithin<T>(part: seq<T>, all: set<T>)
    requires Distinct(part) && forall x | x in part :: x in all
    ensures |part| <= |all|
  {
    if part != [] {
      var k := |part| - 1;
      DistinctWithin(part[..k], all - {part[k]});
    }
  }

  /** The only parts of two distinct outputs. */
  lemma PartsOfTwo<T>(part: seq<T>, x: T, y: T)
    requires x != y && multiset(part) <= multiset([x, y])
    ensures part == [] || part == [x] || part == [y] || part == [x, y] || part == [y, x]
  {
    assert Distinct([x, y]);
    DistinctPart(part, [x, y]);
    forall i | 0 <= i < |part|
      ensures part[i] == x || part[i] == y
    {
      assert part[i] in multiset(part);
    }
    DistinctWithin(part, {x, y});
    if |part| == 2 {
      assert part == [part[0], part[1]];
    } else if |part| == 1 {
      assert part == [part[0]];
    }
  }

  lemma MainKeys(c: Scene)
    requires c.Valid()
    ensures MainKey()(c.First()) == c.n && MainKey()(c.Second()) == c.s + c.m
  {
    SumNatTwo(Alone(c.asset, c.s), Alone(c.other, c.m), MainAmounts());
    SumNatOne(Alone(c.asset, c.n), MainAmounts());
  }

  lemma SumNatOne<T>(x: T, f: T -> nat)
    ensures SumNat([x], f) == f(x)
  {
    assert [x][..0] == [];
  }

  lemma SumNatTwo<T>(x: T, y: T, f: T -> nat)
    ensures SumNat([x, y], f) == f(x) + f(y)
  {
    SumNatOne(x, f);
    assert [x, y][..1] == [x];
  }

  lemma NotBothMissing(asset: AssetId, needed: AssignmentsCollection, u: LocalUnspent, v: LocalUnspent)
    requires !Missing(asset, needed, [u], v)
    ensures !EachMissing(asset, needed, [u, v])
  {
    assert [u, v][..1] == [u] && [u, v][1] == v;
  }

  lemma NotFirstMissing(asset: AssetId, needed: AssignmentsCollection, u: LocalUnspent, rest: seq<LocalUnspent>)
    requires !Missing(asset, needed, [], u)
    ensures !EachMissing(asset, needed, [u] + rest)
  {
    assert ([u] + rest)[..0] == [] && ([u] + rest)[0] == u;
  }

  lemma NotSorted(u: LocalUnspent, v: LocalUnspent, key: LocalUnspent -> nat)
    requires key(u) > key(v)
    ensures !SortedByKey([u, v], key)
  {
    assert [u, v][0] == u && [u, v][1] == v;
  }

  lemma XNotMissingAfterFirst(c: Scene)
    requires c.Valid()
    ensures !EachMissing(c.asset, Collection(c.n, false, 0), [c.First(), c.Second()])
  {
    HostedFirst(c, c.asset);
    SumOne(c.First(), FungibleOn(c.asset));
    SumOne(c.First(), InflationOn(c.asset));
    NotBothMissing(c.asset, Collection(c.n, false, 0), c.First(), c.Second());
  }

  lemma XAmounts(c: Scene)
    requires c.Valid()
    ensures Sum([c.First()], FungibleOn(c.asset)) == c.n && Sum([c.Second()], FungibleOn(c.asset)) == c.s
  {
    HostedFirst(c, c.asset);
    HostedSecond(c, c.asset);
    SumOne(c.First(), FungibleOn(c.asset));
    SumOne(c.Second(), FungibleOn(c.asset));
  }

  /** The first asset is served by the first output: it comes first, and it is enough. */
  lemma OnlyFirst(c: Scene, inputs: seq<LocalUnspent>)
    requires c.Valid() && inputs != [] && multiset(inputs) <= multiset(c.Candidates())
    requires EachMissing(c.asset, Collection(c.n, false, 0), inputs)
    requires c.n <= Sum(inputs, FungibleOn(c.asset)) && SortedByKey(inputs, MainKey())
    ensures inputs == [c.First()]
  {
    PartsOfTwo(inputs, c.First(), c.Second());
    XAmounts(c);
    XNotMissingAfterFirst(c);
    MainKeys(c);
    NotSorted(c.Second(), c.First(), MainKey());
  }

  lemma YNotMissing(c: Scene)
    requires c.Valid()
    ensures !EachMissing(c.other, Collection(c.m, false, 0), [c.First()])
    ensures !EachMissing(c.other, Collection(c.m, false, 0), [c.First(), c.Second()])
    ensures !EachMissing(c.other, Collection(c.m, false, 0), [c.Second(), c.First()])
  {
    HostedFirst(c, c.other);
    NotFirstMissing(c.other, Collection(c.m, false, 0), c.First(), []);
    NotFirstMissing(c.other, Collection(c.m, false, 0), c.First(), [c.Second()]);
    NotBothMissing(c.other, Collection(c.m, false, 0), c.Second(), c.First());
    assert [c.First()] + [] == [c.First()] && [c.First()] + [c.Second()] == [c.First(), c.Second()];
  }

  /** The other asset is served by the second output, the only one that has any. */
  lemma OnlySecond(c: Scene, inputs: seq<LocalUnspent>)
    requires c.Valid() && inputs != [] && multiset(inputs) <= multiset(c.Candidates())
    requires EachMissing(c.other, Collection(c.m, false, 0), inputs)
    ensures inputs == [c.Second()]
  {
    PartsOfTwo(inputs, c.First(), c.Second());
    YNotMissing(c);
  }

  lemma XCovered(c: Scene)
    requires c.Valid()
    ensures AvailableCovers(c.SendX(), c.Candidates(), c.Stock(), {})
  {
    var outs := OutpointsOf(c.Candidates());
    var p := Available(c.asset, outs, {});
    assert c.First() in c.Candidates() && c.Second() in c.Candidates();
    assert c.Stock()[..2] == [c.X(), c.Stray()];
    SumTwo(c.X(), c.Stray(), Gate(p, FungibleState()));
    SumNonNegative(c.Stock(), Gate(p, InflationState()));
  }

  lemma YCovered(c: Scene)
    requires c.Valid()
    ensures AvailableCovers(c.SendY(), c.Candidates(), c.Stock(), {})
  {
    var outs := OutpointsOf(c.Candidates());
    var p := Available(c.other, outs, {});
    assert c.First() in c.Candidates() && c.Second() in c.Candidates();
    assert c.Stock()[..2] == [c.X(), c.Stray()];
    SumTwo(c.X(), c.Stray(), Gate(p, FungibleState()));
    SumNonNegative(c.Stock(), Gate(p, InflationState()));
  }

  /** Prepare one of the two requests, nothing being rejected. */
  method PrepareFirstPass(req: AssetRequest, c: Scene) returns (p: PreparedAsset)
    requires c.Valid() && (req == c.SendX() || req == c.SendY())
    ensures Serves(p, req, c.Candidates(), c.Stock())
    ensures p.spend.inputs == if req == c.SendX() then [c.First()] else [c.Second()]
  {
    SceneIsDistinct(c);
    SceneServes(c, req);
    XCovered(c);
    YCovered(c);
    NothingRejected([req], c.Stock());
    assert NeededIs([req][0], [req][0].original, {}, c.Stock());
    var r := PrepareAsset(req, req.original, {}, c.Candidates(), c.Stock());
    p := r.value;
    TakenInOrder(req.original, c.Candidates(), p.spend.inputs);
    if req == c.SendX() {
      OnlyFirst(c, p.spend.inputs);
    } else {
      OnlySecond(c, p.spend.inputs);
    }
  }

  lemma Stranded(c: Scene, plans: seq<AssetPlan>)
    requires c.Valid() && |plans| == 2
    requires plans[0].asset == c.asset && plans[0].selected == {c.first}
    requires plans[1].asset == c.other && plans[1].selected == {c.second}
    ensures ValidPlans(plans, {c.first, c.second}) && !SelectedWhereHosted(plans, c.Stock(), {c.first, c.second})
    ensures Filter(c.Stock(), Moved(plans, {c.first, c.second})) == [c.X(), c.Y()]
  {
    var inputs := {c.first, c.second};
    assert plans[0] in plans && plans[1] in plans && c.Stray() in c.Stock();
    assert forall p | p in plans :: p == plans[0] || p == plans[1];
    assert Planned(plans, c.asset) && Planned(plans, c.other);
    assert IsSelected(plans, c.X()) && !IsSelected(plans, c.Stray()) && IsSelected(plans, c.Y());
    FilterThree(c.X(), c.Stray(), c.Y(), Moved(plans, inputs));
  }

  /**
   * Both assets sent in one batch, through selection and preparation: the second output is spent for the
   * other asset, and what it hosts of the first one is consumed by no transition.
   */
  method SharedInputLosesAsset(c: Scene) returns (ts: seq<Transition>, ghost inputs: set<Outpoint>)
    requires c.Valid()
    ensures inputs == {c.first, c.second} && forall t | t in ts :: Balanced(t)
    ensures multiset(Filter(c.Stock(), AtInputs(inputs))) == multiset(c.Stock())
    ensures multiset(Consumed(ts)) == multiset(c.Stock()) - multiset{c.Stray()}
  {
    var px := PrepareFirstPass(c.SendX(), c);
    var py := PrepareFirstPass(c.SendY(), c);
    var plans := [PlanOf(px, c.SendX(), Transfer, [Fungible(c.n)]),
                  PlanOf(py, c.SendY(), Transfer, [Fungible(c.m)])];
    inputs := {c.first, c.second};
    ScenePlans(c, px, py);
    ts := MoveScene(c, plans);
    AllOnInputs(c);
  }

  /** The transitions of the two plans. */
  method MoveScene(c: Scene, plans: seq<AssetPlan>) returns (ts: seq<Transition>)
    requires c.Valid() && |plans| == 2 && ValidBatch(plans, c.Stock(), {c.first, c.second})
    requires plans[0].asset == c.asset && plans[0].selected == {c.first}
    requires plans[1].asset == c.other && plans[1].selected == {c.second}
    ensures forall t | t in ts :: Balanced(t)
    ensures multiset(Consumed(ts)) == multiset(c.Stock()) - multiset{c.Stray()}
  {
    Stranded(c, plans);
    ts := BuildTransitions(plans, c.Stock(), {c.first, c.second});
    AllBalanced(ts, plans);
    WithoutStray(c);
  }

  lemma AllBalanced(ts: seq<Transition>, plans: seq<AssetPlan>)
    requires |plans| <= |ts| && AllExecute(ts[..|plans|], plans)
    requires forall i | |plans| <= i < |ts| :: Balanced(ts[i])
    ensures forall t | t in ts :: Balanced(t)
  {
    forall t | t in ts
      ensures Balanced(t)
    {
      var i :| 0 <= i < |ts| && ts[i] == t;
      if i < |plans| {
        assert ts[..|plans|][i] == t;
      }
    }
  }

  lemma AllOnInputs(c: Scene)
    requires c.Valid()
    ensures Filter(c.Stock(), AtInputs({c.first, c.second})) == c.Stock()
  {
    FilterThree(c.X(), c.Stray(), c.Y(), AtInputs({c.first, c.second}));
  }

  lemma WithoutStray(c: Scene)
    ensures multiset(c.Stock()) - multiset{c.Stray()} == multiset([c.X(), c.Y()])
  {
  }

  lemma ScenePlan(p: PreparedAsset, req: AssetRequest, n: nat, u: LocalUnspent, unspents: seq<LocalUnspent>,
                  stock: seq<Holding>)
    requires req.original == Collection(n, false, 0) && p.spend.inputs == [u] && Serves(p, req, unspents, stock)
    ensures var plan := PlanOf(p, req, Transfer, [Fungible(n)]);
      plan.selected == {u.outpoint} && Funded(plan, stock) && NeedFollows(plan)
  {
    PreparedIsFunded(p, req, Transfer, [Fungible(n)], unspents, stock);
    OneRecipient(n);
  }

  lemma TwoPlans(p: AssetPlan, q: AssetPlan, stock: seq<Holding>, prevOutputs: set<Outpoint>)
    requires p.asset != q.asset && p.selected <= prevOutputs && q.selected <= prevOutputs
    requires Funded(p, stock) && NeedFollows(p) && Funded(q, stock) && NeedFollows(q)
    ensures ValidBatch([p, q], stock, prevOutputs)
  {
  }

  lemma ScenePlans(c: Scene, px: PreparedAsset, py: PreparedAsset)
    requires c.Valid() && px.spend.inputs == [c.First()] && py.spend.inputs == [c.Second()]
    requires Serves(px, c.SendX(), c.Candidates(), c.Stock()) && Serves(py, c.SendY(), c.Candidates(), c.Stock())
    ensures var plans := [PlanOf(px, c.SendX(), Transfer, [Fungible(c.n)]),
                          PlanOf(py, c.SendY(), Transfer, [Fungible(c.m)])];
      && plans[0].selected == {c.first} && plans[1].selected == {c.second}
      && ValidBatch(plans, c.Stock(), {c.first, c.second})
  {
    ScenePlan(px, c.SendX(), c.n, c.First(), c.Candidates(), c.Stock());
    ScenePlan(py, c.SendY(), c.m, c.Second(), c.Candidates(), c.Stock());
    TwoPlans(PlanOf(px, c.SendX(), Transfer, [Fungible(c.n)]), PlanOf(py, c.SendY(), Transfer, [Fungible(c.m)]),
             c.Stock(), {c.first, c.second});
  }

  lemma OneRecipient(n: nat)
    ensures Sum([Fungible(n)], FungibleAsked()) == n
    ensures Sum([Fungible(n)], InflationAsked()) == 0 && Sum([Fungible(n)], NonFungibleAsked()) == 0
  {
    SumOne(Fungible(n), FungibleAsked());
    SumOne(Fungible(n), InflationAsked());
    SumOne(Fungible(n), NonFungibleAsked());
  }
}
