/** Preparation of a send: selection, choice of opouts and the retry after a rejection. */
module SendLoop {

  import opened Common
  import opened Assignments
  import opened RejectSearch
  import opened Selection
  import opened ChangeSeal
  import Funding

  // ---------------------------------------------------------------- the RGB stock

  /** One opout of one contract, allocated on one outpoint. */
  datatype Holding = Holding(asset: AssetId, outpoint: Outpoint, opout: Opout, state: AllocatedState)

  /** An opout identifies its operation, so no two holdings share one. */
  ghost predicate ValidStock(stock: seq<Holding>)
  {
    forall i, j | 0 <= i < j < |stock| :: stock[i].opout != stock[j].opout
  }

  function HeldIn(asset: AssetId, outs: set<Outpoint>): Holding -> bool
  {
    (h: Holding) => h.asset == asset && h.outpoint in outs
  }

  /** The contract's opouts on the given outpoints. */
  function AssignmentsFor(stock: seq<Holding>, asset: AssetId, outs: set<Outpoint>): seq<Holding>
  {
    Filter(stock, HeldIn(asset, outs))
  }

  function FungibleState(): Holding -> int
  {
    (h: Holding) => if h.state.Amount? && h.opout.ty.OsAsset? then h.state.amount else 0
  }

  function InflationState(): Holding -> int
  {
    (h: Holding) => if h.state.Amount? && h.opout.ty.OsInflation? then h.state.amount else 0
  }

  function StateKey(): Holding -> nat
  {
    (h: Holding) => if h.state.Amount? then h.state.amount else 0
  }

  function OutpointsOf(us: seq<LocalUnspent>): set<Outpoint>
  {
    set u | u in us :: u.outpoint
  }

  function OpoutsOf(hs: seq<Holding>): set<Opout>
  {
    set h | h in hs :: h.opout
  }

  function DataState(): Holding -> int
  {
    (h: Holding) => if h.state.Data? then 1 else 0
  }

  ghost predicate SomeData(hs: seq<Holding>)
  {
    Sum(hs, DataState()) > 0
  }

  /** The database and the stock agree on what each UTXO hosts. */
  ghost predicate Agrees(asset: AssetId, u: LocalUnspent, stock: seq<Holding>)
  {
    var here := AssignmentsFor(stock, asset, {u.outpoint});
    && FungibleOn(asset)(u) == Sum(here, FungibleState())
    && InflationOn(asset)(u) == Sum(here, InflationState())
    && NonFungibleOn(asset)(u) == Sum(here, DataState())
  }

  /** Agreement on one amount carries over from single UTXOs to sets of them. */
  lemma {:induction false} SelectedAmount(asset: AssetId, us: seq<LocalUnspent>, stock: seq<Holding>,
                                          on: LocalUnspent -> int, f: Holding -> int)
    requires DistinctOutpoints(us)
    requires forall u | u in us :: on(u) == Sum(AssignmentsFor(stock, asset, {u.outpoint}), f)
    ensures Sum(us, on) == Sum(AssignmentsFor(stock, asset, OutpointsOf(us)), f)
  {
    if us == [] {
      NoneHeld(asset, stock);
    } else {
      var n := |us| - 1;
      var u := us[n];
      SelectedAmount(asset, us[..n], stock, on, f);
      assert us == us[..n] + [u];
      assert OutpointsOf(us) == OutpointsOf(us[..n]) + {u.outpoint};
      assert u.outpoint !in OutpointsOf(us[..n]);
      OneMoreOutpoint(asset, stock, OutpointsOf(us[..n]), u.outpoint, f);
    }
  }

  lemma SelectedHoldings(asset: AssetId, us: seq<LocalUnspent>, stock: seq<Holding>)
    requires DistinctOutpoints(us)
    requires forall u | u in us :: Agrees(asset, u, stock)
    ensures Sum(us, FungibleOn(asset)) == Sum(AssignmentsFor(stock, asset, OutpointsOf(us)), FungibleState())
    ensures Sum(us, InflationOn(asset)) == Sum(AssignmentsFor(stock, asset, OutpointsOf(us)), InflationState())
    ensures Sum(us, NonFungibleOn(asset)) == Sum(AssignmentsFor(stock, asset, OutpointsOf(us)), DataState())
  {
    SelectedAmount(asset, us, stock, FungibleOn(asset), FungibleState());
    SelectedAmount(asset, us, stock, InflationOn(asset), InflationState());
    SelectedAmount(asset, us, stock, NonFungibleOn(asset), DataState());
  }

  lemma NoneHeld(asset: AssetId, stock: seq<Holding>)
    ensures AssignmentsFor(stock, asset, OutpointsOf([])) == []
  {
    if AssignmentsFor(stock, asset, {}) != [] {
      FilterMember(stock, HeldIn(asset, {}), AssignmentsFor(stock, asset, {})[0]);
    }
    assert OutpointsOf([]) == {};
  }

  lemma OneMoreOutpoint(asset: AssetId, stock: seq<Holding>, outs: set<Outpoint>, o: Outpoint, f: Holding -> int)
    requires o !in outs
    ensures Sum(AssignmentsFor(stock, asset, outs + {o}), f)
         == Sum(AssignmentsFor(stock, asset, outs), f) + Sum(AssignmentsFor(stock, asset, {o}), f)
  {
    SumGate(stock, HeldIn(asset, outs + {o}), f);
    SumGate(stock, HeldIn(asset, outs), f);
    SumGate(stock, HeldIn(asset, {o}), f);
    SumAdditive(stock, Gate(HeldIn(asset, outs), f), Gate(HeldIn(asset, {o}), f), Gate(HeldIn(asset, outs + {o}), f));
  }

  // ---------------------------------------------------------------- choice of opouts

  function Unrejected(rejected: set<Opout>): Holding -> bool
  {
    (h: Holding) => h.opout !in rejected
  }

  datatype Allocation = Allocation(inputs: seq<Holding>, extra: seq<Holding>, added: AssignmentsCollection)

  /** added is what the chosen inputs carry. */
  ghost predicate AddsUp(a: Allocation)
  {
    && a.added.fungible == Sum(a.inputs, FungibleState())
    && a.added.inflation == Sum(a.inputs, InflationState())
    && (a.added.nonFungible <==> SomeData(a.inputs))
  }

  /** Every unrejected opout seen was taken, unless enough of its kind had been. */
  ghost predicate Greedy(a: Allocation, needed: AssignmentsCollection, rejected: set<Opout>, seen: seq<Holding>)
  {
    && (needed.fungible <= a.added.fungible
        || a.added.fungible == Sum(seen, Gate(Unrejected(rejected), FungibleState())))
    && (needed.inflation <= a.added.inflation
        || a.added.inflation == Sum(seen, Gate(Unrejected(rejected), InflationState())))
    && (needed.nonFungible && Sum(seen, Gate(Unrejected(rejected), DataState())) > 0 ==> a.added.nonFungible)
    && (a.added.nonFungible ==> needed.nonFungible)
  }

  /** The opouts seen split into inputs and extras, and no input is rejected. */
  ghost predicate Splits(a: Allocation, rejected: set<Opout>, seen: seq<Holding>)
  {
    && multiset(a.inputs) + multiset(a.extra) == multiset(seen)
    && forall h | h in a.inputs :: h.opout !in rejected
  }

  /** State of the choice after the opouts seen. */
  ghost predicate Allocating(a: Allocation, needed: AssignmentsCollection, rejected: set<Opout>, seen: seq<Holding>)
  {
    AddsUp(a) && Splits(a, rejected, seen) && Greedy(a, needed, rejected, seen)
  }

  lemma LeaveStep(a: Allocation, needed: AssignmentsCollection, rejected: set<Opout>, seen: seq<Holding>, h: Holding)
    requires Allocating(a, needed, rejected, seen)
    requires h.opout in rejected || !a.added.OpoutContributes(h.opout, h.state, needed)
    ensures Allocating(a.(extra := a.extra + [h]), needed, rejected, seen + [h])
  {
    SumAppend(seen, h, Gate(Unrejected(rejected), FungibleState()));
    SumAppend(seen, h, Gate(Unrejected(rejected), InflationState()));
    SumAppend(seen, h, Gate(Unrejected(rejected), DataState()));
  }

  /** The opout goes to the inputs. */
  function Taken(a: Allocation, h: Holding): Allocation
  {
    Allocation(a.inputs + [h], a.extra, a.added.AddOpoutState(h.opout, h.state))
  }

  lemma TakeAddsUp(a: Allocation, h: Holding)
    requires AddsUp(a)
    ensures AddsUp(Taken(a, h))
  {
    SumAppend(a.inputs, h, FungibleState());
    SumAppend(a.inputs, h, InflationState());
    SumAppend(a.inputs, h, DataState());
    SumNonNegative(a.inputs, DataState());
  }

  lemma TakeSplits(a: Allocation, rejected: set<Opout>, seen: seq<Holding>, h: Holding)
    requires Splits(a, rejected, seen) && h.opout !in rejected
    ensures Splits(Taken(a, h), rejected, seen + [h])
  {
  }

  /** An amount of one kind after one more opout: it contributed, so not enough had been taken before. */
  lemma TakeAmount(needed: nat, added: nat, seen: seq<Holding>, rejected: set<Opout>, h: Holding, f: Holding -> int)
    requires needed <= added || added == Sum(seen, Gate(Unrejected(rejected), f))
    requires h.opout !in rejected && f(h) >= 0
    ensures needed <= added + f(h) || added + f(h) == Sum(seen + [h], Gate(Unrejected(rejected), f))
  {
    SumAppend(seen, h, Gate(Unrejected(rejected), f));
  }

  lemma TakeKeepsData(a: Allocation, needed: AssignmentsCollection, rejected: set<Opout>, seen: seq<Holding>,
                      h: Holding)
    requires needed.nonFungible && Sum(seen, Gate(Unrejected(rejected), DataState())) > 0 ==> a.added.nonFungible
    requires h.opout !in rejected && a.added.OpoutContributes(h.opout, h.state, needed)
    ensures needed.nonFungible && Sum(seen + [h], Gate(Unrejected(rejected), DataState())) > 0 ==>
      Taken(a, h).added.nonFungible
  {
    SumAppend(seen, h, Gate(Unrejected(rejected), DataState()));
  }

  lemma TakeGreedy(a: Allocation, needed: AssignmentsCollection, rejected: set<Opout>, seen: seq<Holding>, h: Holding)
    requires Greedy(a, needed, rejected, seen)
    requires h.opout !in rejected && a.added.OpoutContributes(h.opout, h.state, needed)
    ensures Greedy(Taken(a, h), needed, rejected, seen + [h])
  {
    TakeAmount(needed.fungible, a.added.fungible, seen, rejected, h, FungibleState());
    TakeAmount(needed.inflation, a.added.inflation, seen, rejected, h, InflationState());
    TakeKeepsData(a, needed, rejected, seen, h);
  }

  lemma TakeOpoutStep(a: Allocation, needed: AssignmentsCollection, rejected: set<Opout>, seen: seq<Holding>, h: Holding)
    requires Allocating(a, needed, rejected, seen)
    requires h.opout !in rejected && a.added.OpoutContributes(h.opout, h.state, needed)
    ensures Allocating(Taken(a, h), needed, rejected, seen + [h])
  {
    TakeAddsUp(a, h);
    TakeSplits(a, rejected, seen, h);
    TakeGreedy(a, needed, rejected, seen, h);
  }

  /** Where one opout goes: to the inputs if it is unrejected and still contributes. */
  function Place(a: Allocation, needed: AssignmentsCollection, rejected: set<Opout>, h: Holding): Allocation
  {
    if h.opout in rejected || !a.added.OpoutContributes(h.opout, h.state, needed)
    then a.(extra := a.extra + [h])
    else Taken(a, h)
  }

  function PlaceAll(holdings: seq<Holding>, needed: AssignmentsCollection, rejected: set<Opout>): Allocation
  {
    if holdings == [] then Allocation([], [], NOTHING)
    else Place(PlaceAll(holdings[..|holdings| - 1], needed, rejected), needed, rejected, holdings[|holdings| - 1])
  }

  lemma {:induction false} PlacedCorrectly(holdings: seq<Holding>, needed: AssignmentsCollection, rejected: set<Opout>)
    ensures Allocating(PlaceAll(holdings, needed, rejected), needed, rejected, holdings)
  {
    if holdings != [] {
      var n := |holdings| - 1;
      var a, h := PlaceAll(holdings[..n], needed, rejected), holdings[n];
      PlacedCorrectly(holdings[..n], needed, rejected);
      assert holdings == holdings[..n] + [h];
      if h.opout in rejected || !a.added.OpoutContributes(h.opout, h.state, needed) {
        LeaveStep(a, needed, rejected, holdings[..n], h);
      } else {
        TakeOpoutStep(a, needed, rejected, holdings[..n], h);
      }
    }
  }

  /** Every input carries something that the inputs before it do not carry enough of. */
  ghost predicate EachContributes(inputs: seq<Holding>, needed: AssignmentsCollection)
  {
    forall i | 0 <= i < |inputs| :: Contributes(inputs[..i], inputs[i], needed)
  }

  ghost predicate Contributes(before: seq<Holding>, h: Holding, needed: AssignmentsCollection)
  {
    && (h.state.Amount? && h.opout.ty.OsAsset? ==> Sum(before, FungibleState()) < needed.fungible)
    && (h.state.Amount? && h.opout.ty.OsInflation? ==> Sum(before, InflationState()) < needed.inflation)
    && (h.state.Data? ==> needed.nonFungible && !SomeData(before))
  }

  /** Of two opouts of one kind of amount, the first holds no more than the second. */
  predicate NoLarger(x: Holding, y: Holding)
  {
    x.state.Amount? && y.state.Amount? && x.opout.ty == y.opout.ty ==> x.state.amount <= y.state.amount
  }

  /** No unrejected opout that is left is smaller than one that is taken, and the inputs are in ascending order. */
  ghost predicate SmallestFirst(inputs: seq<Holding>, extra: seq<Holding>, rejected: set<Opout>)
  {
    && (forall i, j | 0 <= i < j < |inputs| :: NoLarger(inputs[i], inputs[j]))
    && (forall x, y | x in inputs && y in extra && y.opout !in rejected :: NoLarger(x, y))
  }

  /** What is left unrejected would not have helped. */
  ghost predicate LeftIsNoHelp(a: Allocation, needed: AssignmentsCollection, rejected: set<Opout>)
  {
    forall h | h in a.extra && h.opout !in rejected :: !a.added.OpoutContributes(h.opout, h.state, needed)
  }

  lemma OneMoreContributes(a: Allocation, needed: AssignmentsCollection, h: Holding)
    requires AddsUp(a) && EachContributes(a.inputs, needed)
    requires a.added.OpoutContributes(h.opout, h.state, needed)
    ensures EachContributes(Taken(a, h).inputs, needed)
  {
    var inputs := a.inputs + [h];
    forall i | 0 <= i < |inputs|
      ensures Contributes(inputs[..i], inputs[i], needed)
    {
      assert inputs[..i] == a.inputs[..i];
      if i == |a.inputs| {
        assert inputs[..i] == a.inputs;
      }
    }
  }

  lemma OneMoreInOrder(a: Allocation, needed: AssignmentsCollection, rejected: set<Opout>, h: Holding)
    requires SmallestFirst(a.inputs, a.extra, rejected) && LeftIsNoHelp(a, needed, rejected)
    requires a.added.OpoutContributes(h.opout, h.state, needed)
    requires forall x | x in a.inputs :: NoLarger(x, h)
    ensures SmallestFirst(Taken(a, h).inputs, a.extra, rejected) && LeftIsNoHelp(Taken(a, h), needed, rejected)
  {
    forall x, y | x in a.inputs + [h] && y in a.extra && y.opout !in rejected
      ensures NoLarger(x, y)
    {
      assert !a.added.OpoutContributes(y.opout, y.state, needed);
    }
  }

  /** Of opouts in ascending order every one that is taken helped, and the smallest ones are taken. */
  lemma {:induction false} PlacedInOrder(holdings: seq<Holding>, needed: AssignmentsCollection, rejected: set<Opout>)
    requires forall i, j | 0 <= i < j < |holdings| :: NoLarger(holdings[i], holdings[j])
    ensures var a := PlaceAll(holdings, needed, rejected);
      EachContributes(a.inputs, needed) && SmallestFirst(a.inputs, a.extra, rejected) && LeftIsNoHelp(a, needed, rejected)
  {
    if holdings != [] {
      var n := |holdings| - 1;
      var a, h := PlaceAll(holdings[..n], needed, rejected), holdings[n];
      PlacedInOrder(holdings[..n], needed, rejected);
      PlacedCorrectly(holdings[..n], needed, rejected);
      InputsSeen(a, rejected, holdings[..n]);
      if h.opout !in rejected && a.added.OpoutContributes(h.opout, h.state, needed) {
        OneMoreContributes(a, needed, h);
        OneMoreInOrder(a, needed, rejected, h);
      }
    }
  }

  lemma InputsSeen(a: Allocation, rejected: set<Opout>, seen: seq<Holding>)
    requires Splits(a, rejected, seen)
    ensures forall x | x in a.inputs :: x in seen
  {
    forall x | x in a.inputs
      ensures x in seen
    {
      assert x in multiset(a.inputs) + multiset(a.extra);
    }
  }

  /** Smallest states first, take unrejected opouts while they contribute; the rest is extra. */
  method AllocateInputs(holdings: seq<Holding>, rejected: set<Opout>, needed: AssignmentsCollection)
    returns (a: Allocation)
    ensures a == PlaceAll(SortByKey(holdings, StateKey()), needed, rejected)
    ensures Allocating(a, needed, rejected, holdings)
    ensures EachContributes(a.inputs, needed) && SmallestFirst(a.inputs, a.extra, rejected)
  {
    var sorted := SortByKey(holdings, StateKey());
    a := Allocation([], [], NOTHING);
    for i := 0 to |sorted|
      invariant a == PlaceAll(sorted[..i], needed, rejected)
    {
      assert sorted[..i + 1][..i] == sorted[..i];
      a := Place(a, needed, rejected, sorted[i]);
    }
    assert sorted[..|sorted|] == sorted;
    AllocatingUnordered(a, needed, rejected, sorted, holdings);
  }

  lemma AllocatingUnordered(a: Allocation, needed: AssignmentsCollection, rejected: set<Opout>,
                            sorted: seq<Holding>, holdings: seq<Holding>)
    requires sorted == SortByKey(holdings, StateKey()) && a == PlaceAll(sorted, needed, rejected)
    ensures Allocating(a, needed, rejected, holdings)
    ensures EachContributes(a.inputs, needed) && SmallestFirst(a.inputs, a.extra, rejected)
  {
    PlacedCorrectly(sorted, needed, rejected);
    SortByKeyCorrect(holdings, StateKey());
    AscendingAmounts(sorted);
    PlacedInOrder(sorted, needed, rejected);
    SumPermutation(sorted, holdings, Gate(Unrejected(rejected), FungibleState()));
    SumPermutation(sorted, holdings, Gate(Unrejected(rejected), InflationState()));
    SumPermutation(sorted, holdings, Gate(Unrejected(rejected), DataState()));
  }

  lemma AscendingAmounts(holdings: seq<Holding>)
    requires SortedByKey(holdings, StateKey())
    ensures forall i, j | 0 <= i < j < |holdings| :: NoLarger(holdings[i], holdings[j])
  {
    forall i, j | 0 <= i < j < |holdings|
      ensures NoLarger(holdings[i], holdings[j])
    {
      assert StateKey()(holdings[i]) <= StateKey()(holdings[j]);
    }
  }

  // ---------------------------------------------------------------- requests and their needs

  datatype AssetRequest = AssetRequest(asset: AssetId, original: AssignmentsCollection, hasRejectList: bool)

  function RejectedOf(asset: AssetId, rejected: set<Opout>): Holding -> bool
  {
    (h: Holding) => h.asset == asset && h.opout in rejected
  }

  /** The inflated target: the original one plus the asset's rejected amounts. */
  ghost predicate NeededIs(req: AssetRequest, needed: AssignmentsCollection, rejected: set<Opout>, stock: seq<Holding>)
  {
    && needed.fungible == req.original.fungible + Sum(stock, Gate(RejectedOf(req.asset, rejected), FungibleState()))
    && needed.inflation == req.original.inflation + Sum(stock, Gate(RejectedOf(req.asset, rejected), InflationState()))
    && needed.nonFungible == req.original.nonFungible
  }

  /** What the environment of a send must look like. */
  ghost predicate ValidSend(requests: seq<AssetRequest>, unspents: seq<LocalUnspent>, stock: seq<Holding>)
  {
    && ValidStock(stock)
    && DistinctOutpoints(unspents)
    && (forall i, j | 0 <= i < j < |requests| :: requests[i].asset != requests[j].asset)
    && (forall r | r in requests :: ValidRequest(r, unspents, stock))
  }

  ghost predicate ValidRequest(r: AssetRequest, unspents: seq<LocalUnspent>, stock: seq<Holding>)
  {
    && Concrete(r.asset, unspents)
    && KindsMatch(r.asset, r.original, unspents)
    && (forall u | u in unspents :: Agrees(r.asset, u, stock))
    // only inflatable fungible assets can have a reject list
    && (r.hasRejectList ==>
          !r.original.nonFungible && (forall h | h in stock && h.asset == r.asset :: h.state.Amount?))
  }

  /** Rejected opouts belong to requested assets with a reject list and sit on candidate UTXOs. */
  ghost predicate RejectedFrom(rejected: set<Opout>, requests: seq<AssetRequest>, unspents: seq<LocalUnspent>,
                               stock: seq<Holding>)
  {
    && rejected <= OpoutsOf(stock)
    && forall h | h in stock && h.opout in rejected ::
         h.outpoint in OutpointsOf(unspents)
         && exists r :: r in requests && r.asset == h.asset && r.hasRejectList
  }

  datatype PreparedAsset = PreparedAsset(
    spend: AssetSpend, inputs: seq<Holding>, extra: seq<Holding>, change: AssignmentsCollection)

  /** A prepared asset: its UTXOs' opouts are split, and its inputs are the request plus the change. */
  ghost predicate Serves(p: PreparedAsset, req: AssetRequest, unspents: seq<LocalUnspent>, stock: seq<Holding>)
  {
    && multiset(p.spend.inputs) <= multiset(unspents)
    && multiset(p.inputs) + multiset(p.extra)
         == multiset(AssignmentsFor(stock, req.asset, OutpointsOf(p.spend.inputs)))
    && Sum(p.inputs, FungibleState()) == req.original.fungible + p.change.fungible
    && Sum(p.inputs, InflationState()) == req.original.inflation + p.change.inflation
    && (SomeData(p.inputs) <==> req.original.nonFungible) && !p.change.nonFungible
  }

  /** Opouts on candidate UTXOs that are not rejected. */
  function Available(asset: AssetId, outs: set<Outpoint>, rejected: set<Opout>): Holding -> bool
  {
    (h: Holding) => h.asset == asset && h.outpoint in outs && h.opout !in rejected
  }

  /** Without the rejected opouts, the candidates still hold what was asked for. */
  ghost predicate AvailableCovers(req: AssetRequest, unspents: seq<LocalUnspent>, stock: seq<Holding>, rejected: set<Opout>)
  {
    var p := Available(req.asset, OutpointsOf(unspents), rejected);
    && req.original.fungible <= Sum(stock, Gate(p, FungibleState()))
    && req.original.inflation <= Sum(stock, Gate(p, InflationState()))
    && (req.original.nonFungible ==> SomeNonFungible(req.asset, unspents))
  }

  lemma SelectionIsDistinct(inputs: seq<LocalUnspent>, unspents: seq<LocalUnspent>)
    requires DistinctOutpoints(unspents) && multiset(inputs) <= multiset(unspents)
    ensures DistinctOutpoints(inputs)
    ensures forall u | u in inputs :: u in unspents
    ensures OutpointsOf(inputs) <= OutpointsOf(unspents)
  {
    assert Distinct(unspents);
    DistinctPart(inputs, unspents);
    forall i, j | 0 <= i < j < |inputs|
      ensures inputs[i].outpoint != inputs[j].outpoint
    {
      assert inputs[i] in unspents && inputs[j] in unspents;
      var a :| 0 <= a < |unspents| && unspents[a] == inputs[i];
      var b :| 0 <= b < |unspents| && unspents[b] == inputs[j];
    }
  }

  /** Selected amounts minus all rejected ones still cover the original request: change cannot underflow. */
  lemma UnrejectedCovers(held: seq<Holding>, asset: AssetId, outs: set<Outpoint>, stock: seq<Holding>,
                         rejected: set<Opout>, f: Holding -> int, original: nat)
    requires held == AssignmentsFor(stock, asset, outs)
    requires forall h: Holding :: f(h) >= 0
    requires Sum(held, f) >= original + Sum(stock, Gate(RejectedOf(asset, rejected), f))
    ensures Sum(held, Gate(Unrejected(rejected), f)) >= original
  {
    SumGate(stock, HeldIn(asset, outs), f);
    SumGate(stock, HeldIn(asset, outs), Gate(Unrejected(rejected), f));
    var kept := Gate(HeldIn(asset, outs), Gate(Unrejected(rejected), f));
    var both := (h: Holding) => kept(h) + Gate(RejectedOf(asset, rejected), f)(h);
    SumAdditive(stock, kept, Gate(RejectedOf(asset, rejected), f), both);
    SumMonotone(stock, Gate(HeldIn(asset, outs), f), both);
  }

  /** All that candidates host of an asset is either available or rejected. */
  lemma HeldSplits(asset: AssetId, outs: set<Outpoint>, stock: seq<Holding>, rejected: set<Opout>, f: Holding -> int)
    requires forall h | h in stock && h.asset == asset && h.opout in rejected :: h.outpoint in outs
    ensures Sum(AssignmentsFor(stock, asset, outs), f)
         == Sum(stock, Gate(Available(asset, outs, rejected), f)) + Sum(stock, Gate(RejectedOf(asset, rejected), f))
  {
    SumGate(stock, HeldIn(asset, outs), f);
    SumAdditive(stock, Gate(Available(asset, outs, rejected), f), Gate(RejectedOf(asset, rejected), f),
                Gate(HeldIn(asset, outs), f));
  }

  /** The asset's rejected opouts are on candidate UTXOs, and only an asset with a reject list has any. */
  ghost predicate OwnRejections(req: AssetRequest, rejected: set<Opout>, unspents: seq<LocalUnspent>, stock: seq<Holding>)
  {
    forall h | h in stock && h.asset == req.asset && h.opout in rejected ::
      h.outpoint in OutpointsOf(unspents) && req.hasRejectList
  }

  lemma CoveredIsSelectable(req: AssetRequest, needed: AssignmentsCollection, rejected: set<Opout>,
                            unspents: seq<LocalUnspent>, stock: seq<Holding>)
    requires DistinctOutpoints(unspents) && ValidRequest(req, unspents, stock)
    requires NeededIs(req, needed, rejected, stock) && OwnRejections(req, rejected, unspents, stock)
    requires AvailableCovers(req, unspents, stock, rejected)
    ensures Suffices(req.asset, needed, unspents)
  {
    var outs := OutpointsOf(unspents);
    SelectedHoldings(req.asset, unspents, stock);
    HeldSplits(req.asset, outs, stock, rejected, FungibleState());
    HeldSplits(req.asset, outs, stock, rejected, InflationState());
  }

  /** What is chosen covers the original request, whatever has been rejected so far. */
  lemma AllocationCovers(req: AssetRequest, needed: AssignmentsCollection, rejected: set<Opout>,
                         unspents: seq<LocalUnspent>, stock: seq<Holding>, spend: AssetSpend, a: Allocation)
    requires DistinctOutpoints(unspents) && ValidRequest(req, unspents, stock)
    requires NeededIs(req, needed, rejected, stock) && OwnRejections(req, rejected, unspents, stock)
    requires multiset(spend.inputs) <= multiset(unspents)
    requires IsTotal(req.asset, spend.inputs, spend.collected) && spend.collected.Enough(needed)
    requires Allocating(a, needed, rejected, AssignmentsFor(stock, req.asset, OutpointsOf(spend.inputs)))
    ensures a.added.Covers(req.original)
    ensures a.added.nonFungible == req.original.nonFungible
  {
    var outs := OutpointsOf(spend.inputs);
    var held := AssignmentsFor(stock, req.asset, outs);
    SelectionIsDistinct(spend.inputs, unspents);
    SelectedHoldings(req.asset, spend.inputs, stock);
    UnrejectedCovers(held, req.asset, outs, stock, rejected, FungibleState(), req.original.fungible);
    UnrejectedCovers(held, req.asset, outs, stock, rejected, InflationState(), req.original.inflation);
    SumNonNegative(stock, Gate(RejectedOf(req.asset, rejected), FungibleState()));
    SumNonNegative(stock, Gate(RejectedOf(req.asset, rejected), InflationState()));
    if req.original.nonFungible {
      forall h | h in held
        ensures h.opout !in rejected
      {
        FilterMember(stock, HeldIn(req.asset, outs), h);
      }
      SumAgree(held, DataState(), Gate(Unrejected(rejected), DataState()));
    }
  }

  /** One asset of one pass: select UTXOs for the inflated target, then choose among their opouts. */
  method PrepareAsset(req: AssetRequest, needed: AssignmentsCollection, rejected: set<Opout>,
                      unspents: seq<LocalUnspent>, stock: seq<Holding>)
    returns (r: Result<PreparedAsset, AssignmentsCollection>)
    requires DistinctOutpoints(unspents) && ValidRequest(req, unspents, stock)
    requires NeededIs(req, needed, rejected, stock) && OwnRejections(req, rejected, unspents, stock)
    ensures r.Success? ==>
      && Serves(r.value, req, unspents, stock)
      && Selects(req.asset, needed, unspents, r.value.spend)
      && (forall h | h in r.value.inputs :: h.opout !in rejected)
      && EachContributes(r.value.inputs, needed) && SmallestFirst(r.value.inputs, r.value.extra, rejected)
    ensures r.Failure? ==> !AvailableCovers(req, unspents, stock, rejected)
  {
    var selected := SelectRgbInputs(req.asset, needed, unspents);
    if selected.Failure? {
      if AvailableCovers(req, unspents, stock, rejected) {
        CoveredIsSelectable(req, needed, rejected, unspents, stock);
      }
      return Failure(selected.error);
    }
    var spend := selected.value;
    var a := AllocateInputs(AssignmentsFor(stock, req.asset, OutpointsOf(spend.inputs)), rejected, needed);
    AllocationCovers(req, needed, rejected, unspents, stock, spend, a);
    return Success(PreparedAsset(spend, a.inputs, a.extra, a.added.Change(req.original)));
  }

  // ---------------------------------------------------------------- inflating the target

  lemma OneMoreRejected(asset: AssetId, rejected: set<Opout>, stock: seq<Holding>, k: nat, f: Holding -> int)
    requires ValidStock(stock) && k < |stock| && stock[k].asset == asset && stock[k].opout !in rejected
    ensures Sum(stock, Gate(RejectedOf(asset, rejected + {stock[k].opout}), f))
         == Sum(stock, Gate(RejectedOf(asset, rejected), f)) + f(stock[k])
  {
    SumDifferAt(stock, Gate(RejectedOf(asset, rejected), f),
                Gate(RejectedOf(asset, rejected + {stock[k].opout}), f), k);
  }

  /** Add the states of the newly rejected opouts to what the asset needs. */
  method InflateNeeded(req: AssetRequest, needed: AssignmentsCollection, rejected: set<Opout>,
                       inputs: seq<Holding>, toReject: set<Opout>, stock: seq<Holding>)
    returns (r: AssignmentsCollection)
    requires ValidStock(stock) && NeededIs(req, needed, rejected, stock)
    requires forall h | h in inputs :: h in stock && h.asset == req.asset && h.opout !in rejected && h.state.Amount?
    requires toReject <= OpoutsOf(inputs)
    ensures NeededIs(req, r, rejected + toReject, stock)
  {
    r := needed;
    var todo := toReject;
    ghost var done := rejected;
    while todo != {}
      invariant todo <= toReject
      invariant done == rejected + (toReject - todo)
      invariant NeededIs(req, r, done, stock)
      decreases todo
    {
      var o :| o in todo;
      var h :| h in inputs && h.opout == o;
      NeededAfterOne(req, r, done, h, stock);
      r := r.AddOpoutState(o, h.state);
      todo := todo - {o};
      done := done + {o};
      assert done == rejected + (toReject - todo);
    }
    assert done == rejected + toReject;
  }

  lemma NeededAfterOne(req: AssetRequest, needed: AssignmentsCollection, rejected: set<Opout>, h: Holding,
                       stock: seq<Holding>)
    requires ValidStock(stock) && NeededIs(req, needed, rejected, stock)
    requires h in stock && h.asset == req.asset && h.opout !in rejected && h.state.Amount?
    ensures NeededIs(req, needed.AddOpoutState(h.opout, h.state), rejected + {h.opout}, stock)
  {
    var k :| 0 <= k < |stock| && stock[k] == h;
    OneMoreRejected(req.asset, rejected, stock, k, FungibleState());
    OneMoreRejected(req.asset, rejected, stock, k, InflationState());
  }

  /** Rejections of one asset leave the targets of the others alone. */
  lemma OthersUnaffected(req: AssetRequest, needed: AssignmentsCollection, rejected: set<Opout>,
                         toReject: set<Opout>, other: AssetId, stock: seq<Holding>)
    requires NeededIs(req, needed, rejected, stock) && req.asset != other
    requires forall h | h in stock && h.opout in toReject :: h.asset == other
    ensures NeededIs(req, needed, rejected + toReject, stock)
  {
    SumAgree(stock, Gate(RejectedOf(req.asset, rejected), FungibleState()),
             Gate(RejectedOf(req.asset, rejected + toReject), FungibleState()));
    SumAgree(stock, Gate(RejectedOf(req.asset, rejected), InflationState()),
             Gate(RejectedOf(req.asset, rejected + toReject), InflationState()));
  }

  // ---------------------------------------------------------------- the retry loop

  /**
   * History and reject list of each asset as seen on each pass, since the list is downloaded anew every
   * time; what building the Bitcoin transaction over a set of inputs comes to; where change can go.
   */
  datatype World = World(
    dag: (nat, AssetId) -> DagData, list: (nat, AssetId) -> RejectList, build: nat -> set<Outpoint> -> Funding.Answer,
    hosts: Hosts)
  {
    ghost predicate WellFormed()
    {
      forall pass, asset :: dag(pass, asset).WellFormed()
    }

    ghost predicate TaintedOn(pass: nat, asset: AssetId, o: Opout)
    {
      Tainted(dag(pass, asset), list(pass, asset), o)
    }

    /** The transaction over the inputs pays bitcoins back to the wallet. */
    predicate HasChange(pass: nat, inputs: seq<Outpoint>)
    {
      var answer := build(pass)(Funding.ToSet(inputs));
      answer.Built? && answer.change
    }

    function SealOver(pass: nat, inputs: seq<Outpoint>): Option<Seal>
    {
      SealFor(hosts, HasChange(pass, inputs), inputs)
    }
  }

  datatype Verdict = Clean | Retry(index: nat, toReject: set<Opout>) | Unindexed(index: nat, opout: Opout)

  datatype SendResult =
    | Prepared(pass: nat, assets: seq<PreparedAsset>, inputs: seq<Outpoint>)
    | Unfunded(pass: nat, assets: seq<PreparedAsset>, error: Funding.FundingError)
    | NoChangeSlot(pass: nat, assets: seq<PreparedAsset>, inputs: seq<Outpoint>)
    | Insufficient(index: nat, rejected: set<Opout>)
    | OutsideDag(index: nat, pass: nat, opout: Opout)

  /** The outpoints selected for the assets, one after the other. */
  function SelectedInputs(assets: seq<PreparedAsset>): seq<Outpoint>
  {
    if assets == [] then []
    else SelectedInputs(assets[..|assets| - 1]) + OutpointList(assets[|assets| - 1].spend.inputs)
  }

  function OutpointList(us: seq<LocalUnspent>): seq<Outpoint>
  {
    seq(|us|, i requires 0 <= i < |us| => us[i].outpoint)
  }

  /** Opouts of other contracts on the inputs of the transaction. */
  function Bystander(requests: seq<AssetRequest>, inputs: seq<Outpoint>): Holding -> bool
  {
    (h: Holding) => h.outpoint in inputs && forall r | r in requests :: r.asset != h.asset
  }

  /** One seal for the change of an asset, if there is any, and one for each of its leftover opouts. */
  function SealsOf(): PreparedAsset -> int
  {
    (p: PreparedAsset) => (if p.change != NOTHING then 1 else 0) + |p.extra|
  }

  function SealsWanted(requests: seq<AssetRequest>, assets: seq<PreparedAsset>, stock: seq<Holding>,
                       inputs: seq<Outpoint>): int
  {
    Sum(assets, SealsOf()) + |Filter(stock, Bystander(requests, inputs))|
  }

  /** Whatever has to come back to the wallet has a seal to go to. */
  predicate ChangeHosted(requests: seq<AssetRequest>, assets: seq<PreparedAsset>, stock: seq<Holding>,
                         world: World, pass: nat, inputs: seq<Outpoint>)
  {
    SealsWanted(requests, assets, stock, inputs) > 0 ==> world.SealOver(pass, inputs).Some?
  }

  ghost predicate InputsClean(p: PreparedAsset, req: AssetRequest, world: World, pass: nat)
  {
    req.hasRejectList ==> forall h | h in p.inputs :: !world.TaintedOn(pass, req.asset, h.opout)
  }

  /** Check the inputs of each asset that has a reject list, stopping at the first rejection. */
  method JudgeInputs(requests: seq<AssetRequest>, prepared: seq<PreparedAsset>, world: World, pass: nat)
    returns (v: Verdict)
    requires |prepared| == |requests| && world.WellFormed()
    ensures v.Clean? ==> forall i | 0 <= i < |requests| :: InputsClean(prepared[i], requests[i], world, pass)
    ensures v.Retry? ==>
      && v.index < |requests| && requests[v.index].hasRejectList
      && v.toReject != {} && v.toReject <= OpoutsOf(prepared[v.index].inputs)
      && forall o | o in v.toReject :: world.TaintedOn(pass, requests[v.index].asset, o)
    ensures v.Unindexed? ==>
      && v.index < |requests| && requests[v.index].hasRejectList
      && v.opout in OpoutsOf(prepared[v.index].inputs)
      && v.opout !in world.dag(pass, requests[v.index].asset).index
  {
    for i := 0 to |requests|
      invariant forall j | 0 <= j < i :: InputsClean(prepared[j], requests[j], world, pass)
    {
      if requests[i].hasRejectList {
        var asset := requests[i].asset;
        var opouts := OpoutsOf(prepared[i].inputs);
        var judged := CheckDag(world.dag(pass, asset), world.list(pass, asset), opouts);
        if judged.Failure? {
          return Unindexed(i, judged.error);
        }
        if judged.value != {} {
          return Retry(i, judged.value);
        }
        assert forall h | h in prepared[i].inputs :: h.opout in opouts;
      }
    }
    return Clean;
  }

  /** Every rejected opout was found tainted by the list of its asset on some pass. */
  ghost predicate EverTainted(rejected: set<Opout>, world: World, stock: seq<Holding>)
  {
    forall h | h in stock && h.opout in rejected :: exists pass :: world.TaintedOn(pass, h.asset, h.opout)
  }

  /** What a send may report. */
  ghost predicate Outcome(r: SendResult, requests: seq<AssetRequest>, unspents: seq<LocalUnspent>,
                          stock: seq<Holding>, world: World)
  {
    match r
    case Prepared(pass, assets, inputs) =>
      && |assets| == |requests|
      && Funding.Outcome(unspents, SelectedInputs(assets), world.build(pass), Success(inputs))
      && ChangeHosted(requests, assets, stock, world, pass, inputs)
      && forall i | 0 <= i < |requests| ::
           Serves(assets[i], requests[i], unspents, stock) && InputsClean(assets[i], requests[i], world, pass)
    case NoChangeSlot(pass, assets, inputs) =>
      && |assets| == |requests|
      && Funding.Outcome(unspents, SelectedInputs(assets), world.build(pass), Success(inputs))
      && !ChangeHosted(requests, assets, stock, world, pass, inputs)
      && forall i | 0 <= i < |requests| :: Serves(assets[i], requests[i], unspents, stock)
    case Unfunded(pass, assets, error) =>
      && |assets| == |requests|
      && Funding.Outcome(unspents, SelectedInputs(assets), world.build(pass), Failure(error))
      && forall i | 0 <= i < |requests| :: Serves(assets[i], requests[i], unspents, stock)
    case Insufficient(i, rejected) =>
      && i < |requests|
      && !AvailableCovers(requests[i], unspents, stock, rejected)
      && RejectedFrom(rejected, requests, unspents, stock)
      && EverTainted(rejected, world, stock)
    case OutsideDag(i, pass, o) =>
      && i < |requests| && requests[i].hasRejectList
      && o !in world.dag(pass, requests[i].asset).index
      && exists h :: h in stock && h.asset == requests[i].asset && h.opout == o
  }

  /** Nothing has to come back: no change, no leftover opout, and nothing of other contracts on the inputs. */
  ghost predicate NothingReturns(requests: seq<AssetRequest>, assets: seq<PreparedAsset>, stock: seq<Holding>,
                                 inputs: seq<Outpoint>)
  {
    && (forall p | p in assets :: p.change == NOTHING && p.extra == [])
    && (forall h | h in stock && h.outpoint in inputs :: exists r :: r in requests && r.asset == h.asset)
  }

  lemma {:induction false} AssetsWantNone(assets: seq<PreparedAsset>)
    ensures Sum(assets, SealsOf()) == 0 <==> forall p | p in assets :: p.change == NOTHING && p.extra == []
    ensures Sum(assets, SealsOf()) >= 0
  {
    SumNonNegative(assets, SealsOf());
    if forall p | p in assets :: p.change == NOTHING && p.extra == [] {
      SumZero(assets, SealsOf());
    } else {
      var i :| 0 <= i < |assets| && !(assets[i].change == NOTHING && assets[i].extra == []);
      SumRemove(assets, i, SealsOf());
      SumNonNegative(assets[..i] + assets[i + 1..], SealsOf());
    }
  }

  lemma {:induction false} BystandersWantNone(requests: seq<AssetRequest>, stock: seq<Holding>, inputs: seq<Outpoint>)
    ensures |Filter(stock, Bystander(requests, inputs))| == 0 <==>
            forall h | h in stock && h.outpoint in inputs :: exists r :: r in requests && r.asset == h.asset
  {
    var others := Filter(stock, Bystander(requests, inputs));
    if others != [] {
      FilterMember(stock, Bystander(requests, inputs), others[0]);
    } else {
      forall h | h in stock && h.outpoint in inputs
        ensures exists r :: r in requests && r.asset == h.asset
      {
        FilterMember(stock, Bystander(requests, inputs), h);
      }
    }
  }

  /**
   * A prepared send has a seal for whatever comes back to the wallet, change and leftovers alike, and a send
   * that ends for want of one had something to come back and no place for it.
   */
  lemma {:induction false} SealedWhereNeeded(r: SendResult, requests: seq<AssetRequest>, unspents: seq<LocalUnspent>,
                                             stock: seq<Holding>, world: World)
    requires Outcome(r, requests, unspents, stock, world)
    ensures r.Prepared? ==>
      world.SealOver(r.pass, r.inputs).Some? || NothingReturns(requests, r.assets, stock, r.inputs)
    ensures r.NoChangeSlot? ==>
      world.SealOver(r.pass, r.inputs).None? && !NothingReturns(requests, r.assets, stock, r.inputs)
  {
    if r.Prepared? || r.NoChangeSlot? {
      AssetsWantNone(r.assets);
      BystandersWantNone(requests, stock, r.inputs);
    }
  }

  lemma ServedFromStock(p: PreparedAsset, req: AssetRequest, unspents: seq<LocalUnspent>, stock: seq<Holding>)
    requires DistinctOutpoints(unspents) && Serves(p, req, unspents, stock)
    ensures forall h | h in p.inputs ::
      h in stock && h.asset == req.asset && h.outpoint in OutpointsOf(unspents)
  {
    SelectionIsDistinct(p.spend.inputs, unspents);
    var outs := OutpointsOf(p.spend.inputs);
    forall h | h in p.inputs
      ensures h in stock && h.asset == req.asset && h.outpoint in OutpointsOf(unspents)
    {
      assert h in multiset(p.inputs) + multiset(p.extra);
      assert h in AssignmentsFor(stock, req.asset, outs);
      FilterMember(stock, HeldIn(req.asset, outs), h);
    }
  }

  /** Progress of a retry: new opouts are rejected, and every target stays exact. */
  method Reject(requests: seq<AssetRequest>, needed: seq<AssignmentsCollection>, rejected: set<Opout>,
                v: Verdict, p: PreparedAsset, unspents: seq<LocalUnspent>, stock: seq<Holding>)
    returns (needed': seq<AssignmentsCollection>, rejected': set<Opout>)
    requires ValidSend(requests, unspents, stock) && |needed| == |requests|
    requires forall i | 0 <= i < |requests| :: NeededIs(requests[i], needed[i], rejected, stock)
    requires RejectedFrom(rejected, requests, unspents, stock)
    requires v.Retry? && v.index < |requests| && requests[v.index].hasRejectList
    requires v.toReject != {} && v.toReject <= OpoutsOf(p.inputs)
    requires Serves(p, requests[v.index], unspents, stock)
    requires forall h | h in p.inputs :: h.opout !in rejected
    ensures |needed'| == |requests|
    ensures forall i | 0 <= i < |requests| :: NeededIs(requests[i], needed'[i], rejected', stock)
    ensures rejected' == rejected + v.toReject && rejected < rejected'
    ensures RejectedFrom(rejected', requests, unspents, stock)
  {
    var req := requests[v.index];
    assert ValidRequest(req, unspents, stock);
    ServedFromStock(p, req, unspents, stock);
    var own := InflateNeeded(req, needed[v.index], rejected, p.inputs, v.toReject, stock);
    needed' := needed[v.index := own];
    rejected' := rejected + v.toReject;
    RejectionsBelong(v.toReject, req, p.inputs, rejected, stock);
    RejectedGrows(rejected, v.toReject, requests, v.index, unspents, stock);
    forall i | 0 <= i < |requests|
      ensures NeededIs(requests[i], needed'[i], rejected', stock)
    {
      if i != v.index {
        OthersUnaffected(requests[i], needed[i], rejected, v.toReject, req.asset, stock);
      }
    }
  }

  lemma RejectionsBelong(toReject: set<Opout>, req: AssetRequest, inputs: seq<Holding>, rejected: set<Opout>,
                         stock: seq<Holding>)
    requires ValidStock(stock) && toReject != {} && toReject <= OpoutsOf(inputs)
    requires forall h | h in inputs :: h in stock && h.asset == req.asset && h.opout !in rejected
    ensures forall h | h in stock && h.opout in toReject :: h in inputs && h.asset == req.asset
    ensures rejected < rejected + toReject && toReject <= OpoutsOf(stock)
  {
    forall h | h in stock && h.opout in toReject
      ensures h in inputs
    {
      var g :| g in inputs && g.opout == h.opout;
      assert g == h;
    }
    var o :| o in toReject;
    assert o !in rejected;
  }

  lemma RejectedGrows(rejected: set<Opout>, toReject: set<Opout>, requests: seq<AssetRequest>, k: nat,
                      unspents: seq<LocalUnspent>, stock: seq<Holding>)
    requires RejectedFrom(rejected, requests, unspents, stock)
    requires k < |requests| && requests[k].hasRejectList && toReject <= OpoutsOf(stock)
    requires forall h | h in stock && h.opout in toReject ::
      h.asset == requests[k].asset && h.outpoint in OutpointsOf(unspents)
    ensures RejectedFrom(rejected + toReject, requests, unspents, stock)
  {
    assert requests[k] in requests;
  }

  /** One pass over all requested assets. */
  method PrepareAll(requests: seq<AssetRequest>, needed: seq<AssignmentsCollection>, rejected: set<Opout>,
                    unspents: seq<LocalUnspent>, stock: seq<Holding>)
    returns (r: Result<seq<PreparedAsset>, nat>)
    requires ValidSend(requests, unspents, stock) && |needed| == |requests|
    requires forall i | 0 <= i < |requests| :: NeededIs(requests[i], needed[i], rejected, stock)
    requires RejectedFrom(rejected, requests, unspents, stock)
    ensures r.Success? ==>
      && |r.value| == |requests|
      && forall i | 0 <= i < |requests| ::
           && Serves(r.value[i], requests[i], unspents, stock)
           && forall h | h in r.value[i].inputs :: h.opout !in rejected
    ensures r.Failure? ==> r.error < |requests| && !AvailableCovers(requests[r.error], unspents, stock, rejected)
  {
    var prepared: seq<PreparedAsset> := [];
    for i := 0 to |requests|
      invariant |prepared| == i
      invariant forall j | 0 <= j < i ::
        && Serves(prepared[j], requests[j], unspents, stock)
        && forall h | h in prepared[j].inputs :: h.opout !in rejected
    {
      OwnRejectionsHold(requests, i, rejected, unspents, stock);
      var p := PrepareAsset(requests[i], needed[i], rejected, unspents, stock);
      if p.Failure? {
        return Failure(i);
      }
      prepared := prepared + [p.value];
    }
    return Success(prepared);
  }

  lemma OwnRejectionsHold(requests: seq<AssetRequest>, i: nat, rejected: set<Opout>,
                          unspents: seq<LocalUnspent>, stock: seq<Holding>)
    requires i < |requests| && ValidSend(requests, unspents, stock)
    requires RejectedFrom(rejected, requests, unspents, stock)
    ensures OwnRejections(requests[i], rejected, unspents, stock)
    ensures ValidRequest(requests[i], unspents, stock)
  {
    assert requests[i] in requests;
    forall h | h in stock && h.asset == requests[i].asset && h.opout in rejected
      ensures h.outpoint in OutpointsOf(unspents) && requests[i].hasRejectList
    {
      var r :| r in requests && r.asset == h.asset && r.hasRejectList;
      var j :| 0 <= j < |requests| && requests[j] == r;
    }
  }

  /** The retry loop's state: every target is the original one plus exactly what was rejected. */
  ghost predicate Retrying(requests: seq<AssetRequest>, needed: seq<AssignmentsCollection>, rejected: set<Opout>,
                           unspents: seq<LocalUnspent>, stock: seq<Holding>, world: World)
  {
    && |needed| == |requests|
    && (forall i | 0 <= i < |requests| :: NeededIs(requests[i], needed[i], rejected, stock))
    && RejectedFrom(rejected, requests, unspents, stock)
    && EverTainted(rejected, world, stock)
  }

  /** What a pass has arranged before its inputs are judged. */
  ghost predicate Arranged(assets: seq<PreparedAsset>, inputs: seq<Outpoint>, requests: seq<AssetRequest>,
                           rejected: set<Opout>, pass: nat, unspents: seq<LocalUnspent>, stock: seq<Holding>,
                           world: World)
  {
    && |assets| == |requests|
    && Funding.Outcome(unspents, SelectedInputs(assets), world.build(pass), Success(inputs))
    && ChangeHosted(requests, assets, stock, world, pass, inputs)
    && forall i | 0 <= i < |requests| ::
         && Serves(assets[i], requests[i], unspents, stock)
         && forall h | h in assets[i].inputs :: h.opout !in rejected
  }

  /** Choose the inputs of all assets, pay for the transaction and find a place for what comes back. */
  method Arrange(requests: seq<AssetRequest>, needed: seq<AssignmentsCollection>, rejected: set<Opout>, pass: nat,
                 unspents: seq<LocalUnspent>, stock: seq<Holding>, world: World)
    returns (r: Result<(seq<PreparedAsset>, seq<Outpoint>), SendResult>)
    requires ValidSend(requests, unspents, stock) && |needed| == |requests|
    requires forall i | 0 <= i < |requests| :: NeededIs(requests[i], needed[i], rejected, stock)
    requires RejectedFrom(rejected, requests, unspents, stock) && EverTainted(rejected, world, stock)
    ensures r.Success? ==> Arranged(r.value.0, r.value.1, requests, rejected, pass, unspents, stock, world)
    ensures r.Failure? ==> !r.error.Prepared? && Outcome(r.error, requests, unspents, stock, world)
  {
    var all := PrepareAll(requests, needed, rejected, unspents, stock);
    if all.Failure? {
      return Failure(Insufficient(all.error, rejected));
    }
    var funded := Funding.TryPreparePsbt(unspents, SelectedInputs(all.value), world.build(pass));
    if funded.Failure? {
      return Failure(Unfunded(pass, all.value, funded.error));
    }
    SumNonNegative(all.value, SealsOf());
    var hosted := TakeSeals(world.hosts, world.HasChange(pass, funded.value), funded.value,
                            SealsWanted(requests, all.value, stock, funded.value));
    if !hosted {
      return Failure(NoChangeSlot(pass, all.value, funded.value));
    }
    r := Success((all.value, funded.value));
  }

  /** The outcome of one pass; None asks for another one, with strictly more rejected opouts. */
  method Attempt(requests: seq<AssetRequest>, needed: seq<AssignmentsCollection>, rejected: set<Opout>, pass: nat,
                 unspents: seq<LocalUnspent>, stock: seq<Holding>, world: World)
    returns (r: Option<SendResult>, needed': seq<AssignmentsCollection>, rejected': set<Opout>)
    requires ValidSend(requests, unspents, stock) && world.WellFormed()
    requires Retrying(requests, needed, rejected, unspents, stock, world)
    ensures r.Some? ==> Outcome(r.value, requests, unspents, stock, world)
    ensures r.None? ==> Retrying(requests, needed', rejected', unspents, stock, world) && rejected < rejected'
  {
    needed', rejected' := needed, rejected;
    var arranged := Arrange(requests, needed, rejected, pass, unspents, stock, world);
    if arranged.Failure? {
      return Some(arranged.error), needed, rejected;
    }
    var (assets, inputs) := arranged.value;
    var v := JudgeInputs(requests, assets, world, pass);
    match v
    case Clean =>
      r := Some(Prepared(pass, assets, inputs));
    case Unindexed(i, o) =>
      ServedFromStock(assets[i], requests[i], unspents, stock);
      r := Some(OutsideDag(i, pass, o));
    case Retry(i, toReject) =>
      ServedFromStock(assets[i], requests[i], unspents, stock);
      RejectionsAreTainted(requests[i], assets[i], toReject, rejected, world, pass, stock);
      needed', rejected' := Reject(requests, needed, rejected, v, assets[i], unspents, stock);
      r := None;
  }

  /** Prepare a send, starting over with inflated targets whenever an input turns out to be rejected. */
  method SendBegin(requests: seq<AssetRequest>, unspents: seq<LocalUnspent>, stock: seq<Holding>, world: World)
    returns (r: SendResult)
    requires ValidSend(requests, unspents, stock) && world.WellFormed()
    ensures Outcome(r, requests, unspents, stock, world)
  {
    var rejected: set<Opout> := {};
    var needed := seq(|requests|, i requires 0 <= i < |requests| => requests[i].original);
    var pass: nat := 0;
    StartsRetrying(requests, needed, unspents, stock, world);
    while true
      invariant Retrying(requests, needed, rejected, unspents, stock, world)
      decreases |OpoutsOf(stock) - rejected|
    {
      var done, needed', rejected' := Attempt(requests, needed, rejected, pass, unspents, stock, world);
      if done.Some? {
        return done.value;
      }
      FewerLeft(rejected, rejected', OpoutsOf(stock));
      needed, rejected := needed', rejected';
      pass := pass + 1;
    }
  }

  lemma FewerLeft(rejected: set<Opout>, rejected': set<Opout>, all: set<Opout>)
    requires rejected < rejected' <= all
    ensures |all - rejected'| < |all - rejected|
  {
    SmallerSet(all - rejected', all - rejected);
  }

  lemma StartsRetrying(requests: seq<AssetRequest>, needed: seq<AssignmentsCollection>,
                       unspents: seq<LocalUnspent>, stock: seq<Holding>, world: World)
    requires |needed| == |requests|
    requires forall i | 0 <= i < |requests| :: needed[i] == requests[i].original
    ensures Retrying(requests, needed, {}, unspents, stock, world)
  {
    NothingRejected(requests, stock);
  }

  lemma NothingRejected(requests: seq<AssetRequest>, stock: seq<Holding>)
    ensures forall i | 0 <= i < |requests| :: NeededIs(requests[i], requests[i].original, {}, stock)
  {
    forall i | 0 <= i < |requests|
      ensures NeededIs(requests[i], requests[i].original, {}, stock)
    {
      SumZero(stock, Gate(RejectedOf(requests[i].asset, {}), FungibleState()));
      SumZero(stock, Gate(RejectedOf(requests[i].asset, {}), InflationState()));
    }
  }

  lemma RejectionsAreTainted(req: AssetRequest, p: PreparedAsset, toReject: set<Opout>, rejected: set<Opout>,
                             world: World, pass: nat, stock: seq<Holding>)
    requires ValidStock(stock) && EverTainted(rejected, world, stock)
    requires toReject <= OpoutsOf(p.inputs)
    requires forall h | h in p.inputs :: h in stock && h.asset == req.asset
    requires forall o | o in toReject :: world.TaintedOn(pass, req.asset, o)
    ensures EverTainted(rejected + toReject, world, stock)
  {
    forall h | h in stock && h.opout in rejected + toReject
      ensures exists q :: world.TaintedOn(q, h.asset, h.opout)
    {
      if h.opout in toReject {
        var g :| g in p.inputs && g.opout == h.opout;
        assert g == h && world.TaintedOn(pass, h.asset, h.opout);
      }
    }
  }

  // ---------------------------------------------------------------- when a send succeeds

  /** The reject list of an asset and its history stay the same while the send is prepared. */
  ghost predicate Steady(world: World)
  {
    forall pass, asset, o :: world.TaintedOn(pass, asset, o) <==> world.TaintedOn(0, asset, o)
  }

  ghost predicate Indexed(requests: seq<AssetRequest>, stock: seq<Holding>, world: World)
  {
    forall pass, h, r | h in stock && r in requests && r.hasRejectList && h.asset == r.asset ::
      h.opout in world.dag(pass, r.asset).index
  }

  ghost function Untainted(req: AssetRequest, outs: set<Outpoint>, world: World): Holding -> bool
  {
    (h: Holding) => h.asset == req.asset && h.outpoint in outs
                    && !(req.hasRejectList && world.TaintedOn(0, req.asset, h.opout))
  }

  /** The untainted opouts on spendable UTXOs are worth the request. */
  ghost predicate CleanCovers(req: AssetRequest, unspents: seq<LocalUnspent>, stock: seq<Holding>, world: World)
  {
    var p := Untainted(req, OutpointsOf(unspents), world);
    && req.original.fungible <= Sum(stock, Gate(p, FungibleState()))
    && req.original.inflation <= Sum(stock, Gate(p, InflationState()))
    && (req.original.nonFungible ==> SomeNonFungible(req.asset, unspents))
  }

  lemma InputsAreUntainted(p: PreparedAsset, req: AssetRequest, unspents: seq<LocalUnspent>, stock: seq<Holding>,
                           world: World, pass: nat)
    requires DistinctOutpoints(unspents) && Steady(world)
    requires Serves(p, req, unspents, stock) && InputsClean(p, req, world, pass)
    ensures forall h | h in p.inputs :: Untainted(req, OutpointsOf(unspents), world)(h)
  {
    ServedFromStock(p, req, unspents, stock);
  }

  lemma InputsWeighAtMost(p: PreparedAsset, req: AssetRequest, unspents: seq<LocalUnspent>, stock: seq<Holding>,
                          good: Holding -> bool, f: Holding -> int)
    requires Serves(p, req, unspents, stock)
    requires forall h | h in p.inputs :: good(h)
    requires forall h: Holding :: f(h) >= 0
    ensures Sum(p.inputs, f) <= Sum(stock, Gate(good, f))
  {
    var outs := OutpointsOf(p.spend.inputs);
    PartBelowGate(p.inputs, p.extra, AssignmentsFor(stock, req.asset, outs), good, f);
    SumGate(stock, HeldIn(req.asset, outs), Gate(good, f));
    SumMonotone(stock, Gate(HeldIn(req.asset, outs), Gate(good, f)), Gate(good, f));
  }

  lemma PreparedHasData(p: PreparedAsset, req: AssetRequest, unspents: seq<LocalUnspent>, stock: seq<Holding>)
    requires DistinctOutpoints(unspents) && ValidRequest(req, unspents, stock)
    requires Serves(p, req, unspents, stock) && req.original.nonFungible
    ensures SomeNonFungible(req.asset, unspents)
  {
    var outs := OutpointsOf(unspents);
    ServedFromStock(p, req, unspents, stock);
    SelectedHoldings(req.asset, unspents, stock);
    InputsWeighAtMost(p, req, unspents, stock, HeldIn(req.asset, outs), DataState());
    SumGate(stock, HeldIn(req.asset, outs), DataState());
  }

  lemma PreparedIsClean(p: PreparedAsset, req: AssetRequest, unspents: seq<LocalUnspent>, stock: seq<Holding>,
                        world: World, pass: nat)
    requires DistinctOutpoints(unspents) && ValidRequest(req, unspents, stock) && Steady(world)
    requires Serves(p, req, unspents, stock) && InputsClean(p, req, world, pass)
    ensures CleanCovers(req, unspents, stock, world)
  {
    var good := Untainted(req, OutpointsOf(unspents), world);
    InputsAreUntainted(p, req, unspents, stock, world, pass);
    InputsWeighAtMost(p, req, unspents, stock, good, FungibleState());
    InputsWeighAtMost(p, req, unspents, stock, good, InflationState());
    if req.original.nonFungible {
      PreparedHasData(p, req, unspents, stock);
    }
  }

  lemma CleanIsAvailable(req: AssetRequest, requests: seq<AssetRequest>, unspents: seq<LocalUnspent>,
                         stock: seq<Holding>, world: World, rejected: set<Opout>)
    requires Steady(world) && EverTainted(rejected, world, stock)
    requires OwnRejections(req, rejected, unspents, stock)
    requires CleanCovers(req, unspents, stock, world)
    ensures AvailableCovers(req, unspents, stock, rejected)
  {
    var outs := OutpointsOf(unspents);
    var good := Untainted(req, outs, world);
    var free := Available(req.asset, outs, rejected);
    assert forall h | h in stock && good(h) :: free(h);
    SumMonotone(stock, Gate(good, FungibleState()), Gate(free, FungibleState()));
    SumMonotone(stock, Gate(good, InflationState()), Gate(free, InflationState()));
  }

  /**
   * With a steady reject list, the retry loop succeeds exactly when, for every requested asset, the
   * untainted opouts on spendable UTXOs are worth the request, unless a pass could not be paid for in
   * bitcoins or left its change without an output: no retry order can miss a solution.
   */
  lemma SendSucceedsIffClean(r: SendResult, requests: seq<AssetRequest>, unspents: seq<LocalUnspent>,
                             stock: seq<Holding>, world: World)
    requires ValidSend(requests, unspents, stock) && world.WellFormed()
    requires Outcome(r, requests, unspents, stock, world)
    requires Steady(world) && Indexed(requests, stock, world)
    ensures r.Prepared? <==>
      !r.Unfunded? && !r.NoChangeSlot? && forall req | req in requests :: CleanCovers(req, unspents, stock, world)
  {
    match r
    case Prepared(pass, assets, _) =>
      forall req | req in requests
        ensures CleanCovers(req, unspents, stock, world)
      {
        var i :| 0 <= i < |requests| && requests[i] == req;
        PreparedIsClean(assets[i], req, unspents, stock, world, pass);
      }
    case Insufficient(i, rejected) =>
      OwnRejectionsHold(requests, i, rejected, unspents, stock);
      if CleanCovers(requests[i], unspents, stock, world) {
        CleanIsAvailable(requests[i], requests, unspents, stock, world, rejected);
      }
    case OutsideDag(_, _, _) =>
    case Unfunded(_, _, _) =>
    case NoChangeSlot(_, _, _) =>
  }

  /** Whatever is selected, all the outputs there are would pay for it. */
  ghost predicate Solvent(unspents: seq<LocalUnspent>, world: World)
  {
    && (forall pass :: Funding.Monotone(world.build(pass)))
    && (forall pass, start :: world.build(pass)(Funding.Everything(unspents, start)).Built?)
  }

  /** With enough bitcoins, success is a matter of the assets and of where their change can go. */
  lemma SolventSendSucceedsIffClean(r: SendResult, requests: seq<AssetRequest>, unspents: seq<LocalUnspent>,
                                    stock: seq<Holding>, world: World)
    requires ValidSend(requests, unspents, stock) && world.WellFormed()
    requires Outcome(r, requests, unspents, stock, world)
    requires Steady(world) && Indexed(requests, stock, world) && Solvent(unspents, world)
    ensures !r.Unfunded?
    ensures r.Prepared? <==>
      !r.NoChangeSlot? && forall req | req in requests :: CleanCovers(req, unspents, stock, world)
  {
    SendSucceedsIffClean(r, requests, unspents, stock, world);
    if r.Unfunded? {
      var failed: Result<seq<Outpoint>, Funding.FundingError> := Failure(r.error);
      Funding.FundedIffEnough(unspents, SelectedInputs(r.assets), world.build(r.pass), failed);
    }
  }
}
